/** The relay path from the host's file to the guest's: sender, bridge and
    receiver together. */
module RelayEndToEnd {
  import opened Transfer
  import opened RelayTransfer
  import opened RelayReceiver
  import Bridge

  /** What a file costs on the wire. */
  function WireBytes(j: Codec, f: File): nat {
    |f.content| + 29 * ((|f.content| + 16383) / 16384 + 2) + |j.encode(Announcement(f))| + 14
  }

  lemma CutOfStream(c: Cipher, j: Codec, key: Key, ivs: nat -> Iv, f: File, n: nat)
    requires c.Lawful() && j.Lawful() && n <= |Stream(c, j, key, ivs, f)|
    ensures Bridge.Cut(Stream(c, j, key, ivs, f)[..n]) <= n
    ensures Bridge.Cut(Stream(c, j, key, ivs, f)) == |Stream(c, j, key, ivs, f)| <==> WireBytes(j, f) <= 52428800
  {
    var stream := Stream(c, j, key, ivs, f);
    Bridge.CutIsTheLongestFit(stream[..n], 0);
    Bridge.CutIsTheLongestFit(stream, |stream|);
    assert stream[..|stream|] == stream;
    WireLength(c, j, key, ivs, f);
  }

  /** An untroubled transfer completes if and only if the wire bytes fit the cap,
      with the sender's name, type and bytes. */
  lemma CompletesIffItFits(c: Cipher, j: Codec, key: Key, ivs: nat -> Iv, f: File)
    requires c.Lawful() && j.Lawful()
    ensures var stream := Stream(c, j, key, ivs, f);
            && Bridge.Cut(stream) <= |stream|
            && var guest := Run(c, j, key, stream[..Bridge.Cut(stream)]);
               (Completed(guest) <==> WireBytes(j, f) <= 52428800)
               && (forall e :: e in guest.events && e.Complete? ==> e == Complete(MetaOf(f), f.content))
  {
    var stream := Stream(c, j, key, ivs, f);
    CutOfStream(c, j, key, ivs, f, |stream|);
    assert stream[..|stream|] == stream;
    PrefixReceived(c, j, key, ivs, f, Bridge.Cut(stream));
  }

  /** The 50 MB limit counts framing, so a 50 MB file never arrives: whatever the
      bridge lets through, the guest does not complete. */
  lemma FiftyMegabytesNeverArrive(c: Cipher, j: Codec, key: Key, ivs: nat -> Iv, f: File, n: nat)
    requires c.Lawful() && j.Lawful() && |f.content| >= 52428800
    requires n <= Bridge.Cut(Stream(c, j, key, ivs, f))
    ensures n < |Stream(c, j, key, ivs, f)| && !Completed(Run(c, j, key, Stream(c, j, key, ivs, f)[..n]))
  {
    var stream := Stream(c, j, key, ivs, f);
    CutOfStream(c, j, key, ivs, f, |stream|);
    assert stream[..|stream|] == stream;
    PrefixReceived(c, j, key, ivs, f, n);
  }

  /** A file about 92 KB smaller does, if its announcement is ordinary. */
  lemma AlmostFiftyMegabytesFit(j: Codec, f: File)
    requires |f.content| <= 52335000 && |j.encode(Announcement(f))| <= 1000
    ensures WireBytes(j, f) <= 52428800
  {
    assert Pieces(|f.content|) <= 3195;
  }

  /** The guest's event loop over the frames it is delivered. */
  method Receive(guest: Receiver, frames: seq<Bytes>)
    requires guest.View() == START
    modifies guest
    ensures guest.View() == Run(guest.c, guest.j, guest.key, frames)
  {
    for i := 0 to |frames|
      invariant guest.View() == Run(guest.c, guest.j, guest.key, frames[..i])
    {
      RunSplits(guest.c, guest.j, guest.key, frames, i);
      guest.OnMessage(frames[i]);
    }
    assert frames[..|frames|] == frames;
  }

  /** One transfer over whatever network: the guest sees the script's first
      `delivered` events.  If the host's socket stays open and the bridge has no
      trouble, it sees all of them, the last being the file, exactly when the
      file fits. */
  method RelayFile(c: Cipher, j: Codec, key: Key, ivs: nat -> Iv, f: File, ws: RelaySocket, turns: nat -> Bridge.Turn)
    returns (events: seq<Event>, ghost sent: nat, ghost delivered: nat)
    requires c.Lawful() && j.Lawful() && ws.sent == []
    modifies ws
    ensures delivered <= sent <= |Script(f)| && events == Script(f)[..delivered]
    ensures ws.open && (forall i :: !Bridge.Trouble(turns, i)) ==>
              ((delivered == |Script(f)|) <==> WireBytes(j, f) <= 52428800)
  {
    ghost var stream := Stream(c, j, key, ivs, f);
    ghost var calm := forall i :: !Bridge.Trouble(turns, i);
    hide Stream, Script, Run, Offsets, WireBytes, Cipher.Lawful, Codec.Lawful, Completed, Total;
    hide Bridge.Cut, Bridge.Timed, Bridge.Trouble;
    var outcome, progress;
    outcome, progress, sent := SendFileOverRelay(ws, c, j, key, ivs, f);
    assert ws.sent == stream[..sent];
    var through, stamps, bytes, end := Bridge.RunBridge(ws.sent, turns);
    delivered := |through|;
    assert through == stream[..delivered];
    var guest := new Receiver(c, j, key);
    Receive(guest, through);
    events := guest.events;
    PrefixReceived(c, j, key, ivs, f, delivered);
    CutOfStream(c, j, key, ivs, f, sent);
    if ws.open && calm {
      assert stream[..sent] == stream;
      assert delivered == Bridge.Cut(stream);
    }
  }
}
