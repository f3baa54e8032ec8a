/** The receiving end of the relay: `receiveFileOverRelay` with the callbacks of
    `receiveOverRelay`, which close the socket at the first verdict
    (web/src/relay-transfer.ts, web/src/go-transport.ts). */
module RelayReceiver {
  import opened Common
  import opened Transfer
  import opened RelayTransfer

  datatype State = State(meta: Option<Meta>, chunks: seq<Bytes>, received: nat, open: bool, events: seq<Event>) {
    function Say(e: Event): State {
      this.(events := events + [e])
    }

    function Fail(reason: string): State {
      this.(events := events + [Error(reason)], open := false)
    }
  }

  const START: State := State(None, [], 0, true, [])

  function OnControl(j: Codec, s: State, payload: Bytes): State {
    match j.decode(payload)
    case None => s.Fail("malformed control frame")
    case Some(Metadata(name, size, kind)) => s.(meta := Some(Meta(name, size, kind))).Say(Progress(0, size))
    case Some(Eof) =>
      if s.meta.None? then s.Fail("eof received before metadata")
      else if s.meta.value.size != Some(s.received) then s.Fail("integrity mismatch")
      else s.Say(Complete(s.meta.value, Concat(s.chunks))).(open := false)
    case Some(Other(_)) => s
  }

  function OnData(s: State, payload: Bytes): State {
    var s' := s.(chunks := s.chunks + [payload], received := s.received + |payload|);
    if s.meta.Some? then s'.Say(Progress(s'.received, s.meta.value.size)) else s'
  }

  /** One decrypted message; `None` when decryption failed. */
  function OnPlain(j: Codec, s: State, plain: Option<Bytes>): State {
    if plain.None? then s.Fail("relay decryption failed")
    else if plain.value == [] then s.Fail("unknown frame type")
    else if plain.value[0] == FRAME_CONTROL then OnControl(j, s, plain.value[1..])
    else if plain.value[0] == FRAME_DATA then OnData(s, plain.value[1..])
    else s.Fail("unknown frame type")
  }

  /** A closed socket raises no more messages. */
  function OnFrame(c: Cipher, j: Codec, key: Key, s: State, frame: Bytes): State {
    if s.open then OnPlain(j, s, OpenFrame(c, key, frame)) else s
  }

  function Run(c: Cipher, j: Codec, key: Key, frames: seq<Bytes>): State {
    if frames == [] then START
    else OnFrame(c, j, key, Run(c, j, key, frames[..|frames| - 1]), frames[|frames| - 1])
  }

  class Receiver {
    const c: Cipher
    const j: Codec
    const key: Key
    var meta: Option<Meta>
    var chunks: seq<Bytes>
    var receivedBytes: nat
    var open: bool
    var events: seq<Event>

    function View(): State
      reads this
    {
      State(meta, chunks, receivedBytes, open, events)
    }

    constructor (c: Cipher, j: Codec, key: Key)
      ensures View() == START && this.c == c && this.j == j && this.key == key
    {
      this.c, this.j, this.key := c, j, key;
      meta, chunks, receivedBytes, open, events := None, [], 0, true, [];
    }

    method OnError(reason: string)
      modifies this
      ensures View() == old(View()).Fail(reason)
    {
      events, open := events + [Error(reason)], false;
    }

    method OnComplete(meta: Meta, blob: Bytes)
      modifies this
      ensures View() == old(View()).Say(Complete(meta, blob)).(open := false)
    {
      events, open := events + [Complete(meta, blob)], false;
    }

    method OnMessage(frame: Bytes)
      modifies this
      ensures View() == OnFrame(c, j, key, old(View()), frame)
    {
      if !open {
        return;
      }
      var plain := OpenFrame(c, key, frame);
      if plain.None? {
        OnError("relay decryption failed");
        return;
      }
      var view := plain.value;
      if view == [] {
        OnError("unknown frame type");
        return;
      }
      var payload := view[1..];
      if view[0] == FRAME_CONTROL {
        match j.decode(payload) {
          case None => OnError("malformed control frame");
          case Some(Metadata(name, size, kind)) =>
            meta := Some(Meta(name, size, kind));
            events := events + [Progress(0, size)];
          case Some(Eof) =>
            if meta.None? {
              OnError("eof received before metadata");
            } else if meta.value.size != Some(receivedBytes) {
              OnError("integrity mismatch");
            } else {
              OnComplete(meta.value, Concat(chunks));
            }
          case Some(Other(_)) =>
        }
      } else if view[0] == FRAME_DATA {
        chunks := chunks + [payload];
        receivedBytes := receivedBytes + |payload|;
        if meta.Some? {
          events := events + [Progress(receivedBytes, meta.value.size)];
        }
      } else {
        OnError("unknown frame type");
      }
    }
  }

  // ------------------------------------------------- whatever frames may arrive

  predicate Verdict(e: Event) { !e.Progress? }

  /** One verdict at most, the last thing said, and it closes the socket; the
      counter is the sum of the chunks; what completes has its announced size. */
  ghost predicate Inv(s: State) {
    && s.received == Total(s.chunks)
    && (forall i :: 0 <= i < |s.events| - 1 ==> !Verdict(s.events[i]))
    && (s.open <==> s.events == [] || !Verdict(s.events[|s.events| - 1]))
    && (forall e :: e in s.events && e.Complete? ==>
          Some(e.meta) == s.meta && e.meta.size == Some(|e.blob|) && e.blob == Concat(s.chunks))
  }

  /** Frame `i` decides: it does not open, is of no known type, or is a control message that
      cannot be read or is the end mark. */
  predicate Decides(c: Cipher, j: Codec, key: Key, frame: Bytes) {
    match OpenFrame(c, key, frame)
    case None => true
    case Some(plain) =>
      plain == [] || (plain[0] != 1 && plain[0] != 2)
      || (plain[0] == 1 && (j.decode(plain[1..]).None? || j.decode(plain[1..]) == Some(Eof)))
  }

  /** What is said of a deciding frame other than the end mark. */
  function Reason(c: Cipher, key: Key, frame: Bytes): string {
    match OpenFrame(c, key, frame)
    case None => "relay decryption failed"
    case Some(plain) =>
      if plain == [] || (plain[0] != 1 && plain[0] != 2) then "unknown frame type" else "malformed control frame"
  }

  predicate IsEnd(c: Cipher, j: Codec, key: Key, frame: Bytes) {
    var plain := OpenFrame(c, key, frame);
    plain.Some? && plain.value != [] && plain.value[0] == 1 && j.decode(plain.value[1..]) == Some(Eof)
  }

  lemma FrameDecides(c: Cipher, j: Codec, key: Key, s: State, frame: Bytes)
    requires s.open
    ensures var s' := OnFrame(c, j, key, s, frame);
            && (s'.open <==> !Decides(c, j, key, frame))
            && (Decides(c, j, key, frame) ==>
                  s'.events == s.events + [
                    if !IsEnd(c, j, key, frame) then Error(Reason(c, key, frame))
                    else if s.meta.None? then Error("eof received before metadata")
                    else if s.meta.value.size != Some(s.received) then Error("integrity mismatch")
                    else Complete(s.meta.value, Concat(s.chunks))])
  {
    hide OpenFrame, Concat;
  }

  lemma {:induction false} RunSplits(c: Cipher, j: Codec, key: Key, frames: seq<Bytes>, n: nat)
    requires n < |frames|
    ensures Run(c, j, key, frames[..n + 1]) == OnFrame(c, j, key, Run(c, j, key, frames[..n]), frames[n])
  {
    assert frames[..n + 1][..n] == frames[..n];
  }

  /** After a verdict nothing changes any more. */
  lemma {:induction false} ClosedStays(c: Cipher, j: Codec, key: Key, frames: seq<Bytes>, n: nat)
    requires n <= |frames| && !Run(c, j, key, frames[..n]).open
    ensures Run(c, j, key, frames) == Run(c, j, key, frames[..n])
  {
    if n < |frames| {
      var init := frames[..|frames| - 1];
      assert init[..n] == frames[..n];
      ClosedStays(c, j, key, init, n);
    } else {
      assert frames[..n] == frames;
    }
  }

  lemma {:induction false} OpenUntilDecided(c: Cipher, j: Codec, key: Key, frames: seq<Bytes>)
    requires forall i :: 0 <= i < |frames| ==> !Decides(c, j, key, frames[i])
    ensures Run(c, j, key, frames).open
  {
    if frames != [] {
      OpenUntilDecided(c, j, key, frames[..|frames| - 1]);
      FrameDecides(c, j, key, Run(c, j, key, frames[..|frames| - 1]), frames[|frames| - 1]);
      hide OnFrame, Decides;
    }
  }

  /** For any frames from anyone: the receiver is open until the first frame that decides,
      which has the last word, and its reason: what came after it is not looked at. */
  lemma FirstDecides(c: Cipher, j: Codec, key: Key, frames: seq<Bytes>, n: nat)
    requires n < |frames| && Decides(c, j, key, frames[n])
    requires forall i :: 0 <= i < n ==> !Decides(c, j, key, frames[i])
    ensures var s, s' := Run(c, j, key, frames[..n]), Run(c, j, key, frames);
            && s.open && !s'.open
            && s'.events == s.events + [
                 if !IsEnd(c, j, key, frames[n]) then Error(Reason(c, key, frames[n]))
                 else if s.meta.None? then Error("eof received before metadata")
                 else if s.meta.value.size != Some(s.received) then Error("integrity mismatch")
                 else Complete(s.meta.value, Concat(s.chunks))]
  {
    hide Decides, IsEnd, Reason, OnFrame, Run, Concat;
    OpenUntilDecided(c, j, key, frames[..n]);
    FrameDecides(c, j, key, Run(c, j, key, frames[..n]), frames[n]);
    RunSplits(c, j, key, frames, n);
    ClosedStays(c, j, key, frames, n + 1);
  }

  lemma OpenSaysProgress(s: State)
    requires Inv(s) && s.open
    ensures forall e :: e in s.events ==> e.Progress?
  {
    hide Total, Concat;
    forall i | 0 <= i < |s.events| ensures s.events[i].Progress? {
      if i < |s.events| - 1 { assert !Verdict(s.events[i]); }
    }
  }

  lemma SayKeepsInv(s: State, s': State, e: Event)
    requires Inv(s) && s.open && s'.events == s.events + [e] && s'.received == Total(s'.chunks)
    requires s'.open <==> !Verdict(e)
    requires e.Complete? ==> Some(e.meta) == s'.meta && e.meta.size == Some(|e.blob|) && e.blob == Concat(s'.chunks)
    ensures Inv(s')
  {
    OpenSaysProgress(s);
    hide Total, Concat;
    assert forall i :: 0 <= i < |s.events| ==> s'.events[i] == s.events[i] && s.events[i] in s.events;
  }

  lemma FailKeepsInv(s: State, reason: string)
    requires Inv(s) && s.open
    ensures Inv(s.Fail(reason))
  {
    SayKeepsInv(s, s.Fail(reason), Error(reason));
    hide Total, Concat, Inv;
  }

  lemma DataKeepsInv(s: State, payload: Bytes)
    requires Inv(s) && s.open
    ensures Inv(OnData(s, payload))
  {
    var s' := OnData(s, payload);
    OpenSaysProgress(s);
    assert s'.received == Total(s'.chunks) by {
      assert s'.chunks[..|s.chunks|] == s.chunks;
    }
    hide Total, Concat;
    if s.meta.Some? {
      SayKeepsInv(s, s', Progress(s'.received, s.meta.value.size));
      hide Inv;
    }
  }

  lemma ControlKeepsInv(j: Codec, s: State, payload: Bytes)
    requires Inv(s) && s.open
    ensures Inv(OnControl(j, s, payload))
  {
    TotalIsLength(s.chunks);
    hide Total, Concat;
    var s' := OnControl(j, s, payload);
    match j.decode(payload) {
      case None => FailKeepsInv(s, "malformed control frame");
      case Some(Metadata(name, size, kind)) =>
        SayKeepsInv(s, s', Progress(0, size));
        hide Inv;
      case Some(Eof) =>
        if s.meta.None? {
          FailKeepsInv(s, "eof received before metadata");
        } else if s.meta.value.size != Some(s.received) {
          FailKeepsInv(s, "integrity mismatch");
        } else {
          SayKeepsInv(s, s', Complete(s.meta.value, Concat(s.chunks)));
          hide Inv;
        }
      case Some(Other(_)) =>
    }
  }

  lemma FrameKeepsInv(c: Cipher, j: Codec, key: Key, s: State, frame: Bytes)
    requires Inv(s)
    ensures Inv(OnFrame(c, j, key, s, frame))
  {
    if s.open {
      FailKeepsInv(s, "relay decryption failed");
      FailKeepsInv(s, "unknown frame type");
      var plain := OpenFrame(c, key, frame);
      if plain.Some? && plain.value != [] {
        ControlKeepsInv(j, s, plain.value[1..]);
        DataKeepsInv(s, plain.value[1..]);
      }
      hide Inv, OnControl, OnData, OpenFrame;
    }
  }

  /** For any frames at all, whoever made them. */
  lemma {:induction false} AlwaysInv(c: Cipher, j: Codec, key: Key, frames: seq<Bytes>)
    ensures Inv(Run(c, j, key, frames))
  {
    if frames != [] {
      var init := frames[..|frames| - 1];
      AlwaysInv(c, j, key, init);
      FrameKeepsInv(c, j, key, Run(c, j, key, init), frames[|frames| - 1]);
    }
  }

  // --------------------------------------------------------- the sender's stream

  lemma {:induction false} PlainsAre(j: Codec, f: File, n: nat)
    requires n < |Plains(j, f)|
    ensures var cs := Chunks(f.content, 0);
            && |Plains(j, f)| == |cs| + 2 && |Script(f)| == |cs| + 2 && |Offsets(f.content, 0)| == |cs|
            && Plains(j, f)[n] == (
              if n == 0 then [FRAME_CONTROL] + j.encode(Announcement(f))
              else if n <= |cs| then [FRAME_DATA] + cs[n - 1]
              else [FRAME_CONTROL] + j.encode(Eof))
  {
    DataPlainsShape(f.content, 0);
    ScriptLength(f);
  }

  /** The receiver after the stream's first `n` frames. */
  function Midway(f: File, n: nat): State {
    var cs := Chunks(f.content, 0);
    var k := if n == 0 then 0 else if n - 1 <= |cs| then n - 1 else |cs|;
    State(if n == 0 then None else Some(MetaOf(f)), cs[..k], Total(cs[..k]), n <= |cs| + 1,
          if n <= |Script(f)| then Script(f)[..n] else Script(f))
  }

  lemma MetadataRead(j: Codec, f: File)
    requires j.Lawful()
    ensures OnPlain(j, Midway(f, 0), Some([FRAME_CONTROL] + j.encode(Announcement(f)))) == Midway(f, 1)
  {
    var plain := [FRAME_CONTROL] + j.encode(Announcement(f));
    assert plain[1..] == j.encode(Announcement(f));
    assert j.decode(plain[1..]) == Some(Announcement(f));
    hide Codec.Lawful, Chunks, Offsets, Total;
    assert Script(f)[..1] == [Script(f)[0]];
  }

  lemma ChunkRead(j: Codec, f: File, n: nat)
    requires 0 < n <= |Chunks(f.content, 0)| == |Offsets(f.content, 0)|
    ensures OnPlain(j, Midway(f, n), Some([FRAME_DATA] + Chunks(f.content, 0)[n - 1])) == Midway(f, n + 1)
  {
    assert |Script(f)| == |Chunks(f.content, 0)| + 2;
    hide Script, Chunks, Offsets, Total;
    ChunkStep(f, n);
    var chunk := Chunks(f.content, 0)[n - 1];
    assert ([FRAME_DATA] + chunk)[1..] == chunk;
  }

  lemma EofOf(j: Codec, s: State)
    requires j.Lawful()
    ensures OnPlain(j, s, Some([FRAME_CONTROL] + j.encode(Eof)))
            == if s.meta.None? then s.Fail("eof received before metadata")
               else if s.meta.value.size != Some(s.received) then s.Fail("integrity mismatch")
               else s.Say(Complete(s.meta.value, Concat(s.chunks))).(open := false)
  {
    assert j.decode(j.encode(Eof)) == Some(Eof);
    hide Codec.Lawful, Concat;
    assert ([FRAME_CONTROL] + j.encode(Eof))[1..] == j.encode(Eof);
  }

  lemma EofRead(j: Codec, f: File)
    requires j.Lawful() && |Chunks(f.content, 0)| == |Offsets(f.content, 0)|
    ensures var n := |Chunks(f.content, 0)| + 1;
            OnPlain(j, Midway(f, n), Some([FRAME_CONTROL] + j.encode(Eof))) == Midway(f, n + 1)
  {
    hide Codec.Lawful, Chunks, Offsets, Total, Concat, Script, OnPlain;
    ScriptEnds(f);
    WholeFile(f);
    EofOf(j, Midway(f, |Chunks(f.content, 0)| + 1));
  }

  lemma MidwayOn(j: Codec, f: File, n: nat)
    requires j.Lawful() && n < |Plains(j, f)|
    ensures Midway(f, n).open
    ensures OnPlain(j, Midway(f, n), Some(Plains(j, f)[n])) == Midway(f, n + 1)
  {
    PlainsAre(j, f, n);
    if n == 0 {
      hide OnPlain, Chunks, Plains;
      MetadataRead(j, f);
    } else if n <= |Chunks(f.content, 0)| {
      hide OnPlain, Chunks, Plains;
      ChunkRead(j, f, n);
    } else {
      hide OnPlain, Chunks, Plains;
      EofRead(j, f);
    }
  }

  lemma StreamOn(c: Cipher, j: Codec, key: Key, ivs: nat -> Iv, f: File, n: nat)
    requires c.Lawful() && j.Lawful() && n < |Stream(c, j, key, ivs, f)|
    requires Run(c, j, key, Stream(c, j, key, ivs, f)[..n]) == Midway(f, n)
    ensures Run(c, j, key, Stream(c, j, key, ivs, f)[..n + 1]) == Midway(f, n + 1)
  {
    RunSplits(c, j, key, Stream(c, j, key, ivs, f), n);
    FrameOpens(c, key, ivs(n), Plains(j, f)[n]);
    hide Run, Midway, Plains, OnPlain, Frame, OpenFrame, Cipher.Lawful, Codec.Lawful;
    MidwayOn(j, f, n);
  }

  lemma {:induction false} StreamRun(c: Cipher, j: Codec, key: Key, ivs: nat -> Iv, f: File, n: nat)
    requires c.Lawful() && j.Lawful() && n <= |Stream(c, j, key, ivs, f)|
    ensures Run(c, j, key, Stream(c, j, key, ivs, f)[..n]) == Midway(f, n)
  {
    if n > 0 {
      hide Run, Midway, Stream, Cipher.Lawful, Codec.Lawful;
      StreamRun(c, j, key, ivs, f, n - 1);
      StreamOn(c, j, key, ivs, f, n - 1);
    } else {
      hide Stream, Cipher.Lawful, Codec.Lawful;
    }
  }

  /** The guest sees exactly one event of the script for each frame, so it
      completes, with the sender's name, type and bytes, on the last frame and
      never before, and it never reports an error. */
  lemma PrefixReceived(c: Cipher, j: Codec, key: Key, ivs: nat -> Iv, f: File, n: nat)
    requires c.Lawful() && j.Lawful() && n <= |Stream(c, j, key, ivs, f)|
    ensures var s := Run(c, j, key, Stream(c, j, key, ivs, f)[..n]);
            && |Script(f)| == |Stream(c, j, key, ivs, f)|
            && s.events == Script(f)[..n]
            && (forall e :: e in s.events ==> !e.Error?)
            && (forall e :: e in s.events && e.Complete? ==> e == Complete(MetaOf(f), f.content))
            && (Completed(s) <==> n == |Stream(c, j, key, ivs, f)|)
  {
    var s := Run(c, j, key, Stream(c, j, key, ivs, f)[..n]);
    StreamRun(c, j, key, ivs, f, n);
    PlainsAre(j, f, 0);
    assert forall i :: 0 <= i < n ==> s.events[i] == Script(f)[i];
    assert forall i :: 0 <= i < |Script(f)| - 1 ==> Script(f)[i].Progress?;
    if n == |Stream(c, j, key, ivs, f)| {
      assert Complete(MetaOf(f), f.content) == s.events[n - 1];
    }
  }

  // ----------------------------------------------------------------- lost frames

  function Kept(frames: seq<Bytes>, keep: seq<bool>): seq<Bytes>
    requires |frames| == |keep|
  {
    if frames == [] then []
    else
      var n := |frames| - 1;
      Kept(frames[..n], keep[..n]) + if keep[n] then [frames[n]] else []
  }

  predicate AllKept(keep: seq<bool>) {
    forall i :: 0 <= i < |keep| ==> keep[i]
  }

  /** Dropping a chunk loses bytes, since no chunk is empty. */
  lemma {:induction false} LossShowsInTheTotal(chunks: seq<Bytes>, keep: seq<bool>)
    requires |chunks| == |keep| && forall c :: c in chunks ==> |c| > 0
    ensures Total(Kept(chunks, keep)) <= Total(chunks)
    ensures Total(Kept(chunks, keep)) == Total(chunks) <==> AllKept(keep)
  {
    if chunks != [] {
      var n := |chunks| - 1;
      var init := Kept(chunks[..n], keep[..n]);
      LossShowsInTheTotal(chunks[..n], keep[..n]);
      assert chunks[n] in chunks;
      assert AllKept(keep) <==> AllKept(keep[..n]) && keep[n];
      if keep[n] {
        assert (init + [chunks[n]])[..|init|] == init;
      } else {
        assert init + [] == init;
      }
    }
  }

  /** The receiver while frames go missing, before the end mark. */
  ghost predicate Lossy(f: File, keep: seq<bool>, n: nat, s: State)
    requires n <= |keep|
  {
    var cs := Chunks(f.content, 0);
    && n <= |cs| + 1 && s.open
    && s.meta == (if n > 0 && keep[0] then Some(MetaOf(f)) else None)
    && s.chunks == (if n == 0 then [] else Kept(cs[..n - 1], keep[1..n]))
    && s.received == Total(s.chunks)
    && forall e :: e in s.events ==> !e.Complete?
  }

  lemma LossyMetadata(j: Codec, f: File, keep: seq<bool>, s: State)
    requires j.Lawful() && |keep| > 0 && Lossy(f, keep, 0, s)
    ensures Lossy(f, keep, 1, if keep[0] then OnPlain(j, s, Some([FRAME_CONTROL] + j.encode(Announcement(f)))) else s)
  {
    assert ([FRAME_CONTROL] + j.encode(Announcement(f)))[1..] == j.encode(Announcement(f));
    assert j.decode(j.encode(Announcement(f))) == Some(Announcement(f));
    hide Codec.Lawful, Chunks;
    assert Chunks(f.content, 0)[..0] == [] && keep[1..1] == [];
  }

  lemma KeptMore(cs: seq<Bytes>, keep: seq<bool>, n: nat)
    requires 0 < n < |keep| && n <= |cs|
    ensures Kept(cs[..n], keep[1..n + 1]) == Kept(cs[..n - 1], keep[1..n]) + if keep[n] then [cs[n - 1]] else []
  {
    assert cs[..n][..n - 1] == cs[..n - 1] && keep[1..n + 1][..n - 1] == keep[1..n];
  }

  lemma LossyChunk(j: Codec, f: File, keep: seq<bool>, n: nat, s: State)
    requires 0 < n < |keep| && n <= |Chunks(f.content, 0)| && Lossy(f, keep, n, s)
    ensures Lossy(f, keep, n + 1, if keep[n] then OnPlain(j, s, Some([FRAME_DATA] + Chunks(f.content, 0)[n - 1])) else s)
  {
    hide Chunks, Kept;
    var cs := Chunks(f.content, 0);
    KeptMore(cs, keep, n);
    if keep[n] {
      var plain := [FRAME_DATA] + cs[n - 1];
      var s' := OnPlain(j, s, Some(plain));
      assert plain[1..] == cs[n - 1];
      assert s'.chunks == s.chunks + [cs[n - 1]];
      assert s'.chunks[..|s.chunks|] == s.chunks;
      assert s'.received == Total(s'.chunks);
      hide Total;
      assert forall e :: e in s'.events && e !in s.events ==> e.Progress?;
    } else {
      hide OnPlain, Total;
      assert s.chunks + [] == s.chunks;
    }
  }

  lemma LossyOn(j: Codec, f: File, keep: seq<bool>, n: nat, s: State)
    requires j.Lawful() && n < |keep| == |Plains(j, f)| && n <= |Chunks(f.content, 0)|
    requires Lossy(f, keep, n, s)
    ensures Lossy(f, keep, n + 1, if keep[n] then OnPlain(j, s, Some(Plains(j, f)[n])) else s)
  {
    hide Lossy, OnPlain, Plains, Chunks, Codec.Lawful;
    PlainsAre(j, f, n);
    if n == 0 {
      LossyMetadata(j, f, keep, s);
    } else {
      LossyChunk(j, f, keep, n, s);
    }
  }

  lemma LossyStart(c: Cipher, j: Codec, key: Key, f: File, keep: seq<bool>)
    ensures Lossy(f, keep, 0, Run(c, j, key, Kept([], keep[..0])))
  {
    hide Chunks, OnFrame;
  }

  lemma {:induction false} LossyRun(c: Cipher, j: Codec, key: Key, ivs: nat -> Iv, f: File, keep: seq<bool>, n: nat)
    requires c.Lawful() && j.Lawful() && n < |keep| == |Stream(c, j, key, ivs, f)|
    ensures Lossy(f, keep, n, Run(c, j, key, Kept(Stream(c, j, key, ivs, f)[..n], keep[..n])))
  {
    hide Stream, Run, Kept, Lossy, Cipher.Lawful, Codec.Lawful;
    if n > 0 {
      LossyRun(c, j, key, ivs, f, keep, n - 1);
      LossyMore(c, j, key, ivs, f, keep, n - 1);
    } else {
      assert Stream(c, j, key, ivs, f)[..0] == [];
      LossyStart(c, j, key, f, keep);
    }
  }

  lemma LossyMore(c: Cipher, j: Codec, key: Key, ivs: nat -> Iv, f: File, keep: seq<bool>, n: nat)
    requires c.Lawful() && j.Lawful() && n + 1 < |keep| == |Stream(c, j, key, ivs, f)|
    requires Lossy(f, keep, n, Run(c, j, key, Kept(Stream(c, j, key, ivs, f)[..n], keep[..n])))
    ensures Lossy(f, keep, n + 1, Run(c, j, key, Kept(Stream(c, j, key, ivs, f)[..n + 1], keep[..n + 1])))
  {
    var before := Run(c, j, key, Kept(Stream(c, j, key, ivs, f)[..n], keep[..n]));
    assert before.open;
    PlainsAre(j, f, 0);
    KeptRun(c, j, key, ivs, f, keep, n);
    hide Stream, Run, Kept, Lossy, OnPlain, Plains, Chunks, Script, Offsets, Cipher.Lawful, Codec.Lawful;
    LossyOn(j, f, keep, n, before);
  }

  /** One more frame, kept or lost, as the receiver sees it. */
  lemma KeptRun(c: Cipher, j: Codec, key: Key, ivs: nat -> Iv, f: File, keep: seq<bool>, n: nat)
    requires c.Lawful() && n < |keep| == |Stream(c, j, key, ivs, f)|
    ensures var stream := Stream(c, j, key, ivs, f);
            var before := Run(c, j, key, Kept(stream[..n], keep[..n]));
            && |stream| == |Plains(j, f)|
            && (before.open ==>
                  Run(c, j, key, Kept(stream[..n + 1], keep[..n + 1]))
                  == if keep[n] then OnPlain(j, before, Some(Plains(j, f)[n])) else before)
  {
    var stream := Stream(c, j, key, ivs, f);
    FrameOpens(c, key, ivs(n), Plains(j, f)[n]);
    assert OpenFrame(c, key, stream[n]) == Some(Plains(j, f)[n]);
    hide Stream, Plains, OpenFrame, OnPlain, Cipher.Lawful, Kept, Run;
    KeptOneMore(stream, keep, n);
    RunOneMore(c, j, key, Kept(stream[..n], keep[..n]), stream[n]);
  }

  lemma KeptOneMore(frames: seq<Bytes>, keep: seq<bool>, n: nat)
    requires n < |frames| == |keep|
    ensures Kept(frames[..n + 1], keep[..n + 1]) == if keep[n] then Kept(frames[..n], keep[..n]) + [frames[n]] else Kept(frames[..n], keep[..n])
  {
    assert frames[..n + 1][..n] == frames[..n] && keep[..n + 1][..n] == keep[..n];
  }

  lemma RunOneMore(c: Cipher, j: Codec, key: Key, frames: seq<Bytes>, frame: Bytes)
    ensures Run(c, j, key, frames + [frame]) == OnFrame(c, j, key, Run(c, j, key, frames), frame)
  {
    assert (frames + [frame])[..|frames|] == frames;
  }

  predicate Completed(s: State) {
    exists e :: e in s.events && e.Complete?
  }

  lemma AllKeptParts(keep: seq<bool>)
    requires |keep| >= 2
    ensures var n := |keep| - 1; AllKept(keep) <==> keep[0] && AllKept(keep[1..n]) && keep[n]
  {
    var n := |keep| - 1;
    assert forall i :: 1 <= i < n ==> keep[i] == keep[1..n][i - 1];
  }

  lemma LossyTotal(f: File, keep: seq<bool>)
    requires |keep| == |Chunks(f.content, 0)|
    ensures Total(Kept(Chunks(f.content, 0), keep)) == |f.content| <==> AllKept(keep)
  {
    ChunkCount(f.content, 0);
    ChunksRebuild(f.content, 0);
    TotalIsLength(Chunks(f.content, 0));
    hide Kept, Chunks, Total, AllKept;
    LossShowsInTheTotal(Chunks(f.content, 0), keep);
  }

  lemma EofVerdict(j: Codec, s: State)
    requires j.Lawful() && s.open && forall e :: e in s.events ==> !e.Complete?
    ensures Completed(OnPlain(j, s, Some(EndPlain(j)))) <==> s.meta.Some? && s.meta.value.size == Some(s.received)
  {
    assert EndPlain(j)[1..] == j.encode(Eof) && j.decode(j.encode(Eof)) == Some(Eof);
    hide Codec.Lawful, Concat;
    var s' := OnPlain(j, s, Some(EndPlain(j)));
    hide EndPlain;
    var e := s'.events[|s.events|];
    assert s'.events == s.events + [e];
    assert e in s'.events;
  }

  lemma LossyVerdict(j: Codec, f: File, keep: seq<bool>, s: State)
    requires j.Lawful() && |keep| == |Chunks(f.content, 0)| + 2 && Lossy(f, keep, |keep| - 1, s)
    ensures Completed(if keep[|keep| - 1] then OnPlain(j, s, Some(EndPlain(j))) else s) <==> AllKept(keep)
  {
    var n, cs := |keep| - 1, Chunks(f.content, 0);
    assert cs[..n - 1] == cs;
    EofVerdict(j, s);
    hide Kept, Chunks, Total, Codec.Lawful, AllKept, OnPlain, EndPlain;
    AllKeptParts(keep);
    LossyTotal(f, keep[1..n]);
  }

  /** Lose any frames at all: the guest completes if and only if none was lost. */
  lemma LossIsDetected(c: Cipher, j: Codec, key: Key, ivs: nat -> Iv, f: File, keep: seq<bool>)
    requires c.Lawful() && j.Lawful() && |keep| == |Stream(c, j, key, ivs, f)|
    ensures Completed(Run(c, j, key, Kept(Stream(c, j, key, ivs, f), keep))) <==> AllKept(keep)
  {
    var stream, n := Stream(c, j, key, ivs, f), |keep| - 1;
    PlainsAre(j, f, 0);
    PlainsAre(j, f, n);
    assert stream[..n + 1] == stream && keep[..n + 1] == keep;
    hide Stream, Plains, Run, OnPlain, Kept, Chunks, Codec.Lawful, Cipher.Lawful, AllKept, Completed;
    LossyRun(c, j, key, ivs, f, keep, n);
    KeptRun(c, j, key, ivs, f, keep, n);
    LossyVerdict(j, f, keep, Run(c, j, key, Kept(stream[..n], keep[..n])));
  }
}
