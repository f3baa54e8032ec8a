/** The encrypted relay stream: framing, the sending loop and the receiver
    (web/src/relay-transfer.ts, web/src/crypto.ts).

    AES-GCM and JSON are parameters: a seal with an inverse and a fixed tag, and
    an encoding with an inverse. */
module RelayTransfer {
  import opened Common
  import opened Transfer

  type Key = nat
  type Iv = s: Bytes | |s| == 12 witness [0, 0, 0, 0, 0, 0, 0, 0, 0, 0, 0, 0]

  /** Authenticated encryption: `open` fails unless the text was sealed. */
  datatype Cipher = Cipher(seal: (Key, Iv, Bytes) -> Bytes, open: (Key, Bytes, Bytes) -> Option<Bytes>) {
    ghost predicate Lawful() {
      forall k: Key, iv: Iv, p: Bytes {:trigger seal(k, iv, p)} ::
        |seal(k, iv, p)| == |p| + TAG && open(k, iv, seal(k, iv, p)) == Some(p)
    }
  }

  /** 128-bit GCM tag. */
  const TAG: nat := 16
  const FRAME_CONTROL: Byte := 1
  const FRAME_DATA: Byte := 2
  /** Type byte, 12-byte IV and tag. */
  const OVERHEAD: nat := 29

  // ------------------------------------------------------------------- frames

  function Frame(c: Cipher, key: Key, iv: Iv, plain: Bytes): Bytes {
    iv + c.seal(key, iv, plain)
  }

  function OpenFrame(c: Cipher, key: Key, frame: Bytes): Option<Bytes> {
    var cut := if |frame| < 12 then |frame| else 12;
    c.open(key, frame[..cut], frame[cut..])
  }

  lemma FrameOpens(c: Cipher, key: Key, iv: Iv, plain: Bytes)
    requires c.Lawful()
    ensures OpenFrame(c, key, Frame(c, key, iv, plain)) == Some(plain)
    ensures |Frame(c, key, iv, plain)| == |plain| + 12 + TAG
  {
    var f := Frame(c, key, iv, plain);
    assert f[..12] == iv && f[12..] == c.seal(key, iv, plain);
  }

  /** Copies `source` into `target` from `at`. */
  method SetBytes(target: array<Byte>, source: Bytes, at: nat)
    requires at + |source| <= target.Length
    modifies target
    ensures target[..] == old(target[..at]) + source + old(target[at + |source|..])
  {
    for i := 0 to |source|
      invariant target[..at] == old(target[..at]) && target[at + |source|..] == old(target[at + |source|..])
      invariant forall j :: 0 <= j < i ==> target[at + j] == source[j]
    {
      target[at + i] := source[i];
    }
    assert target[at..at + |source|] == source;
    assert target[..] == target[..at] + target[at..at + |source|] + target[at + |source|..];
  }

  method EncryptFrame(c: Cipher, key: Key, iv: Iv, plain: Bytes) returns (out: array<Byte>)
    ensures fresh(out) && out[..] == Frame(c, key, iv, plain)
  {
    var ciphertext := c.seal(key, iv, plain);
    out := new Byte[12 + |ciphertext|](_ => 0);
    SetBytes(out, iv, 0);
    SetBytes(out, ciphertext, 12);
    assert out[..] == iv + ciphertext;
  }

  /** Tags a payload and seals it (`encryptControl`, `encryptData`). */
  method EncryptTagged(c: Cipher, key: Key, iv: Iv, tag: Byte, payload: Bytes) returns (out: Bytes)
    ensures out == Frame(c, key, iv, [tag] + payload)
  {
    var plain := new Byte[1 + |payload|](_ => 0);
    plain[0] := tag;
    SetBytes(plain, payload, 1);
    assert plain[..] == [tag] + payload;
    var sealed := EncryptFrame(c, key, iv, plain[..]);
    out := sealed[..];
  }

  // ------------------------------------------------------------------- sending

  /** What the sender has to say, before sealing: the announcement, the chunks
      from `offset`, the end mark. */
  function DataPlains(content: Bytes, offset: nat): seq<Bytes>
    requires offset <= |content|
    decreases |content| - offset
  {
    if offset == |content| then []
    else
      var chunk := ChunkAt(content, offset);
      [[FRAME_DATA] + chunk] + DataPlains(content, offset + |chunk|)
  }

  function Plains(j: Codec, f: File): seq<Bytes> {
    [[FRAME_CONTROL] + j.encode(Announcement(f))] + DataPlains(f.content, 0) + [[FRAME_CONTROL] + j.encode(Eof)]
  }

  /** The frames on the wire; `ivs(i)` is the random IV of frame `i`. */
  function Wire(c: Cipher, key: Key, ivs: nat -> Iv, plains: seq<Bytes>): seq<Bytes> {
    seq(|plains|, i requires 0 <= i < |plains| => Frame(c, key, ivs(i), plains[i]))
  }

  function Stream(c: Cipher, j: Codec, key: Key, ivs: nat -> Iv, f: File): seq<Bytes> {
    Wire(c, key, ivs, Plains(j, f))
  }

  lemma {:induction false} DataPlainsShape(content: Bytes, offset: nat)
    requires offset <= |content|
    ensures var ps, cs := DataPlains(content, offset), Chunks(content, offset);
            |ps| == |cs| && forall i :: 0 <= i < |cs| ==> ps[i] == [FRAME_DATA] + cs[i]
    decreases |content| - offset
  {
    if offset < |content| {
      DataPlainsShape(content, offset + |ChunkAt(content, offset)|);
    }
  }

  lemma {:induction false} WireTotal(c: Cipher, key: Key, ivs: nat -> Iv, plains: seq<Bytes>)
    requires c.Lawful()
    ensures Total(Wire(c, key, ivs, plains)) == Total(plains) + (12 + TAG) * |plains|
  {
    if plains != [] {
      var init, last := plains[..|plains| - 1], plains[|plains| - 1];
      WireTotal(c, key, ivs, init);
      var w := Wire(c, key, ivs, plains);
      assert w[..|w| - 1] == Wire(c, key, ivs, init);
      FrameOpens(c, key, ivs(|plains| - 1), last);
    }
  }

  lemma {:induction false} DataTotal(content: Bytes, offset: nat)
    requires offset <= |content|
    ensures Total(DataPlains(content, offset)) == |content| - offset + |DataPlains(content, offset)|
    decreases |content| - offset
  {
    if offset < |content| {
      var chunk := ChunkAt(content, offset);
      DataTotal(content, offset + |chunk|);
      TotalSplits([[FRAME_DATA] + chunk], DataPlains(content, offset + |chunk|));
      assert Total([[FRAME_DATA] + chunk]) == 1 + |chunk| by {
        assert [[FRAME_DATA] + chunk][..0] == [];
      }
    }
  }

  /** ceil(size / 16384) + 2 frames, of size + 29 a frame + the announcement and
      the 14-character end mark. */
  lemma WireLength(c: Cipher, j: Codec, key: Key, ivs: nat -> Iv, f: File)
    requires c.Lawful() && j.Lawful()
    ensures var n := Pieces(|f.content|) + 2;
            && |Stream(c, j, key, ivs, f)| == n
            && Total(Stream(c, j, key, ivs, f)) == |f.content| + 29 * n + |j.encode(Announcement(f))| + 14
  {
    var meta, end := [FRAME_CONTROL] + j.encode(Announcement(f)), [FRAME_CONTROL] + j.encode(Eof);
    var data := DataPlains(f.content, 0);
    DataPlainsShape(f.content, 0);
    ChunkCount(f.content, 0);
    DataTotal(f.content, 0);
    TotalSplits([meta] + data, [end]);
    TotalSplits([meta], data);
    assert Total([meta]) == |meta| && Total([end]) == |end| by {
      assert [meta][..0] == [] && [end][..0] == [];
    }
    WireTotal(c, key, ivs, Plains(j, f));
  }

  // ---------------------------------------------------------- the sending loop

  /** What the network does while the sender awaits. */
  datatype Weather = Drain(bytes: nat) | Close

  /** A WebSocket as the sender sees it.  `weather` is what will happen at the
      next awaits; once it runs out the buffer drains at every await. */
  class RelaySocket {
    var open: bool
    var buffered: nat
    var sent: seq<Bytes>
    var weather: seq<Weather>
    /** The highest `buffered` ever was. */
    ghost var peak: nat

    constructor (weather: seq<Weather>)
      ensures open && buffered == 0 && sent == [] && peak == 0 && this.weather == weather
    {
      open, buffered, sent, peak := true, 0, [], 0;
      this.weather := weather;
    }

    /** Sending on a closed socket only grows the buffer. */
    method Send(frame: Bytes)
      modifies this
      ensures open == old(open) && weather == old(weather) && buffered == old(buffered) + |frame|
      ensures sent == if open then old(sent) + [frame] else old(sent)
      ensures peak == if old(peak) < buffered then buffered else old(peak)
    {
      if open {
        sent := sent + [frame];
      }
      buffered := buffered + |frame|;
      peak := if peak < buffered then buffered else peak;
    }

    /** The sender awaits: the network takes its turn. */
    method Await()
      modifies this`open, this`buffered, this`weather
      ensures buffered <= old(buffered) && (open ==> old(open))
      ensures old(weather) == [] ==> buffered == 0 && weather == [] && open == old(open)
      ensures old(weather) != [] ==> weather == old(weather)[1..]
    {
      if weather == [] {
        buffered := 0;
      } else {
        match weather[0] {
          case Drain(n) => buffered := if n < buffered then buffered - n else 0;
          case Close => open := false;
        }
        weather := weather[1..];
      }
    }
  }

  datatype Outcome = Sent | Failed(reason: string)

  const CLOSED: Outcome := Failed("Relay connection closed during transfer")

  /** The buffer's bound: the high-water mark and one frame past it; then the
      end mark, which is sent without waiting for room. */
  const CREST: nat := 1048576 + (16384 + 29)
  const PEAK: nat := CREST + (14 + 29)

  /** The backpressure loop; false when the socket closes meanwhile. */
  method WaitForRoom(ws: RelaySocket) returns (ok: bool)
    requires ws.open
    modifies ws`open, ws`buffered, ws`weather
    ensures ok == ws.open && (ok ==> ws.buffered <= 1048576) && ws.buffered <= old(ws.buffered)
    ensures old(ws.buffered) <= 1048576 ==> ok && ws.buffered == old(ws.buffered) && ws.weather == old(ws.weather)
  {
    while ws.buffered > HIGH_WATER
      invariant ws.open && ws.buffered <= old(ws.buffered)
      invariant old(ws.buffered) <= 1048576 ==> ws.buffered == old(ws.buffered) && ws.weather == old(ws.weather)
      decreases |ws.weather|, ws.buffered
    {
      ws.Await();
      if !ws.open {
        return false;
      }
    }
    return true;
  }

  /** `sent` is what was there before and the first `n` frames of the stream. */
  ghost predicate Follows(sent: seq<Bytes>, before: seq<Bytes>, stream: seq<Bytes>, n: nat) {
    n <= |stream| && sent == before + stream[..n]
  }

  lemma FollowsOn(sent: seq<Bytes>, before: seq<Bytes>, stream: seq<Bytes>, n: nat)
    requires Follows(sent, before, stream, n) && n < |stream|
    ensures Follows(sent + [stream[n]], before, stream, n + 1)
  {
    assert stream[..n + 1] == stream[..n] + [stream[n]];
  }

  /** Awaits the encryption of one frame and sends it: frame `k` of the stream
      follows the `n` before it, unless the socket closed. */
  method SendSealed(ws: RelaySocket, c: Cipher, key: Key, ivs: nat -> Iv, tag: Byte, payload: Bytes,
                    ghost ps: seq<Bytes>, ghost before: seq<Bytes>, k: nat, ghost n: nat) returns (ghost n': nat)
    requires c.Lawful() && k < |ps| && ps[k] == [tag] + payload
    requires n <= k && (ws.open ==> n == k) && Follows(ws.sent, before, Wire(c, key, ivs, ps), n)
    modifies ws
    ensures n' <= k + 1 && (ws.open ==> n' == k + 1) && Follows(ws.sent, before, Wire(c, key, ivs, ps), n')
    ensures ws.buffered <= old(ws.buffered) + |payload| + OVERHEAD
    ensures ws.peak <= if old(ws.peak) < ws.buffered then ws.buffered else old(ws.peak)
  {
    var sealed := EncryptTagged(c, key, ivs(k), tag, payload);
    FrameOpens(c, key, ivs(k), [tag] + payload);
    ws.Await();
    n' := if ws.open then k + 1 else n;
    assert Wire(c, key, ivs, ps)[k] == sealed;
    hide Wire, Follows, Frame, Cipher.Lawful;
    if ws.open {
      FollowsOn(ws.sent, before, Wire(c, key, ivs, ps), n);
    }
    ws.Send(sealed);
  }

  lemma NextOffset(content: Bytes, offset: nat, progress: seq<nat>)
    requires offset < |content|
    ensures var next := offset + |ChunkAt(content, offset)|;
            progress + Offsets(content, offset) == progress + [next] + Offsets(content, next)
    ensures progress < progress + Offsets(content, offset) + [|content|]
  {}

  function EndPlain(j: Codec): Bytes {
    [FRAME_CONTROL] + j.encode(Eof)
  }

  /** The plain messages from `k` on, when `offset` bytes have been said. */
  ghost predicate Remaining(ps: seq<Bytes>, j: Codec, content: Bytes, offset: nat, k: nat) {
    offset <= |content| && k <= |ps| && ps[k..] == DataPlains(content, offset) + [EndPlain(j)]
  }

  lemma NextChunk(ps: seq<Bytes>, j: Codec, content: Bytes, offset: nat, k: nat)
    requires Remaining(ps, j, content, offset, k) && offset < |content|
    ensures var chunk := ChunkAt(content, offset);
            k < |ps| && ps[k] == [FRAME_DATA] + chunk && Remaining(ps, j, content, offset + |chunk|, k + 1)
  {
    assert ps[k] == ps[k..][0];
    assert ps[k + 1..] == ps[k..][1..];
  }

  lemma OnlyTheEnd(ps: seq<Bytes>, j: Codec, content: Bytes, offset: nat, k: nat)
    requires Remaining(ps, j, content, offset, k) && offset == |content|
    ensures k == |ps| - 1 && ps[k] == EndPlain(j)
  {
    assert ps[k] == ps[k..][0];
  }

  /** The chunk loop: `ok` unless it found the socket closed. */
  method SendChunks(ws: RelaySocket, c: Cipher, ghost j: Codec, key: Key, ivs: nat -> Iv, content: Bytes,
                    ghost ps: seq<Bytes>, ghost before: seq<Bytes>, ghost m: nat)
    returns (ok: bool, progress: seq<nat>, k: nat, ghost n: nat)
    requires c.Lawful() && Remaining(ps, j, content, 0, 1)
    requires m <= 1 && (ws.open ==> m == 1) && Follows(ws.sent, before, Wire(c, key, ivs, ps), m)
    modifies ws
    ensures n <= k && (ws.open && ok ==> n == k) && Follows(ws.sent, before, Wire(c, key, ivs, ps), n)
    ensures ok ==> Remaining(ps, j, content, |content|, k) && progress == Offsets(content, 0)
    ensures !ok ==> !ws.open && progress < Offsets(content, 0) + [|content|]
    ensures old(ws.peak) <= CREST && old(ws.buffered) <= CREST ==> ws.peak <= CREST && ws.buffered <= CREST
  {
    var offset := 0;
    ok, k, n, progress := true, 1, m, [];
    assert Offsets(content, |content|) == [];
    hide Remaining, Follows, Wire, Offsets, Cipher.Lawful;
    while offset < |content|
      invariant offset <= |content| && Remaining(ps, j, content, offset, k)
      invariant n <= k && (ws.open ==> n == k) && Follows(ws.sent, before, Wire(c, key, ivs, ps), n)
      invariant progress + Offsets(content, offset) == Offsets(content, 0)
      invariant old(ws.peak) <= CREST && old(ws.buffered) <= CREST ==> ws.peak <= CREST && ws.buffered <= CREST
      decreases |content| - offset
    {
      NextChunk(ps, j, content, offset, k);
      NextOffset(content, offset, progress);
      if !ws.open {
        return false, progress, k, n;
      }
      var room := WaitForRoom(ws);
      if !room {
        return false, progress, k, n;
      }
      var buffer := ChunkAt(content, offset);
      ws.Await();
      n := SendSealed(ws, c, key, ivs, FRAME_DATA, buffer, ps, before, k, n);
      k := k + 1;
      offset := offset + |buffer|;
      progress := progress + [offset];
    }
  }

  /** `sendFileOverRelay`.  Whatever the network does, what left the socket is the
      stream's first `n` frames, all of them if the socket is still open at the
      end; reported progress is the chunk offsets and then the size. */
  method SendFileOverRelay(ws: RelaySocket, c: Cipher, j: Codec, key: Key, ivs: nat -> Iv, f: File)
    returns (outcome: Outcome, progress: seq<nat>, ghost n: nat)
    requires c.Lawful() && j.Lawful()
    modifies ws
    ensures n <= |Stream(c, j, key, ivs, f)|
    ensures ws.sent == old(ws.sent) + Stream(c, j, key, ivs, f)[..n]
    ensures ws.open ==> outcome == Sent && n == |Stream(c, j, key, ivs, f)|
    ensures outcome == Sent ==> progress == Offsets(f.content, 0) + [|f.content|]
    ensures outcome != Sent ==> progress < Offsets(f.content, 0) + [|f.content|]
    ensures old(ws.buffered) + |j.encode(Announcement(f))| <= HIGH_WATER && old(ws.peak) <= CREST ==> ws.peak <= PEAK
  {
    ghost var ps, before := Plains(j, f), ws.sent;
    assert ps[0] == [FRAME_CONTROL] + j.encode(Announcement(f));
    assert Remaining(ps, j, f.content, 0, 1) && |j.encode(Eof)| == EOF_TEXT;
    assert |Stream(c, j, key, ivs, f)| == |ps|;
    assert Stream(c, j, key, ivs, f) == Wire(c, key, ivs, ps);
    hide Stream, Wire, Plains, Remaining, Offsets, Cipher.Lawful, Codec.Lawful;
    n := SendSealed(ws, c, key, ivs, FRAME_CONTROL, j.encode(Announcement(f)), ps, before, 0, 0);
    var ok, k;
    ok, progress, k, n := SendChunks(ws, c, j, key, ivs, f.content, ps, before, n);
    if !ok {
      return CLOSED, progress, n;
    }
    OnlyTheEnd(ps, j, f.content, |f.content|, k);
    n := SendSealed(ws, c, key, ivs, FRAME_CONTROL, j.encode(Eof), ps, before, k, n);
    progress := progress + [|f.content|];
    outcome := Sent;
  }
}
