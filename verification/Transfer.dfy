/** Files, their chunks and the control messages around them, common to the
    direct and the relay path (web/src/transfer.ts, web/src/relay-transfer.ts). */
module Transfer {
  import opened Common

  newtype Byte = b: int | 0 <= b < 256
  type Bytes = seq<Byte>

  /** `kind` is the browser's MIME type, empty when unknown. */
  datatype File = File(name: string, kind: string, content: Bytes)

  /** A parsed control message; any field may be missing. */
  datatype Control =
    | Metadata(name: Option<string>, size: Option<int>, mimeType: Option<string>)
    | Eof
    | Other(kind: string)

  /** JSON text as UTF-8 bytes; decoding fails on malformed text and gives back the
      announcements and the end mark.  The text {"type":"eof"} has 14 characters. */
  datatype Codec = Codec(encode: Control -> Bytes, decode: Bytes -> Option<Control>) {
    ghost predicate Lawful() {
      && (forall m: Control {:trigger encode(m)} :: !m.Other? ==> decode(encode(m)) == Some(m))
      && |encode(Eof)| == EOF_TEXT
    }
  }

  const EOF_TEXT: nat := 14
  const CHUNK: nat := 16384
  const HIGH_WATER: nat := 1048576
  const DEFAULT_TYPE: string := "application/octet-stream"

  function TypeOf(f: File): string {
    if f.kind == "" then DEFAULT_TYPE else f.kind
  }

  function Announcement(f: File): Control {
    Metadata(Some(f.name), Some(|f.content|), Some(TypeOf(f)))
  }

  /** The slice the senders read at `offset`. */
  function ChunkAt(content: Bytes, offset: nat): Bytes
    requires offset <= |content|
  {
    if offset + CHUNK <= |content| then content[offset..offset + CHUNK] else content[offset..]
  }

  /** The chunks from `offset` to the end. */
  function Chunks(content: Bytes, offset: nat): seq<Bytes>
    requires offset <= |content|
    decreases |content| - offset
  {
    if offset == |content| then []
    else [ChunkAt(content, offset)] + Chunks(content, offset + |ChunkAt(content, offset)|)
  }

  function Concat(chunks: seq<Bytes>): Bytes {
    if chunks == [] then [] else Concat(chunks[..|chunks| - 1]) + chunks[|chunks| - 1]
  }

  function Total(frames: seq<Bytes>): nat {
    if frames == [] then 0 else Total(frames[..|frames| - 1]) + |frames[|frames| - 1]|
  }

  /** Chunks needed for `size` bytes. */
  function Pieces(size: nat): nat {
    (size + 16383) / 16384
  }

  lemma {:induction false} ConcatSplits(a: seq<Bytes>, b: seq<Bytes>)
    ensures Concat(a + b) == Concat(a) + Concat(b)
  {
    if b == [] {
      assert a + b == a;
      assert Concat(a) + [] == Concat(a);
    } else {
      var init, last := b[..|b| - 1], b[|b| - 1];
      assert (a + b)[..|a + b| - 1] == a + init;
      ConcatSplits(a, init);
      assert Concat(a + b) == Concat(a + init) + last && Concat(b) == Concat(init) + last;
      hide Concat;
      assert Concat(a) + Concat(init) + last == Concat(a) + (Concat(init) + last);
    }
  }

  lemma {:induction false} TotalSplits(a: seq<Bytes>, b: seq<Bytes>)
    ensures Total(a + b) == Total(a) + Total(b)
  {
    if b == [] {
      assert a + b == a;
    } else {
      assert (a + b)[..|a + b| - 1] == a + b[..|b| - 1];
      TotalSplits(a, b[..|b| - 1]);
    }
  }

  lemma {:induction false} TotalIsLength(chunks: seq<Bytes>)
    ensures Total(chunks) == |Concat(chunks)|
  {
    if chunks != [] { TotalIsLength(chunks[..|chunks| - 1]); }
  }

  lemma ConcatOne(chunk: Bytes)
    ensures Concat([chunk]) == chunk
  {
    assert [chunk][..0] == [] && [] + chunk == chunk;
  }

  lemma ChunkThenRest(content: Bytes, offset: nat)
    requires offset < |content|
    ensures var chunk := ChunkAt(content, offset);
            && offset < offset + |chunk| <= |content|
            && content[offset..] == chunk + content[offset + |chunk|..]
            && Chunks(content, offset) == [chunk] + Chunks(content, offset + |chunk|)
  {}

  /** Chunking loses nothing and reorders nothing. */
  lemma {:induction false} ChunksRebuild(content: Bytes, offset: nat)
    requires offset <= |content|
    ensures Concat(Chunks(content, offset)) == content[offset..]
    decreases |content| - offset
  {
    if offset < |content| {
      hide Concat, Chunks, ChunkAt;
      ChunkThenRest(content, offset);
      var chunk := ChunkAt(content, offset);
      ChunksRebuild(content, offset + |chunk|);
      ConcatSplits([chunk], Chunks(content, offset + |chunk|));
      ConcatOne(chunk);
    }
  }

  lemma OneMorePiece(size: nat)
    requires size > 0
    ensures Pieces(size) == 1 + Pieces(if size <= CHUNK then 0 else size - CHUNK)
  {}

  /** ceil(size / 16384) chunks, every one but the last full, none empty. */
  lemma {:induction false} ChunkCount(content: Bytes, offset: nat)
    requires offset <= |content|
    ensures |Chunks(content, offset)| == Pieces(|content| - offset)
    ensures forall c :: c in Chunks(content, offset) ==> 0 < |c| <= 16384
    decreases |content| - offset
  {
    if offset < |content| {
      OneMorePiece(|content| - offset);
      ChunkCount(content, offset + |ChunkAt(content, offset)|);
    }
  }

  /** Offsets reported after each chunk. */
  function Offsets(content: Bytes, offset: nat): seq<nat>
    requires offset <= |content|
    decreases |content| - offset
  {
    if offset == |content| then []
    else
      var next := offset + |ChunkAt(content, offset)|;
      [next] + Offsets(content, next)
  }

  /** Progress never goes back, stays below the size until the last chunk, and
      ends at the size. */
  ghost predicate Climbs(os: seq<nat>, offset: nat, size: nat) {
    && (forall i :: 0 <= i < |os| ==> offset < os[i] <= size)
    && (forall i, j :: 0 <= i < j < |os| ==> os[i] < os[j])
    && (if os == [] then offset == size else os[|os| - 1] == size)
  }

  lemma ClimbFrom(os: seq<nat>, offset: nat, next: nat, size: nat)
    requires Climbs(os, next, size) && offset < next <= size
    ensures Climbs([next] + os, offset, size)
  {}

  lemma {:induction false} OffsetsClimb(content: Bytes, offset: nat)
    requires offset <= |content|
    ensures |Offsets(content, offset)| == Pieces(|content| - offset)
    ensures Climbs(Offsets(content, offset), offset, |content|)
    decreases |content| - offset
  {
    if offset < |content| {
      OneMorePiece(|content| - offset);
      var next := offset + |ChunkAt(content, offset)|;
      OffsetsClimb(content, next);
      assert Offsets(content, offset) == [next] + Offsets(content, next);
      hide Pieces, Climbs, Offsets;
      ClimbFrom(Offsets(content, next), offset, next, |content|);
    }
  }

  // ------------------------------------------------------- what the receivers say

  /** An announcement as received; any field may be missing. */
  datatype Meta = Meta(name: Option<string>, size: Option<int>, mimeType: Option<string>)

  datatype Event =
    | Progress(received: nat, total: Option<int>)
    | Complete(meta: Meta, blob: Bytes)
    | Error(reason: string)

  /** The file as its receiver should know it. */
  function MetaOf(f: File): Meta {
    Meta(Some(f.name), Some(|f.content|), Some(if f.kind == "" then "application/octet-stream" else f.kind))
  }

  function Steps(offsets: seq<nat>, size: nat): seq<Event> {
    seq(|offsets|, i requires 0 <= i < |offsets| => Progress(offsets[i], Some(size)))
  }

  /** What a receiver should say of file `f`: one event a message. */
  function Script(f: File): seq<Event> {
    [Progress(0, Some(|f.content|))] + Steps(Offsets(f.content, 0), |f.content|) + [Complete(MetaOf(f), f.content)]
  }

  /** The chunks and offsets agree: chunk `i` ends at offset `i`. */
  lemma {:induction false} OffsetsAreTotals(content: Bytes, offset: nat, i: nat)
    requires offset <= |content| && i < |Offsets(content, offset)|
    ensures i < |Chunks(content, offset)| && Offsets(content, offset)[i] == offset + Total(Chunks(content, offset)[..i + 1])
    decreases i
  {
    var chunk := ChunkAt(content, offset);
    var rest := Chunks(content, offset + |chunk|);
    assert Chunks(content, offset) == [chunk] + rest;
    if i == 0 {
      assert Chunks(content, offset)[..1] == [chunk];
      assert [chunk][..0] == [];
    } else {
      OffsetsAreTotals(content, offset + |chunk|, i - 1);
      assert Chunks(content, offset)[..i + 1] == [chunk] + rest[..i];
      TotalSplits([chunk], rest[..i]);
      assert [chunk][..0] == [];
    }
  }

  /** The script has the metadata, one line a chunk and the completion. */
  lemma ScriptLength(f: File)
    ensures |Script(f)| == |Chunks(f.content, 0)| + 2 && |Offsets(f.content, 0)| == |Chunks(f.content, 0)|
  {
    ChunkCount(f.content, 0);
    OffsetsClimb(f.content, 0);
  }

  /** All the chunks together. */
  lemma WholeFile(f: File)
    ensures var cs := Chunks(f.content, 0);
            cs[..|cs|] == cs && Concat(cs) == f.content && Total(cs) == |f.content|
  {
    ChunksRebuild(f.content, 0);
    TotalIsLength(Chunks(f.content, 0));
    hide Chunks, Concat, Total;
  }

  /** The last line of the script. */
  lemma ScriptEnds(f: File)
    requires |Chunks(f.content, 0)| == |Offsets(f.content, 0)|
    ensures var n := |Chunks(f.content, 0)| + 1;
            |Script(f)| == n + 1 && Script(f) == Script(f)[..n] + [Complete(MetaOf(f), f.content)]
  {
    hide Chunks, Offsets;
    assert Script(f)[|Script(f)| - 1] == Complete(MetaOf(f), f.content);
  }

  lemma TotalOneMore(chunks: seq<Bytes>, n: nat)
    requires 0 < n <= |chunks|
    ensures chunks[..n] == chunks[..n - 1] + [chunks[n - 1]]
    ensures Total(chunks[..n]) == Total(chunks[..n - 1]) + |chunks[n - 1]|
  {
    assert chunks[..n][..n - 1] == chunks[..n - 1];
  }

  /** Chunk `n` and its line of the script. */
  lemma ChunkStep(f: File, n: nat)
    requires 0 < n <= |Chunks(f.content, 0)| == |Offsets(f.content, 0)|
    ensures var cs := Chunks(f.content, 0);
            && cs[..n] == cs[..n - 1] + [cs[n - 1]]
            && Total(cs[..n]) == Total(cs[..n - 1]) + |cs[n - 1]|
            && Script(f)[..n + 1] == Script(f)[..n] + [Progress(Total(cs[..n]), Some(|f.content|))]
  {
    hide Chunks, Offsets, Total;
    OffsetsAreTotals(f.content, 0, n - 1);
    TotalOneMore(Chunks(f.content, 0), n);
    assert Script(f)[n] == Progress(Total(Chunks(f.content, 0)[..n]), Some(|f.content|));
  }
}
