/** The relay receiver when frames of one stream arrive in any selection and order:
    lost, repeated or exchanged (web/src/relay-transfer.ts:123-185).  Frames carry no
    numbers, and the receiver checks a byte count. */
module RelayPicks {
  import opened Common
  import opened Transfer
  import opened RelayTransfer
  import opened RelayReceiver

  /** The frames picked, in the order of the picks. */
  function Picked(stream: seq<Bytes>, picks: seq<nat>): (frames: seq<Bytes>)
    requires forall p :: p in picks ==> p < |stream|
    ensures |frames| == |picks|
  {
    assert forall i :: 0 <= i < |picks| ==> picks[i] in picks;
    seq(|picks|, i requires 0 <= i < |picks| => stream[picks[i]])
  }

  /** The chunks among them: frame `p` of the stream is chunk `p - 1`. */
  function Taken(cs: seq<Bytes>, picks: seq<nat>): seq<Bytes> {
    if picks == [] then []
    else
      var last := picks[|picks| - 1];
      Taken(cs, picks[..|picks| - 1]) + if 0 < last <= |cs| then [cs[last - 1]] else []
  }

  /** The end mark's place in the stream. */
  function End(f: File): nat {
    |Chunks(f.content, 0)| + 1
  }

  /** Where the end mark is first picked, or the length. */
  function First(picks: seq<nat>, end: nat): (i: nat)
    ensures i <= |picks| && (i < |picks| ==> picks[i] == end)
    ensures forall k :: 0 <= k < i ==> picks[k] != end
  {
    if picks == [] then 0 else if picks[0] == end then 0 else 1 + First(picks[1..], end)
  }

  /** What the receiver does with each frame of the stream. */
  function Take(f: File, s: State, p: nat): State {
    var cs := Chunks(f.content, 0);
    if p == 0 then s.(meta := Some(MetaOf(f))).Say(Progress(0, Some(|f.content|)))
    else if p <= |cs| then
      var s' := s.(chunks := s.chunks + [cs[p - 1]], received := s.received + |cs[p - 1]|);
      if s.meta.Some? then s'.Say(Progress(s'.received, s.meta.value.size)) else s'
    else if s.meta.None? then s.Fail("eof received before metadata")
    else if s.meta.value.size != Some(s.received) then s.Fail("integrity mismatch")
    else s.Say(Complete(s.meta.value, Concat(s.chunks))).(open := false)
  }

  lemma PlainTaken(j: Codec, f: File, s: State, p: nat)
    requires j.Lawful() && p < |Plains(j, f)|
    ensures OnPlain(j, s, Some(Plains(j, f)[p])) == Take(f, s, p)
  {
    PlainsAre(j, f, p);
    var cs, plain := Chunks(f.content, 0), Plains(j, f)[p];
    hide Plains, Chunks, Script, Concat;
    if p == 0 {
      assert plain[1..] == j.encode(Announcement(f)) && j.decode(j.encode(Announcement(f))) == Some(Announcement(f));
    } else if p <= |cs| {
      assert plain[1..] == cs[p - 1];
    } else {
      assert plain[1..] == j.encode(Eof) && j.decode(j.encode(Eof)) == Some(Eof);
    }
  }

  /** The receiver before the end mark. */
  ghost predicate Gathered(f: File, picks: seq<nat>, s: State) {
    && s.open && s.meta == (if 0 in picks then Some(MetaOf(f)) else None)
    && s.chunks == Taken(Chunks(f.content, 0), picks) && s.received == Total(s.chunks)
    && forall e :: e in s.events ==> e.Progress?
  }

  lemma GatheredOn(f: File, picks: seq<nat>, p: nat, s: State)
    requires Gathered(f, picks, s) && p < End(f)
    ensures Gathered(f, picks + [p], Take(f, s, p))
  {
    hide Chunks, MetaOf;
    assert (picks + [p])[..|picks|] == picks;
    if 0 < p {
      ChunkGathered(f, picks, p, s);
      hide Gathered, Take;
    } else {
      assert Taken(Chunks(f.content, 0), picks + [p]) == Taken(Chunks(f.content, 0), picks) + [];
      hide Total, Taken;
    }
  }

  lemma ChunkGathered(f: File, picks: seq<nat>, p: nat, s: State)
    requires Gathered(f, picks, s) && 0 < p < End(f)
    ensures Gathered(f, picks + [p], Take(f, s, p))
  {
    hide Chunks, MetaOf;
    var cs, s' := Chunks(f.content, 0), Take(f, s, p);
    assert (picks + [p])[..|picks|] == picks;
    assert s'.chunks == s.chunks + [cs[p - 1]] && s'.chunks[..|s.chunks|] == s.chunks;
    assert Taken(cs, picks + [p]) == Taken(cs, picks) + [cs[p - 1]];
    assert s'.received == Total(s'.chunks);
    hide Total, Taken;
  }

  lemma PickedRun(c: Cipher, j: Codec, key: Key, ivs: nat -> Iv, f: File, picks: seq<nat>, n: nat)
    requires c.Lawful() && j.Lawful() && n < |picks| && forall p :: p in picks ==> p < |Stream(c, j, key, ivs, f)|
    ensures var stream := Stream(c, j, key, ivs, f);
            && |stream| == End(f) + 1
            && var frames := Picked(stream, picks);
               var before := Run(c, j, key, frames[..n]);
               Run(c, j, key, frames[..n + 1]) == if before.open then Take(f, before, picks[n]) else before
  {
    var stream := Stream(c, j, key, ivs, f);
    assert picks[n] in picks;
    PlainsAre(j, f, 0);
    RunSplits(c, j, key, Picked(stream, picks), n);
    FrameOpens(c, key, ivs(picks[n]), Plains(j, f)[picks[n]]);
    var before := Run(c, j, key, Picked(stream, picks)[..n]);
    PlainTaken(j, f, before, picks[n]);
    hide Run, Take, Plains, Chunks, OnPlain;
  }

  lemma GatheredIsOpen(f: File, picks: seq<nat>, s: State)
    requires Gathered(f, picks, s)
    ensures s.open && !Completed(s)
  {
    hide Chunks, Taken, Total;
  }

  lemma GatheredMore(c: Cipher, j: Codec, key: Key, ivs: nat -> Iv, f: File, picks: seq<nat>, n: nat)
    requires c.Lawful() && j.Lawful() && n < |picks| && forall p :: p in picks ==> p < |Stream(c, j, key, ivs, f)|
    requires picks[n] != End(f) && Gathered(f, picks[..n], Run(c, j, key, Picked(Stream(c, j, key, ivs, f), picks)[..n]))
    ensures Gathered(f, picks[..n + 1], Run(c, j, key, Picked(Stream(c, j, key, ivs, f), picks)[..n + 1]))
  {
    hide Run, Stream, Take, Gathered, Picked, End, Cipher.Lawful, Codec.Lawful;
    var before := Run(c, j, key, Picked(Stream(c, j, key, ivs, f), picks)[..n]);
    GatheredIsOpen(f, picks[..n], before);
    PickedRun(c, j, key, ivs, f, picks, n);
    assert picks[n] in picks;
    GatheredOn(f, picks[..n], picks[n], before);
    assert picks[..n] + [picks[n]] == picks[..n + 1];
  }

  lemma {:induction false} GatheredRun(c: Cipher, j: Codec, key: Key, ivs: nat -> Iv, f: File, picks: seq<nat>, n: nat)
    requires c.Lawful() && j.Lawful() && forall p :: p in picks ==> p < |Stream(c, j, key, ivs, f)|
    requires n <= |picks| && forall i :: 0 <= i < n ==> picks[i] != End(f)
    ensures Gathered(f, picks[..n], Run(c, j, key, Picked(Stream(c, j, key, ivs, f), picks)[..n]))
  {
    if n > 0 {
      hide Run, Stream, Gathered, Picked, End, Cipher.Lawful, Codec.Lawful;
      GatheredRun(c, j, key, ivs, f, picks, n - 1);
      GatheredMore(c, j, key, ivs, f, picks, n - 1);
    } else {
      hide Stream, Cipher.Lawful, Codec.Lawful;
    }
  }

  /** What counts: the picks before the first end mark. */
  function Counted(f: File, picks: seq<nat>): seq<nat> {
    picks[..First(picks, End(f))]
  }

  /** The end mark is there, the metadata before it, and the chunks before it have
      the announced size in all. */
  predicate Adds(f: File, picks: seq<nat>) {
    First(picks, End(f)) < |picks| && 0 in Counted(f, picks)
    && Total(Taken(Chunks(f.content, 0), Counted(f, picks))) == |f.content|
  }

  lemma VerdictTaken(f: File, picks: seq<nat>, s: State)
    requires Gathered(f, picks, s)
    ensures var s', cs := Take(f, s, End(f)), Chunks(f.content, 0);
            && !s'.open
            && (Completed(s') <==> 0 in picks && Total(Taken(cs, picks)) == |f.content|)
            && (forall e :: e in s'.events && e.Complete? ==> e == Complete(MetaOf(f), Concat(Taken(cs, picks))))
  {
    hide Chunks, Taken, Total, Concat;
    var s' := Take(f, s, End(f));
    assert s'.events == s.events + [s'.events[|s.events|]];
    if s'.events[|s.events|].Complete? {
      assert s'.events[|s.events|] in s'.events;
    }
  }

  /** Whatever frames of the stream arrive, however often and in whatever order: the
      guest completes if and only if the metadata comes before the first end mark and
      the chunks up to there have the announced size in all; and what it completes is
      those chunks, in the order in which they came. */
  lemma PicksCompleteIffTheyAdd(c: Cipher, j: Codec, key: Key, ivs: nat -> Iv, f: File, picks: seq<nat>)
    requires c.Lawful() && j.Lawful() && forall p :: p in picks ==> p < |Stream(c, j, key, ivs, f)|
    ensures var guest := Run(c, j, key, Picked(Stream(c, j, key, ivs, f), picks));
            && (Completed(guest) <==> Adds(f, picks))
            && forall e :: e in guest.events && e.Complete? ==>
                 e == Complete(MetaOf(f), Concat(Taken(Chunks(f.content, 0), Counted(f, picks))))
  {
    hide Run, Stream, Take, Picked, Gathered, Completed, Cipher.Lawful, Codec.Lawful, Taken, Chunks, Total, Concat, First, End, MetaOf;
    var frames, n := Picked(Stream(c, j, key, ivs, f), picks), First(picks, End(f));
    GatheredRun(c, j, key, ivs, f, picks, n);
    var before := Run(c, j, key, frames[..n]);
    GatheredIsOpen(f, picks[..n], before);
    if n < |picks| {
      PickedRun(c, j, key, ivs, f, picks, n);
      VerdictTaken(f, picks[..n], before);
      ClosedStays(c, j, key, frames, n + 1);
    } else {
      assert frames[..n] == frames;
      NotCompleted(before);
    }
  }

  lemma NotCompleted(s: State)
    requires !Completed(s)
    ensures forall e :: e in s.events ==> !e.Complete?
  {}

  /** The guest has the sender's file. */
  predicate Intact(f: File, s: State) {
    Complete(MetaOf(f), f.content) in s.events
  }

  /** It has it if and only if, moreover, the chunks that came are the content. */
  lemma PicksIntactIff(c: Cipher, j: Codec, key: Key, ivs: nat -> Iv, f: File, picks: seq<nat>)
    requires c.Lawful() && j.Lawful() && forall p :: p in picks ==> p < |Stream(c, j, key, ivs, f)|
    ensures Intact(f, Run(c, j, key, Picked(Stream(c, j, key, ivs, f), picks))) <==>
            Adds(f, picks) && Concat(Taken(Chunks(f.content, 0), Counted(f, picks))) == f.content
  {
    PicksCompleteIffTheyAdd(c, j, key, ivs, f, picks);
    hide Run, Stream, Picked, Adds, Taken, Chunks, Concat, Counted, Cipher.Lawful, Codec.Lawful;
  }

  /** A file of two chunks with its data frames exchanged completes as its second chunk
      and then its first, so intact only if that is the same. */
  lemma ExchangedChunks(c: Cipher, j: Codec, key: Key, ivs: nat -> Iv, f: File)
    requires c.Lawful() && j.Lawful() && |Chunks(f.content, 0)| == 2
    ensures |Stream(c, j, key, ivs, f)| == 4
    ensures var guest := Run(c, j, key, Picked(Stream(c, j, key, ivs, f), [0, 2, 1, 3]));
            var cs := Chunks(f.content, 0);
            && Completed(guest) && (Intact(f, guest) <==> cs[1] + cs[0] == cs[0] + cs[1])
            && forall e :: e in guest.events && e.Complete? ==> e == Complete(MetaOf(f), cs[1] + cs[0])
  {
    var cs, picks := Chunks(f.content, 0), [0, 2, 1, 3];
    PlainsAre(j, f, 0);
    ExchangedPicks(f);
    hide Chunks, Stream, Plains, Adds, Taken, Concat, Counted, Run, Intact, Completed;
    PicksCompleteIffTheyAdd(c, j, key, ivs, f, picks);
    PicksIntactIff(c, j, key, ivs, f, picks);
  }

  lemma ExchangedPicks(f: File)
    requires |Chunks(f.content, 0)| == 2
    ensures var cs := Chunks(f.content, 0);
            && Adds(f, [0, 2, 1, 3]) && f.content == cs[0] + cs[1]
            && Concat(Taken(cs, Counted(f, [0, 2, 1, 3]))) == cs[1] + cs[0]
  {
    var cs := Chunks(f.content, 0);
    ChunksRebuild(f.content, 0);
    assert cs == [cs[0], cs[1]];
    hide Chunks;
    assert Counted(f, [0, 2, 1, 3]) == [0, 2, 1];
    TakenTwo(cs);
    TotalIsLength(cs);
    ConcatTwo(cs[0], cs[1]);
    ConcatTwo(cs[1], cs[0]);
    TotalIsLength([cs[1], cs[0]]);
  }

  lemma TakenTwo(cs: seq<Bytes>)
    requires |cs| == 2
    ensures Taken(cs, [0, 2, 1]) == [cs[1], cs[0]]
  {
    assert [0][..0] == [] && [0, 2][..1] == [0] && [0, 2, 1][..2] == [0, 2];
    assert Taken(cs, []) == [];
    assert Taken(cs, [0]) == Taken(cs, []) + [];
    assert Taken(cs, [0, 2]) == Taken(cs, [0]) + [cs[1]];
    assert Taken(cs, [0, 2, 1]) == Taken(cs, [0, 2]) + [cs[0]];
  }

  lemma ConcatTwo(a: Bytes, b: Bytes)
    ensures Concat([a, b]) == a + b
  {
    assert [a, b][..1] == [a] && [a][..0] == [];
    assert Concat([a]) == [] + a == a;
  }
}
