/** The direct path's sending side: chunks over a data channel with backpressure
    (web/src/transfer.ts, sendFile). */
module Direct {
  import opened Transfer

  /** JSON text or a binary buffer. */
  datatype Message = Text(json: Bytes) | Binary(data: Bytes)

  function Weight(m: Message): nat {
    match m
    case Text(json) => |json|
    case Binary(data) => |data|
  }

  /** Below this the channel raises `bufferedamountlow`. */
  const LOW_WATER: nat := 65536

  /** `peak` is the highest `buffered` ever was. */
  datatype Channel = Channel(open: bool, buffered: nat, peak: nat, sent: seq<Message>) {
    function Send(m: Message): Channel {
      var b := buffered + Weight(m);
      this.(buffered := b, peak := if peak < b then b else peak, sent := sent + [m])
    }
  }

  datatype Phase = Reading | Parked | Finished | Rejected

  /** One `sendFile` call.  `Reading` waits for the file reader, `Parked` for the
      channel to drain. */
  datatype Sender = Sender(channel: Channel, offset: nat, phase: Phase, progress: seq<nat>)

  /** `Loaded` is the file reader's answer, `Drained` the network's; the event that
      wakes a parked sender is raised when the buffer falls through the threshold. */
  datatype Event = Loaded(ok: bool) | Drained(bytes: nat) | Closed

  /** `readNextChunk`. */
  function ReadNext(j: Codec, f: File, s: Sender): Sender {
    if s.offset >= |f.content| then
      if s.channel.open then
        s.(channel := s.channel.Send(Text(j.encode(Eof))), phase := Finished, progress := s.progress + [|f.content|])
      else s.(phase := Rejected)
    else s.(phase := if s.channel.buffered > HIGH_WATER then Parked else Reading)
  }

  function Begin(j: Codec, f: File, channel: Channel): Sender {
    if channel.open then
      ReadNext(j, f, Sender(channel.Send(Text(j.encode(Announcement(f)))), 0, Reading, []))
    else Sender(channel, 0, Rejected, [])
  }

  function OnLoad(j: Codec, f: File, s: Sender, ok: bool): Sender {
    if s.phase != Reading then s
    else if !ok || !s.channel.open then s.(phase := Rejected)
    else
      var buffer := Slice(f.content, s.offset);
      var next := s.offset + |buffer|;
      ReadNext(j, f, s.(channel := s.channel.Send(Binary(buffer)), offset := next, progress := s.progress + [next]))
  }

  function OnDrain(j: Codec, f: File, s: Sender, bytes: nat): Sender {
    var b := if bytes < s.channel.buffered then s.channel.buffered - bytes else 0;
    var s' := s.(channel := s.channel.(buffered := b));
    if s.phase == Parked && s.channel.buffered > LOW_WATER >= b then ReadNext(j, f, s') else s'
  }

  function Step(j: Codec, f: File, s: Sender, e: Event): Sender {
    match e
    case Loaded(ok) => OnLoad(j, f, s, ok)
    case Drained(n) => OnDrain(j, f, s, n)
    case Closed => s.(channel := s.channel.(open := false))
  }

  function After(j: Codec, f: File, s: Sender, events: seq<Event>): Sender {
    if events == [] then s
    else Step(j, f, After(j, f, s, events[..|events| - 1]), events[|events| - 1])
  }

  function Run(j: Codec, f: File, channel: Channel, events: seq<Event>): Sender {
    After(j, f, Begin(j, f, channel), events)
  }

  /** The slice at `offset`, empty past the end. */
  function Slice(content: Bytes, offset: nat): Bytes {
    if offset <= |content| then ChunkAt(content, offset) else []
  }

  class FileSender {
    const j: Codec
    const file: File
    var channel: Channel
    var offset: nat
    var phase: Phase
    var progress: seq<nat>

    function View(): Sender
      reads this
    {
      Sender(channel, offset, phase, progress)
    }

    constructor (j: Codec, file: File, channel: Channel)
      ensures this.j == j && this.file == file && View() == Begin(j, file, channel)
    {
      this.j, this.file, this.channel := j, file, channel;
      offset, phase, progress := 0, Reading, [];
      new;
      if !channel.open {
        phase := Rejected;
        return;
      }
      this.channel := channel.Send(Text(j.encode(Announcement(file))));
      ReadNextChunk();
    }

    method ReadNextChunk()
      modifies this
      ensures View() == ReadNext(j, file, old(View()))
    {
      if offset >= |file.content| {
        if !channel.open {
          phase := Rejected;
          return;
        }
        channel := channel.Send(Text(j.encode(Eof)));
        progress := progress + [|file.content|];
        phase := Finished;
        return;
      }
      phase := if channel.buffered > HIGH_WATER then Parked else Reading;
    }

    method OnLoadEvent(ok: bool)
      modifies this
      ensures View() == OnLoad(j, file, old(View()), ok)
    {
      if phase != Reading {
        return;
      }
      if !ok || !channel.open {
        phase := Rejected;
        return;
      }
      var buffer := Slice(file.content, offset);
      channel := channel.Send(Binary(buffer));
      offset := offset + |buffer|;
      progress := progress + [offset];
      ReadNextChunk();
    }

    method OnBufferDrained(bytes: nat)
      modifies this
      ensures View() == OnDrain(j, file, old(View()), bytes)
    {
      var was := channel.buffered;
      channel := channel.(buffered := if bytes < was then was - bytes else 0);
      if phase == Parked && was > LOW_WATER && channel.buffered <= LOW_WATER {
        ReadNextChunk();
      }
    }
  }

  // ------------------------------------------------------------- what is sent

  function Binaries(chunks: seq<Bytes>): seq<Message> {
    seq(|chunks|, i requires 0 <= i < |chunks| => Binary(chunks[i]))
  }

  /** A file on the channel. */
  function Messages(j: Codec, f: File): seq<Message> {
    [Text(j.encode(Announcement(f)))] + Binaries(Chunks(f.content, 0)) + [Text(j.encode(Eof))]
  }

  /** The highest the buffer gets: the mark, one chunk past it and the end mark. */
  const CREST: nat := 1048576 + 16384
  const PEAK: nat := CREST + 14

  /** What is still to be sent is what is left of the file. */
  ghost predicate Owed(j: Codec, f: File, s: Sender, before: seq<Message>, n: nat) {
    && n <= |Messages(j, f)| && s.channel.sent == before + Messages(j, f)[..n]
    && (s.phase == Finished <==> n == |Messages(j, f)|)
    && (s.phase == Finished ==> s.progress == Offsets(f.content, 0) + [|f.content|])
    && (s.phase in {Reading, Parked} ==>
          && s.offset < |f.content|
          && s.progress + Offsets(f.content, s.offset) == Offsets(f.content, 0)
          && Messages(j, f)[n..] == Binaries(Chunks(f.content, s.offset)) + [Text(j.encode(Eof))])
  }

  ghost predicate Buffered(s: Sender) {
    && s.channel.buffered <= s.channel.peak <= PEAK
    && (s.phase in {Reading, Parked} ==> s.channel.peak <= CREST)
    && (s.phase == Reading ==> s.channel.buffered <= 1048576)
    && (s.phase == Parked ==> s.channel.buffered > 65536)
  }

  /** Room for the announcement when the send begins. */
  predicate RoomAtTheStart(j: Codec, f: File, channel: Channel) {
    && channel.buffered <= channel.peak <= CREST
    && channel.buffered + |j.encode(Announcement(f))| <= CREST
  }

  lemma ReadNextBuffered(j: Codec, f: File, s: Sender)
    requires j.Lawful() && s.channel.buffered <= s.channel.peak <= CREST
    ensures Buffered(ReadNext(j, f, s))
  {}

  /** The buffer never goes over its bound, and a parked sender is always above
      the threshold, so the event it waits for is still to come. */
  lemma {:induction false} AlwaysBuffered(j: Codec, f: File, channel: Channel, events: seq<Event>)
    requires j.Lawful() && RoomAtTheStart(j, f, channel)
    ensures Buffered(Run(j, f, channel, events))
  {
    if events == [] {
      if channel.open {
        ReadNextBuffered(j, f, Sender(channel.Send(Text(j.encode(Announcement(f)))), 0, Reading, []));
      }
    } else {
      AlwaysBuffered(j, f, channel, events[..|events| - 1]);
      var s, e := Run(j, f, channel, events[..|events| - 1]), events[|events| - 1];
      StepBuffered(j, f, s, e);
    }
  }

  lemma StepBuffered(j: Codec, f: File, s: Sender, e: Event)
    requires j.Lawful() && Buffered(s)
    ensures Buffered(Step(j, f, s, e))
  {
    hide Codec.Lawful;
    match e {
      case Loaded(ok) =>
        if s.phase == Reading && ok && s.channel.open {
          var buffer := Slice(f.content, s.offset);
          var next := s.offset + |buffer|;
          ReadNextBuffered(j, f,
            s.(channel := s.channel.Send(Binary(buffer)), offset := next, progress := s.progress + [next]));
        }
      case Drained(n) =>
        var b := if n < s.channel.buffered then s.channel.buffered - n else 0;
        if s.phase == Parked {
          ReadNextBuffered(j, f, s.(channel := s.channel.(buffered := b)));
        }
      case Closed =>
    }
  }

  /** The file reader answers while the send waits for it, and it failed or the channel has
      closed. */
  predicate Fails(j: Codec, f: File, channel: Channel, events: seq<Event>, i: nat)
    requires i < |events|
  {
    var s := Run(j, f, channel, events[..i]);
    events[i].Loaded? && s.phase == Reading && (!events[i].ok || !s.channel.open)
  }

  lemma FailsSnoc(j: Codec, f: File, channel: Channel, events: seq<Event>)
    requires events != []
    ensures var init := events[..|events| - 1];
            (exists i :: 0 <= i < |events| && Fails(j, f, channel, events, i))
            <==> (exists i :: 0 <= i < |init| && Fails(j, f, channel, init, i)) || Fails(j, f, channel, events, |init|)
  {
    hide Run;
    var init := events[..|events| - 1];
    forall i | 0 <= i < |init| ensures Fails(j, f, channel, init, i) <==> Fails(j, f, channel, events, i) {
      assert init[..i] == events[..i] && init[i] == events[i];
    }
    hide Fails;
    if i :| 0 <= i < |init| && Fails(j, f, channel, init, i) {
      assert Fails(j, f, channel, events, i);
    }
  }

  lemma StepRejects(j: Codec, f: File, s: Sender, e: Event)
    requires s.phase in {Reading, Parked} ==> s.offset < |f.content|
    ensures Step(j, f, s, e).phase == Rejected <==>
              s.phase == Rejected || (e.Loaded? && s.phase == Reading && (!e.ok || !s.channel.open))
    ensures Step(j, f, s, e).phase in {Reading, Parked} ==> Step(j, f, s, e).offset < |f.content|
    ensures Step(j, f, s, e).channel.open <==> s.channel.open && e != Closed
  {}

  /** A send is rejected if and only if the channel was closed when it began, or the file
      reader failed, or answered on a closed channel; and the channel is open if and only if
      it was and has not closed. */
  lemma {:induction false} RejectedIff(j: Codec, f: File, channel: Channel, events: seq<Event>)
    ensures var s := Run(j, f, channel, events);
            && (s.phase == Rejected <==> !channel.open || exists i :: 0 <= i < |events| && Fails(j, f, channel, events, i))
            && (s.channel.open <==> channel.open && Closed !in events)
            && (s.phase in {Reading, Parked} ==> s.offset < |f.content|)
  {
    if events != [] {
      var init := events[..|events| - 1];
      assert events == init + [events[|init|]];
      RejectedIff(j, f, channel, init);
      FailsSnoc(j, f, channel, events);
      StepRejects(j, f, Run(j, f, channel, init), events[|init|]);
      hide Step;
    }
  }

  /** After a chunk the send stops for the network if and only if more than a megabyte is
      still in the buffer; parked, it goes on exactly when the buffer falls to 65536 or below. */
  lemma ParksIff(j: Codec, f: File, channel: Channel, events: seq<Event>, e: Event)
    ensures var s, s' := Run(j, f, channel, events), Run(j, f, channel, events + [e]);
            && (s.phase == Reading && e.Loaded? && s'.phase in {Reading, Parked} ==>
                  (s'.phase == Parked <==> s'.channel.buffered > 1048576))
            && (s.phase == Parked ==>
                  (s'.phase == Parked <==> s.channel.buffered <= 65536 || s'.channel.buffered > 65536))
  {
    assert (events + [e])[..|events|] == events;
    RejectedIff(j, f, channel, events);
    hide Run, After;
  }

  /** How far a send is from settling. */
  function Work(f: File, s: Sender): nat {
    match s.phase
    case Reading => if s.offset < |f.content| then 2 * (|f.content| - s.offset) else 0
    case Parked => if s.offset < |f.content| then 2 * (|f.content| - s.offset) + 1 else 0
    case _ => 0
  }

  /** Every answer of the file reader and every drain of a full buffer brings the
      send nearer its end, and nothing takes it away. */
  lemma EveryWakingStepWorks(j: Codec, f: File, s: Sender, e: Event)
    requires s.phase in {Reading, Parked} && s.offset < |f.content| && Buffered(s)
    ensures Work(f, Step(j, f, s, e)) <= Work(f, s)
    ensures e.Loaded? && s.phase == Reading ==> Work(f, Step(j, f, s, e)) < Work(f, s)
    ensures e == Drained(s.channel.buffered) && s.phase == Parked && s.channel.open ==>
              Work(f, Step(j, f, s, e)) < Work(f, s)
  {}

  lemma {:induction false} AfterPrepend(j: Codec, f: File, s: Sender, e: Event, events: seq<Event>)
    ensures After(j, f, s, [e] + events) == After(j, f, Step(j, f, s, e), events)
  {
    hide Step;
    if events == [] {
      assert [e] + events == [e] && [e][..0] == [];
    } else {
      assert ([e] + events)[..|events|] == [e] + events[..|events| - 1];
      AfterPrepend(j, f, s, e, events[..|events| - 1]);
    }
  }

  lemma OneStepNearer(j: Codec, f: File, s: Sender) returns (e: Event)
    requires j.Lawful() && Buffered(s) && s.channel.open && s.phase in {Reading, Parked} && s.offset < |f.content|
    ensures var s' := Step(j, f, s, e);
            && s'.channel.open && Buffered(s') && Work(f, s') < Work(f, s)
            && (s'.phase == Finished || (s'.phase in {Reading, Parked} && s'.offset < |f.content|))
  {
    e := if s.phase == Reading then Loaded(true) else Drained(s.channel.buffered);
    StepBuffered(j, f, s, e);
    EveryWakingStepWorks(j, f, s, e);
    hide Buffered, Work, Codec.Lawful;
  }

  /** From anywhere in a send whose channel is open, loads and drains finish it. */
  lemma {:induction false} CanAlwaysFinish(j: Codec, f: File, s: Sender) returns (events: seq<Event>)
    requires j.Lawful() && Buffered(s) && s.channel.open && s.phase in {Reading, Parked} && s.offset < |f.content|
    ensures After(j, f, s, events).phase == Finished
    decreases Work(f, s)
  {
    hide Buffered, Codec.Lawful, Work;
    var e := OneStepNearer(j, f, s);
    var s' := Step(j, f, s, e);
    hide Step;
    var rest: seq<Event> := [];
    if s'.phase != Finished {
      rest := CanAlwaysFinish(j, f, s');
    }
    events := [e] + rest;
    AfterPrepend(j, f, s, e, rest);
  }

  /** How many bytes the network takes in these events. */
  function Flushed(events: seq<Event>): nat {
    if events == [] then 0
    else
      var last := events[|events| - 1];
      Flushed(events[..|events| - 1]) + if last.Drained? then last.bytes else 0
  }

  /** After a close a reading sender stays so until its next load, which rejects it. */
  lemma {:induction false} CloseRejectsTheReading(j: Codec, f: File, s: Sender, events: seq<Event>)
    requires !s.channel.open && s.phase == Reading
    ensures After(j, f, s, events).phase == if exists e :: e in events && e.Loaded? then Rejected else Reading
    ensures !After(j, f, s, events).channel.open
  {
    if events != [] {
      CloseRejectsTheReading(j, f, s, events[..|events| - 1]);
      assert events == events[..|events| - 1] + [events[|events| - 1]];
    }
  }

  /** What a parked sender has become after its channel closed. */
  ghost predicate Closing(f: File, s: Sender, s': Sender, flushed: nat) {
    && !s'.channel.open && s'.offset == s.offset && s'.channel.sent == s.channel.sent
    && s'.channel.buffered == (if flushed < s.channel.buffered then s.channel.buffered - flushed else 0)
    && (s'.phase == Parked <==> s'.channel.buffered > LOW_WATER)
    && s'.phase in {Parked, Reading, Rejected}
  }

  lemma {:induction false} ClosingStays(j: Codec, f: File, s: Sender, events: seq<Event>)
    requires !s.channel.open && s.phase == Parked && s.offset < |f.content| && s.channel.buffered > LOW_WATER
    ensures Closing(f, s, After(j, f, s, events), Flushed(events))
  {
    if events != [] {
      ClosingStays(j, f, s, events[..|events| - 1]);
    }
  }

  /** A channel that closes while the sender is parked wakes it if and only if it
      still flushes its buffer down to the threshold; else the promise never
      settles.  In no case is the file finished. */
  lemma CloseStrandsUnlessFlushed(j: Codec, f: File, s: Sender, events: seq<Event>)
    requires Buffered(s) && !s.channel.open && s.phase == Parked && s.offset < |f.content|
    ensures After(j, f, s, events).phase == Parked <==> Flushed(events) + LOW_WATER < s.channel.buffered
    ensures After(j, f, s, events).phase != Finished
  {
    ClosingStays(j, f, s, events);
    hide After;
  }

  /** Such runs exist: a send of any file that is not empty begins over the mark, and
      its channel closes at once.  It stays parked for ever if the close drops the
      buffer, and in general exactly as long as too little is flushed. */
  lemma ParkedWhenItCloses(j: Codec, f: File, channel: Channel, later: seq<Event>)
    requires j.Lawful() && f.content != [] && channel.open
    requires channel.buffered > HIGH_WATER && RoomAtTheStart(j, f, channel)
    ensures Run(j, f, channel, [Closed] + later).phase == Parked
            <==> Flushed(later) + LOW_WATER < channel.buffered + |j.encode(Announcement(f))|
  {
    var s := Begin(j, f, channel);
    var closed := Step(j, f, s, Closed);
    AlwaysBuffered(j, f, channel, [Closed]);
    AfterPrepend(j, f, s, Closed, []);
    assert [Closed] + [] == [Closed] && After(j, f, closed, []) == closed;
    AfterPrepend(j, f, s, Closed, later);
    hide Codec.Lawful, Buffered;
    CloseStrandsUnlessFlushed(j, f, closed, later);
  }

  // ------------------------------------------------------ order and completeness

  lemma MessagesFrom(j: Codec, f: File, n: nat, offset: nat)
    requires n <= |Messages(j, f)| && offset < |f.content|
    requires Messages(j, f)[n..] == Binaries(Chunks(f.content, offset)) + [Text(j.encode(Eof))]
    ensures var chunk := ChunkAt(f.content, offset);
            && n < |Messages(j, f)| && offset + |chunk| <= |f.content|
            && Messages(j, f)[..n + 1] == Messages(j, f)[..n] + [Binary(chunk)]
            && Messages(j, f)[n + 1..] == Binaries(Chunks(f.content, offset + |chunk|)) + [Text(j.encode(Eof))]
  {
    var m, chunk := Messages(j, f), ChunkAt(f.content, offset);
    var rest := Chunks(f.content, offset + |chunk|);
    assert Chunks(f.content, offset) == [chunk] + rest;
    hide Messages, Chunks;
    assert Binaries([chunk] + rest) == [Binary(chunk)] + Binaries(rest);
    assert m[n..] == [Binary(chunk)] + (Binaries(rest) + [Text(j.encode(Eof))]);
    assert m[n] == m[n..][0];
    assert m[n + 1..] == m[n..][1..];
  }

  /** The state between a send and `ReadNext`. */
  ghost predicate Sent(j: Codec, f: File, s: Sender, before: seq<Message>, n: nat) {
    && s.offset <= |f.content| && n <= |Messages(j, f)|
    && s.channel.sent == before + Messages(j, f)[..n]
    && s.progress + Offsets(f.content, s.offset) == Offsets(f.content, 0)
    && Messages(j, f)[n..] == Binaries(Chunks(f.content, s.offset)) + [Text(j.encode(Eof))]
  }

  lemma ReadNextOwes(j: Codec, f: File, s: Sender, before: seq<Message>, n: nat) returns (n': nat)
    requires Sent(j, f, s, before, n) && s.phase in {Reading, Parked}
    ensures Owed(j, f, ReadNext(j, f, s), before, n')
  {
    n' := if ReadNext(j, f, s).phase == Finished then n + 1 else n;
    if s.offset == |f.content| && s.channel.open {
      var m := Messages(j, f);
      assert m[n..] == [Text(j.encode(Eof))] && s.progress == Offsets(f.content, 0);
      hide Messages, Chunks, Offsets;
      assert m[n] == m[n..][0];
      assert m[..n + 1] == m[..n] + [m[n]];
    }
  }

  lemma BeginOwes(j: Codec, f: File, channel: Channel) returns (n: nat)
    ensures Owed(j, f, Begin(j, f, channel), channel.sent, n)
  {
    var m := Messages(j, f);
    if channel.open {
      var s := Sender(channel.Send(Text(j.encode(Announcement(f)))), 0, Reading, []);
      assert m[..1] == [Text(j.encode(Announcement(f)))];
      assert Sent(j, f, s, channel.sent, 1);
      hide Owed, Sent, Messages;
      n := ReadNextOwes(j, f, s, channel.sent, 1);
    } else {
      n := 0;
    }
  }

  lemma LoadOwes(j: Codec, f: File, s: Sender, before: seq<Message>, n: nat) returns (n': nat)
    requires Owed(j, f, s, before, n) && s.phase == Reading && s.channel.open
    ensures Owed(j, f, OnLoad(j, f, s, true), before, n')
  {
    var chunk := ChunkAt(f.content, s.offset);
    MessagesFrom(j, f, n, s.offset);
    var next := s.offset + |chunk|;
    assert s.progress + [next] + Offsets(f.content, next) == s.progress + Offsets(f.content, s.offset);
    hide Messages, Chunks, Offsets;
    var sent := s.(channel := s.channel.Send(Binary(chunk)), offset := next, progress := s.progress + [next]);
    assert sent.channel.sent == before + Messages(j, f)[..n + 1];
    assert Sent(j, f, sent, before, n + 1);
    hide Owed, Sent;
    n' := ReadNextOwes(j, f, sent, before, n + 1);
  }

  lemma StepOwes(j: Codec, f: File, s: Sender, before: seq<Message>, n: nat, e: Event) returns (n': nat)
    requires Owed(j, f, s, before, n)
    ensures Owed(j, f, Step(j, f, s, e), before, n')
  {
    if e == Loaded(true) && s.phase == Reading && s.channel.open {
      hide Owed;
      n' := LoadOwes(j, f, s, before, n);
    } else {
      hide Messages, Chunks, Offsets;
      n' := n;
    }
  }

  /** In every run the channel has carried, in order, the file's first `n`
      messages and nothing else, all of them if the send finished. */
  lemma {:induction false} AlwaysOwed(j: Codec, f: File, channel: Channel, events: seq<Event>) returns (n: nat)
    ensures Owed(j, f, Run(j, f, channel, events), channel.sent, n)
  {
    hide Owed, Step, Begin;
    if events == [] {
      n := BeginOwes(j, f, channel);
    } else {
      var init, e := events[..|events| - 1], events[|events| - 1];
      n := AlwaysOwed(j, f, channel, init);
      n := StepOwes(j, f, Run(j, f, channel, init), channel.sent, n, e);
    }
  }

  /** The same, as far as the channel is concerned. */
  lemma SentInOrder(j: Codec, f: File, channel: Channel, events: seq<Event>) returns (n: nat)
    ensures n <= |Messages(j, f)|
    ensures Run(j, f, channel, events).channel.sent == channel.sent + Messages(j, f)[..n]
    ensures Run(j, f, channel, events).phase == Finished <==> n == |Messages(j, f)|
  {
    hide Run, Messages;
    n := AlwaysOwed(j, f, channel, events);
  }
}
