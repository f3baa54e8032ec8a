/** The direct path's receiving side and the round trip (web/src/transfer.ts,
    FileReceiver). */
module DirectReceiver {
  import opened Common
  import opened Transfer
  import opened Direct

  datatype State = State(meta: Option<Meta>, chunks: seq<Bytes>, received: nat, events: seq<Transfer.Event>) {
    function Say(e: Transfer.Event): State {
      this.(events := events + [e])
    }
  }

  const START: State := State(None, [], 0, [])

  /** The end mark; `received` keeps its value after a completion. */
  function Finalize(s: State): State {
    if s.meta.None? then s
    else if s.meta.value.size != Some(s.received) then s.Say(Error("File transfer integrity mismatch"))
    else s.Say(Complete(s.meta.value, Concat(s.chunks))).(chunks := [], meta := None)
  }

  /** An announcement counts only with a non-empty name and a size. */
  function OnText(j: Codec, s: State, json: Bytes): State {
    match j.decode(json)
    case None => s.Say(Error("Parse error"))
    case Some(Metadata(name, size, kind)) =>
      if name.Some? && name.value != "" && size.Some? then
        var mimeType := if kind.None? || kind.value == "" then DEFAULT_TYPE else kind.value;
        State(Some(Meta(name, size, Some(mimeType))), [], 0, s.events + [Progress(0, size)])
      else s
    case Some(Eof) => Finalize(s)
    case Some(Other(_)) => s
  }

  function OnBinary(s: State, data: Bytes): State {
    if s.meta.None? then s
    else
      s.(chunks := s.chunks + [data], received := s.received + |data|)
      .Say(Progress(s.received + |data|, s.meta.value.size))
  }

  function OnMessage(j: Codec, s: State, m: Message): State {
    match m
    case Text(json) => OnText(j, s, json)
    case Binary(data) => OnBinary(s, data)
  }

  function Receive(j: Codec, s: State, messages: seq<Message>): State {
    if messages == [] then s
    else OnMessage(j, Receive(j, s, messages[..|messages| - 1]), messages[|messages| - 1])
  }

  class FileReceiver {
    const j: Codec
    var metadata: Option<Meta>
    var chunks: seq<Bytes>
    var receivedBytes: nat
    var events: seq<Transfer.Event>

    function View(): State
      reads this
    {
      State(metadata, chunks, receivedBytes, events)
    }

    constructor (j: Codec)
      ensures View() == START && this.j == j
    {
      this.j := j;
      metadata, chunks, receivedBytes, events := None, [], 0, [];
    }

    method HandleMessage(m: Message)
      modifies this
      ensures View() == OnMessage(j, old(View()), m)
    {
      match m {
        case Text(json) =>
          match j.decode(json) {
            case None => events := events + [Error("Parse error")];
            case Some(Metadata(name, size, kind)) =>
              if name.Some? && name.value != "" && size.Some? {
                var mimeType := if kind.None? || kind.value == "" then DEFAULT_TYPE else kind.value;
                metadata := Some(Meta(name, size, Some(mimeType)));
                chunks := [];
                receivedBytes := 0;
                events := events + [Progress(0, size)];
              }
            case Some(Eof) => FinalizeTransfer();
            case Some(Other(_)) =>
          }
        case Binary(data) =>
          if metadata.None? {
            return;
          }
          chunks := chunks + [data];
          receivedBytes := receivedBytes + |data|;
          events := events + [Progress(receivedBytes, metadata.value.size)];
      }
    }

    method FinalizeTransfer()
      modifies this
      ensures View() == Finalize(old(View()))
    {
      if metadata.None? {
        return;
      }
      if metadata.value.size != Some(receivedBytes) {
        events := events + [Error("File transfer integrity mismatch")];
        return;
      }
      events := events + [Complete(metadata.value, Concat(chunks))];
      chunks := [];
      metadata := None;
    }
  }

  // --------------------------------------------------- whatever may arrive

  /** With an announcement accepted, the counter is the sum of the chunks (it is
      stale otherwise), so what completes has its announced size. */
  ghost predicate Counted(s: State) {
    && (s.meta.Some? ==> s.received == Total(s.chunks) && s.meta.value.size.Some?)
    && (forall e :: e in s.events && e.Complete? ==> e.meta.size == Some(|e.blob|))
  }

  lemma {:induction false} AlwaysCounted(j: Codec, s: State, messages: seq<Message>)
    requires Counted(s)
    ensures Counted(Receive(j, s, messages))
  {
    if messages != [] {
      AlwaysCounted(j, s, messages[..|messages| - 1]);
      MessageKeepsCount(j, Receive(j, s, messages[..|messages| - 1]), messages[|messages| - 1]);
    }
  }

  lemma MessageKeepsCount(j: Codec, s: State, m: Message)
    requires Counted(s)
    ensures Counted(OnMessage(j, s, m))
  {
    if m.Binary? {
      assert (s.chunks + [m.data])[..|s.chunks|] == s.chunks;
    } else {
      TotalIsLength(s.chunks);
    }
  }

  // ------------------------------------------------- what the messages alone say

  /** The file a message announces: one with a non-empty name and a size. */
  function AnnouncedBy(j: Codec, m: Message): Option<Meta> {
    if m.Binary? then None
    else
      match j.decode(m.json)
      case Some(Metadata(Some(name), Some(size), kind)) =>
        if name == "" then None
        else Some(Meta(Some(name), Some(size),
                       Some(if kind.None? || kind.value == "" then "application/octet-stream" else kind.value)))
      case _ => None
  }

  predicate Ends(j: Codec, m: Message) {
    m.Text? && j.decode(m.json) == Some(Eof)
  }

  /** The data received after message `i`. */
  function DataSince(messages: seq<Message>, i: nat): seq<Bytes> {
    if |messages| <= i + 1 then []
    else
      var last := messages[|messages| - 1];
      DataSince(messages[..|messages| - 1], i) + if last.Binary? then [last.data] else []
  }

  /** Message `m` completes what message `i` announced. */
  ghost predicate Completes(j: Codec, messages: seq<Message>, i: nat, m: Message)
    requires i < |messages|
  {
    var meta := AnnouncedBy(j, messages[i]);
    meta.Some? && Ends(j, m) && meta.value.size == Some(Total(DataSince(messages, i)))
  }

  /** Message `i` announced a file, no other was announced since, and it is not complete. */
  ghost predicate Stands(j: Codec, messages: seq<Message>, i: nat) {
    && i < |messages| && AnnouncedBy(j, messages[i]).Some?
    && forall k :: i < k < |messages| ==>
         AnnouncedBy(j, messages[k]).None? && !Completes(j, messages[..k], i, messages[k])
  }

  lemma StandsSnoc(j: Codec, messages: seq<Message>, i: nat)
    requires messages != []
    ensures var init, m := messages[..|messages| - 1], messages[|messages| - 1];
            Stands(j, messages, i) <==>
            if i == |init| then AnnouncedBy(j, m).Some?
            else Stands(j, init, i) && AnnouncedBy(j, m).None? && !Completes(j, init, i, m)
  {
    hide AnnouncedBy, Completes;
    var init := messages[..|messages| - 1];
    assert forall k :: 0 <= k < |init| ==> init[k] == messages[k] && init[..k] == messages[..k];
  }

  /** One message, for a receiver in which the counter is the chunks' total. */
  lemma MessageDoes(j: Codec, s: State, m: Message)
    requires Counted(s)
    ensures var s', meta := OnMessage(j, s, m), AnnouncedBy(j, m);
            && (meta.Some? ==> s'.meta == meta && s'.chunks == [] && s'.events == s.events + [Progress(0, meta.value.size)])
            && (meta.None? ==>
                  if Ends(j, m) && s.meta.Some? && s.meta.value.size == Some(Total(s.chunks)) then
                    s'.meta == None && s'.events == s.events + [Complete(s.meta.value, Concat(s.chunks))]
                  else
                    && s'.meta == s.meta
                    && s'.chunks == s.chunks + (if m.Binary? && s.meta.Some? then [m.data] else [])
                    && s'.events == s.events + if Ends(j, m) && s.meta.Some? then [Error("File transfer integrity mismatch")]
                                               else if m.Text? && j.decode(m.json).None? then [Error("Parse error")]
                                               else if m.Binary? && s.meta.Some?
                                               then [Progress(Total(s.chunks + [m.data]), s.meta.value.size)] else [])
  {
    if m.Binary? { assert (s.chunks + [m.data])[..|s.chunks|] == s.chunks; }
    assert s.chunks + [] == s.chunks && s.events + [] == s.events;
    hide Concat;
  }

  lemma CountedRun(j: Codec, messages: seq<Message>)
    ensures Counted(Receive(j, START, messages))
  {
    AlwaysCounted(j, START, messages);
  }

  /** Whatever messages arrive: an announcement stands if and only if it was made, none was
      made since, and no end mark completed it; its chunks are then the data since. */
  lemma {:induction false} StandsThen(j: Codec, messages: seq<Message>, i: nat)
    requires Stands(j, messages, i)
    ensures i < |messages|
    ensures var s := Receive(j, START, messages);
            s.meta == AnnouncedBy(j, messages[i]) && s.meta.Some? && s.chunks == DataSince(messages, i)
  {
    var init, m := messages[..|messages| - 1], messages[|messages| - 1];
    StandsSnoc(j, messages, i);
    CountedRun(j, init);
    MessageDoes(j, Receive(j, START, init), m);
    assert Receive(j, START, messages) == OnMessage(j, Receive(j, START, init), m);
    hide Receive, OnMessage, AnnouncedBy, Total, Stands, Counted;
    if i < |init| {
      StandsThen(j, init, i);
    }
  }

  lemma {:induction false} StandingWasAnnounced(j: Codec, messages: seq<Message>) returns (i: nat)
    requires Receive(j, START, messages).meta.Some?
    ensures Stands(j, messages, i)
  {
    assert messages != [];
    var init, m := messages[..|messages| - 1], messages[|messages| - 1];
    CountedRun(j, init);
    MessageDoes(j, Receive(j, START, init), m);
    assert Receive(j, START, messages) == OnMessage(j, Receive(j, START, init), m);
    hide Receive, OnMessage, AnnouncedBy, Total, Stands, Counted;
    if AnnouncedBy(j, m).Some? {
      i := |init|;
    } else {
      i := StandingWasAnnounced(j, init);
      StandsThen(j, init, i);
      assert init[i] == messages[i];
    }
    StandsSnoc(j, messages, i);
  }

  /** So an end mark completes exactly the file that stands with all its bytes, with the
      name, size and type announced and the data since in order; otherwise it reports a
      mismatch, or nothing when no file stands. */
  lemma EndMarkDecides(j: Codec, messages: seq<Message>, m: Message)
    requires Ends(j, m)
    ensures var s, s' := Receive(j, START, messages), Receive(j, START, messages + [m]);
            && (forall i: nat :: Stands(j, messages, i) ==>
                  s'.events == s.events + [
                    if AnnouncedBy(j, messages[i]).value.size == Some(Total(DataSince(messages, i)))
                    then Complete(AnnouncedBy(j, messages[i]).value, Concat(DataSince(messages, i)))
                    else Error("File transfer integrity mismatch")])
            && (!(exists i: nat :: Stands(j, messages, i)) ==> s' == s)
  {
    assert (messages + [m])[..|messages|] == messages;
    CountedRun(j, messages);
    MessageDoes(j, Receive(j, START, messages), m);
    forall i: nat | Stands(j, messages, i)
      ensures i < |messages| && Receive(j, START, messages).meta == AnnouncedBy(j, messages[i])
      ensures AnnouncedBy(j, messages[i]).Some? && Receive(j, START, messages).chunks == DataSince(messages, i)
    {
      StandsThen(j, messages, i);
    }
    if Receive(j, START, messages).meta.Some? {
      var i := StandingWasAnnounced(j, messages);
    }
    hide Receive, Stands, Total, Concat, AnnouncedBy, Counted;
  }

  // ------------------------------------------------------------- one file

  lemma {:induction false} ReceiveSplits(j: Codec, s: State, a: seq<Message>, b: seq<Message>)
    ensures Receive(j, s, a + b) == Receive(j, Receive(j, s, a), b)
  {
    if b == [] {
      assert a + b == a;
    } else {
      assert (a + b)[..|a + b| - 1] == a + b[..|b| - 1];
      ReceiveSplits(j, s, a, b[..|b| - 1]);
    }
  }

  lemma ReceiveOne(j: Codec, s: State, m: seq<Message>, n: nat)
    requires 0 < n <= |m|
    ensures Receive(j, s, m[..n]) == OnMessage(j, Receive(j, s, m[..n - 1]), m[n - 1])
  {
    assert m[..n][..n - 1] == m[..n - 1];
  }

  /** The receiver within file `f`, after its first `n` messages. */
  function Midway(f: File, s: State, n: nat): State
    requires 0 < n <= |Script(f)|
  {
    var cs := Chunks(f.content, 0);
    if n <= |cs| + 1 then State(Some(MetaOf(f)), cs[..n - 1], Total(cs[..n - 1]), s.events + Script(f)[..n])
    else State(None, [], Total(cs), s.events + Script(f))
  }

  lemma MessagesAre(j: Codec, f: File)
    ensures var cs, m := Chunks(f.content, 0), Messages(j, f);
            && |m| == |cs| + 2 && m[0] == Text(j.encode(Announcement(f))) && m[|cs| + 1] == Text(j.encode(Eof))
            && forall i :: 0 < i <= |cs| ==> m[i] == Binary(cs[i - 1])
  {}

  lemma Announced(j: Codec, f: File, s: State)
    requires j.Lawful() && f.name != ""
    ensures |Script(f)| >= 2 && OnText(j, s, j.encode(Announcement(f))) == Midway(f, s, 1)
  {
    ScriptLength(f);
    assert j.decode(j.encode(Announcement(f))) == Some(Announcement(f));
    assert Chunks(f.content, 0)[..0] == [] && Total([]) == 0;
    hide Chunks, Offsets, Total, Codec.Lawful;
    assert Script(f)[..1] == [Script(f)[0]];
  }

  lemma ChunkTaken(f: File, s: State, n: nat)
    requires |Script(f)| == |Chunks(f.content, 0)| + 2 && 0 < n <= |Chunks(f.content, 0)| == |Offsets(f.content, 0)|
    ensures OnBinary(Midway(f, s, n), Chunks(f.content, 0)[n - 1]) == Midway(f, s, n + 1)
  {
    hide Script, Chunks, Offsets, Total;
    ChunkStep(f, n);
  }

  lemma Ended(j: Codec, f: File, s: State)
    requires j.Lawful() && |Script(f)| == |Chunks(f.content, 0)| + 2 && |Chunks(f.content, 0)| == |Offsets(f.content, 0)|
    ensures var n := |Chunks(f.content, 0)| + 1;
            OnText(j, Midway(f, s, n), j.encode(Eof)) == Midway(f, s, n + 1)
  {
    var cs := Chunks(f.content, 0);
    assert j.decode(j.encode(Eof)) == Some(Eof);
    ChunksRebuild(f.content, 0);
    TotalIsLength(cs);
    hide Chunks, Offsets, Total, Concat, Codec.Lawful;
    assert cs[..|cs|] == cs;
    assert Script(f)[|cs| + 1] == Complete(MetaOf(f), f.content);
    assert Script(f) == Script(f)[..|cs| + 1] + [Script(f)[|cs| + 1]];
  }

  /** A named file, from any state at all: one event of its script a message. */
  lemma {:induction false} NamedFileTold(j: Codec, f: File, s: State, n: nat)
    requires j.Lawful() && f.name != "" && n <= |Messages(j, f)|
    ensures |Messages(j, f)| == |Script(f)| >= 2
    ensures Receive(j, s, Messages(j, f)[..n]) == if n == 0 then s else Midway(f, s, n)
  {
    var cs, m := Chunks(f.content, 0), Messages(j, f);
    MessagesAre(j, f);
    ScriptLength(f);
    if n > 0 {
      assert Receive(j, s, m[..0]) == s;
      hide Messages, Chunks, Script, Offsets, OnText, OnBinary, Midway, Receive, Codec.Lawful;
      NamedFileTold(j, f, s, n - 1);
      ReceiveOne(j, s, m, n);
      if n == 1 {
        Announced(j, f, s);
      } else if n <= |cs| + 1 {
        ChunkTaken(f, s, n - 1);
      } else {
        Ended(j, f, s);
      }
    }
  }

  /** Whatever the receiver was doing, the file is told and completed as sent. */
  ghost predicate AlwaysIntact(j: Codec, f: File) {
    forall s :: Receive(j, s, Messages(j, f)).events == s.events + Script(f)
  }

  /** A file with an empty name, when nothing is under way, vanishes. */
  lemma NamelessMessage(j: Codec, f: File, s: State, i: nat)
    requires j.Lawful() && f.name == "" && i < |Messages(j, f)|
    ensures s.meta.None? ==> OnMessage(j, s, Messages(j, f)[i]) == s
    ensures s.meta.Some? && i == 0 ==> OnMessage(j, s, Messages(j, f)[i]) == s
  {
    MessagesAre(j, f);
    assert j.decode(j.encode(Announcement(f))) == Some(Announcement(f));
    assert j.decode(j.encode(Eof)) == Some(Eof);
    hide Messages, Chunks, Codec.Lawful;
  }

  lemma {:induction false} NamelessVanishes(j: Codec, f: File, s: State, n: nat)
    requires j.Lawful() && f.name == "" && s.meta.None? && n <= |Messages(j, f)|
    ensures Receive(j, s, Messages(j, f)[..n]) == s
  {
    if n > 0 {
      hide Messages, Receive, OnMessage, Codec.Lawful;
      NamelessVanishes(j, f, s, n - 1);
      ReceiveOne(j, s, Messages(j, f), n);
      NamelessMessage(j, f, s, n - 1);
    }
  }

  /** The exact condition: a file arrives intact whatever came before it if and
      only if its name is not empty. */
  lemma IntactIffNamed(j: Codec, f: File)
    requires j.Lawful()
    ensures AlwaysIntact(j, f) <==> f.name != ""
  {
    var m := Messages(j, f);
    assert m[..|m|] == m;
    ScriptLength(f);
    if f.name == "" {
      NamelessVanishes(j, f, START, |m|);
      assert Receive(j, START, m).events != START.events + Script(f);
    } else {
      forall s ensures Receive(j, s, m).events == s.events + Script(f) {
        MessagesAre(j, f);
        NamedFileTold(j, f, s, |m|);
      }
    }
  }

  /** A file with an empty name, while another is under way, continues it: its
      chunks are added and its end mark ends the other. */
  lemma {:induction false} NamelessContinues(j: Codec, f: File, s: State, n: nat)
    requires j.Lawful() && f.name == "" && s.meta.Some? && 0 < n < |Messages(j, f)|
    ensures var cs, s' := Chunks(f.content, 0), Receive(j, s, Messages(j, f)[..n]);
            && n <= |cs| + 1
            && s'.meta == s.meta && s'.chunks == s.chunks + cs[..n - 1] && s'.received == s.received + Total(cs[..n - 1])
  {
    var cs, m := Chunks(f.content, 0), Messages(j, f);
    MessagesAre(j, f);
    if n == 1 {
      assert cs[..0] == [] && m[..0] == [] && Receive(j, s, []) == s;
      hide Messages, Chunks, Receive, OnMessage, Codec.Lawful;
      ReceiveOne(j, s, m, 1);
      NamelessMessage(j, f, s, 0);
    } else {
      hide Messages, Chunks, Receive, Total, Codec.Lawful;
      NamelessContinues(j, f, s, n - 1);
      ReceiveOne(j, s, m, n);
      TotalOneMore(cs, n - 1);
    }
  }

  /** The state at the unnamed file's end mark. */
  lemma NamelessBeforeEof(j: Codec, f: File, s: State) returns (s1: State)
    requires j.Lawful() && f.name == "" && s.meta.Some?
    ensures s1.meta == s.meta && s1.received == s.received + |f.content|
    ensures Concat(s1.chunks) == Concat(s.chunks) + f.content
    ensures Receive(j, s, Messages(j, f)) == OnText(j, s1, j.encode(Eof))
  {
    var cs, m := Chunks(f.content, 0), Messages(j, f);
    MessagesAre(j, f);
    assert m[..|m|] == m && cs[..|cs|] == cs;
    ChunksRebuild(f.content, 0);
    TotalIsLength(cs);
    hide Messages, Chunks, Receive, Total, Concat, OnText, Codec.Lawful;
    s1 := Receive(j, s, m[..|m| - 1]);
    NamelessContinues(j, f, s, |m| - 1);
    ReceiveOne(j, s, m, |m|);
    ConcatSplits(s.chunks, cs);
  }

  lemma NamelessEndsTheOther(j: Codec, f: File, s: State)
    requires j.Lawful() && f.name == "" && s.meta.Some?
    ensures var s' := Receive(j, s, Messages(j, f));
            && s'.events != []
            && s'.events[|s'.events| - 1] ==
                 if s.meta.value.size == Some(s.received + |f.content|)
                 then Complete(s.meta.value, Concat(s.chunks) + f.content)
                 else Error("File transfer integrity mismatch")
  {
    assert j.decode(j.encode(Eof)) == Some(Eof);
    hide Messages, Chunks, Receive, Total, Concat, Codec.Lawful;
    var s1 := NamelessBeforeEof(j, f, s);
  }

  // -------------------------------------------------------------- many files

  /** A send that got `sent` messages out. */
  datatype Attempt = Attempt(file: File, sent: nat)

  predicate Fits(j: Codec, a: Attempt) {
    a.sent <= |Messages(j, a.file)|
  }

  function Carried(j: Codec, attempts: seq<Attempt>): seq<Message>
    requires forall a :: a in attempts ==> Fits(j, a)
  {
    if attempts == [] then []
    else
      var a := attempts[|attempts| - 1];
      assert Fits(j, a);
      Carried(j, attempts[..|attempts| - 1]) + Messages(j, a.file)[..a.sent]
  }

  function Told(attempts: seq<Attempt>): seq<Transfer.Event> {
    if attempts == [] then []
    else
      var a := attempts[|attempts| - 1];
      Told(attempts[..|attempts| - 1]) + if a.sent <= |Script(a.file)| then Script(a.file)[..a.sent] else Script(a.file)
  }

  /** Completions, in order. */
  function Completions(events: seq<Transfer.Event>): seq<Transfer.Event> {
    if events == [] then []
    else
      var e := events[|events| - 1];
      Completions(events[..|events| - 1]) + if e.Complete? then [e] else []
  }

  /** The files sent to their end, in order. */
  function Finished(j: Codec, attempts: seq<Attempt>): seq<Transfer.Event> {
    if attempts == [] then []
    else
      var a := attempts[|attempts| - 1];
      Finished(j, attempts[..|attempts| - 1])
      + if a.sent == |Messages(j, a.file)| then [Complete(MetaOf(a.file), a.file.content)] else []
  }

  lemma {:induction false} CompletionsSplit(a: seq<Transfer.Event>, b: seq<Transfer.Event>)
    ensures Completions(a + b) == Completions(a) + Completions(b)
  {
    if b == [] {
      assert a + b == a;
    } else {
      assert (a + b)[..|a + b| - 1] == a + b[..|b| - 1];
      CompletionsSplit(a, b[..|b| - 1]);
    }
  }

  lemma {:induction false} NoCompletions(events: seq<Transfer.Event>)
    requires forall e :: e in events ==> !e.Complete?
    ensures Completions(events) == []
  {
    if events != [] { NoCompletions(events[..|events| - 1]); }
  }

  lemma ScriptCompletes(f: File, n: nat)
    requires n <= |Script(f)|
    ensures Completions(Script(f)[..n]) == if n == |Script(f)| then [Complete(MetaOf(f), f.content)] else []
  {
    var last := |Script(f)| - 1;
    if n <= last {
      NoCompletions(Script(f)[..n]);
    } else {
      assert Script(f)[..n] == Script(f)[..last] + [Script(f)[last]];
      NoCompletions(Script(f)[..last]);
    }
  }

  lemma OneMoreAttempt(j: Codec, before: seq<Attempt>, a: Attempt)
    requires Fits(j, a) && forall b :: b in before ==> Fits(j, b)
    ensures forall b :: b in before + [a] ==> Fits(j, b)
    ensures Carried(j, before + [a]) == Carried(j, before) + Messages(j, a.file)[..a.sent]
    ensures Finished(j, before + [a])
            == Finished(j, before) + if a.sent == |Messages(j, a.file)| then [Complete(MetaOf(a.file), a.file.content)] else []
  {
    hide Messages;
    assert (before + [a])[..|before|] == before;
  }

  lemma OneMoreTold(j: Codec, s: State, a: Attempt)
    requires j.Lawful() && Fits(j, a) && a.file.name != ""
    ensures |Messages(j, a.file)| == |Script(a.file)|
    ensures Receive(j, s, Messages(j, a.file)[..a.sent]).events == s.events + Script(a.file)[..a.sent]
  {
    NamedFileTold(j, a.file, s, a.sent);
    ScriptLength(a.file);
    hide Messages, Script, Receive, Codec.Lawful, Chunks, Total;
    if a.sent == 0 {
      assert Script(a.file)[..0] == [];
    } else if a.sent == |Script(a.file)| {
      assert Script(a.file)[..a.sent] == Script(a.file);
    }
  }

  /** Any sequence of non-overlapping sends of named files, complete or cut short
      anywhere: the receiver completes exactly those sent to their end, in order,
      with their names, types and bytes. */
  lemma {:induction false} DeliversExactlyTheFinished(j: Codec, attempts: seq<Attempt>)
    requires j.Lawful() && forall a :: a in attempts ==> Fits(j, a) && a.file.name != ""
    ensures var events := Receive(j, START, Carried(j, attempts)).events;
            events == Told(attempts) && Completions(events) == Finished(j, attempts)
  {
    if attempts != [] {
      hide Messages, Script, Receive, Completions, Codec.Lawful, Finished, Carried;
      var a, init := attempts[|attempts| - 1], attempts[..|attempts| - 1];
      assert a in attempts && attempts == init + [a];
      assert forall b :: b in init ==> b in attempts;
      DeliversExactlyTheFinished(j, init);
      OneMoreAttempt(j, init, a);
      var s, m := Receive(j, START, Carried(j, init)), Messages(j, a.file)[..a.sent];
      ReceiveSplits(j, START, Carried(j, init), m);
      OneMoreTold(j, s, a);
      ScriptCompletes(a.file, a.sent);
      CompletionsSplit(s.events, Script(a.file)[..a.sent]);
    }
  }

  /** One `sendFile` call and what happened while it ran. */
  datatype Send = Send(file: File, events: seq<Direct.Event>)

  /** The channel after one send after another. */
  function AfterSends(j: Codec, channel: Channel, sends: seq<Send>): Channel {
    if sends == [] then channel
    else
      var last := sends[|sends| - 1];
      Direct.Run(j, last.file, AfterSends(j, channel, sends[..|sends| - 1]), last.events).channel
  }

  /** The files whose `sendFile` resolved, in order. */
  function Resolved(j: Codec, channel: Channel, sends: seq<Send>): seq<Transfer.Event> {
    if sends == [] then []
    else
      var init, last := sends[..|sends| - 1], sends[|sends| - 1];
      Resolved(j, channel, init)
      + if Direct.Run(j, last.file, AfterSends(j, channel, init), last.events).phase == Direct.Finished
        then [Complete(MetaOf(last.file), last.file.content)] else []
  }

  lemma OneMoreSend(j: Codec, channel: Channel, sends: seq<Send>)
    requires sends != []
    ensures var init, last := sends[..|sends| - 1], sends[|sends| - 1];
            var run := Direct.Run(j, last.file, AfterSends(j, channel, init), last.events);
            && AfterSends(j, channel, sends) == run.channel
            && Resolved(j, channel, sends)
               == Resolved(j, channel, init)
                  + if run.phase == Direct.Finished then [Complete(MetaOf(last.file), last.file.content)] else []
  {
    hide Direct.Run;
  }

  lemma NoSends(j: Codec, channel: Channel)
    ensures AfterSends(j, channel, []) == channel && Resolved(j, channel, []) == []
    ensures Carried(j, []) == [] && Finished(j, []) == []
  {}

  lemma {:induction false} SendsAreAttempts(j: Codec, channel: Channel, sends: seq<Send>) returns (attempts: seq<Attempt>)
    requires channel.sent == []
    ensures |attempts| == |sends| && forall i :: 0 <= i < |sends| ==> attempts[i].file == sends[i].file
    ensures forall a :: a in attempts ==> Fits(j, a)
    ensures AfterSends(j, channel, sends).sent == Carried(j, attempts)
    ensures Finished(j, attempts) == Resolved(j, channel, sends)
  {
    hide Messages, Direct.Run, Carried, Finished, AfterSends, Resolved;
    attempts := [];
    if sends == [] {
      NoSends(j, channel);
    } else {
      var init, last := sends[..|sends| - 1], sends[|sends| - 1];
      var before := SendsAreAttempts(j, channel, init);
      OneMoreSend(j, channel, sends);
      var n := Direct.SentInOrder(j, last.file, AfterSends(j, channel, init), last.events);
      OneMoreAttempt(j, before, Attempt(last.file, n));
      attempts := before + [Attempt(last.file, n)];
    }
  }

  /** From the host's `sendFile` calls to the guest's `onComplete` calls: with no
      two sends overlapping and everything sent delivered, what completes is what
      resolved, whatever the network did to each send. */
  lemma CompletesWhatResolved(j: Codec, channel: Channel, sends: seq<Send>)
    requires j.Lawful() && channel.sent == []
    requires forall i :: 0 <= i < |sends| ==> sends[i].file.name != ""
    ensures Completions(Receive(j, START, AfterSends(j, channel, sends).sent).events) == Resolved(j, channel, sends)
  {
    var attempts := SendsAreAttempts(j, channel, sends);
    hide Messages, Receive, Completions, Finished, Resolved, AfterSends, Carried, Codec.Lawful;
    DeliversExactlyTheFinished(j, attempts);
  }

}