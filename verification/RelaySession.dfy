/** Relay sessions: approval, expiry, two-sided attach, bridging and release
    (server/relay.go).  Peer ids and tokens are only compared, and a connection
    is only stored, so all three are numbers; instants are integer nanoseconds. */
module RelaySession {
  import opened Common

  type Token = nat
  type Id = nat
  type Conn = nat

  const MAX_SESSIONS: int := 5
  const TOKEN_TIMEOUT: int := 30_000_000_000

  datatype Session = Session(
    token: Token, room: nat, host: Id, guest: Id, createdAt: int,
    hostConn: Option<Conn>, guestConn: Option<Conn>, active: bool)

  /** `started` lists every bridge ever started, in order; `running` are those
      whose goroutine has not ended. */
  datatype State = State(
    approved: map<Token, Session>, activeCount: int, started: seq<Session>, running: set<nat>)

  datatype Reply = Ok | Err(reason: string)

  const START: State := State(map[], 0, [], {})

  function Create(s: State, token: Token, room: nat, host: Id, guest: Id, now: int): (State, Reply) {
    if s.activeCount >= MAX_SESSIONS then (s, Err("global concurrent relay sessions limit reached"))
    else (s.(approved := s.approved[token := Session(token, room, host, guest, now, None, None, false)]), Ok)
  }

  /** The clean-up goroutine of a token wakes. */
  function Expire(s: State, token: Token): State {
    if token in s.approved && !s.approved[token].active then s.(approved := s.approved - {token}) else s
  }

  function Attach(session: Session, peer: Id, conn: Conn): (Session, Reply) {
    if peer == session.host then
      if session.hostConn.Some? then (session, Err("host already connected to relay"))
      else (session.(hostConn := Some(conn)), Ok)
    else if peer == session.guest then
      if session.guestConn.Some? then (session, Err("guest already connected to relay"))
      else (session.(guestConn := Some(conn)), Ok)
    else (session, Err("unauthorized peer ID for this relay token"))
  }

  predicate Complete(session: Session) {
    session.hostConn.Some? && session.guestConn.Some? && !session.active
  }

  function Connect(s: State, token: Token, peer: Id, conn: Conn, now: int): (State, Reply) {
    if token !in s.approved then (s, Err("invalid or expired relay token"))
    else if now - s.approved[token].createdAt > TOKEN_TIMEOUT then
      (s.(approved := s.approved - {token}), Err("relay token expired"))
    else
      var (session, reply) := Attach(s.approved[token], peer, conn);
      if reply.Err? then (s, reply)
      else if Complete(session) then
        (State(s.approved - {token}, s.activeCount + 1, s.started + [session.(active := true)],
               s.running + {|s.started|}), Ok)
      else (s.(approved := s.approved[token := session]), Ok)
  }

  /** A bridge's goroutine returns. */
  function End(s: State, k: nat): State {
    if k in s.running then s.(activeCount := s.activeCount - 1, running := s.running - {k}) else s
  }

  class RelayManager {
    var approved: map<Token, Session>
    var activeCount: int
    ghost var started: seq<Session>
    ghost var running: set<nat>

    constructor ()
      ensures View() == START
    {
      approved, activeCount, started, running := map[], 0, [], {};
    }

    ghost function View(): State
      reads this
    {
      State(approved, activeCount, started, running)
    }

    method CreateSession(token: Token, room: nat, host: Id, guest: Id, now: int) returns (reply: Reply)
      modifies this
      ensures (View(), reply) == Create(old(View()), token, room, host, guest, now)
    {
      if activeCount >= MAX_SESSIONS {
        return Err("global concurrent relay sessions limit reached");
      }
      approved := approved[token := Session(token, room, host, guest, now, None, None, false)];
      return Ok;
    }

    method TokenTimer(token: Token)
      modifies this
      ensures View() == Expire(old(View()), token)
    {
      if token in approved && !approved[token].active {
        approved := approved - {token};
      }
    }

    method ConnectPeer(token: Token, peer: Id, conn: Conn, now: int) returns (reply: Reply)
      modifies this
      ensures (View(), reply) == Connect(old(View()), token, peer, conn, now)
    {
      if token !in approved {
        return Err("invalid or expired relay token");
      }
      var session := approved[token];
      if now - session.createdAt > TOKEN_TIMEOUT {
        approved := approved - {token};
        return Err("relay token expired");
      }
      if peer == session.host {
        if session.hostConn.Some? {
          return Err("host already connected to relay");
        }
        session := session.(hostConn := Some(conn));
      } else if peer == session.guest {
        if session.guestConn.Some? {
          return Err("guest already connected to relay");
        }
        session := session.(guestConn := Some(conn));
      } else {
        return Err("unauthorized peer ID for this relay token");
      }
      approved := approved[token := session];
      if session.hostConn.Some? && session.guestConn.Some? && !session.active {
        session := session.(active := true);
        approved := approved - {token};
        activeCount := activeCount + 1;
        running := running + {|started|};
        started := started + [session];
        assert approved == old(approved) - {token};
      }
      return Ok;
    }

    method BridgeEnded(k: nat)
      requires k in running
      modifies this
      ensures View() == End(old(View()), k)
    {
      running := running - {k};
      activeCount := activeCount - 1;
    }
  }

  // ---------------------------------------------------------------------- runs

  datatype Event =
    | Approve(token: Token, room: nat, host: Id, guest: Id, now: int)
    | Timer(token: Token, now: int)
    | Join(token: Token, peer: Id, conn: Conn, now: int)
    | Stop(k: nat, now: int)

  /** Tokens ever handed out. */
  function Tokens(es: seq<Event>): set<Token> {
    set i | 0 <= i < |es| && es[i].Approve? :: es[i].token
  }

  /** Random tokens do not repeat, and a timer sleeps its full time. */
  predicate Enabled(es: seq<Event>, s: State, e: Event) {
    match e
    case Approve(token, _, _, _, _) => token !in Tokens(es)
    case Timer(token, now) => token in s.approved ==> now >= s.approved[token].createdAt + TOKEN_TIMEOUT
    case _ => true
  }

  function Step(s: State, e: Event): State {
    match e
    case Approve(token, room, host, guest, now) => Create(s, token, room, host, guest, now).0
    case Timer(token, _) => Expire(s, token)
    case Join(token, peer, conn, now) => Connect(s, token, peer, conn, now).0
    case Stop(k, _) => End(s, k)
  }

  function Run(es: seq<Event>): State {
    if es == [] then START
    else
      var s := Run(es[..|es| - 1]);
      if Enabled(es[..|es| - 1], s, es[|es| - 1]) then Step(s, es[|es| - 1]) else s
  }

  /** Only inactive sessions that still wait for a side are approved. */
  ghost predicate Waiting(s: State, tokens: set<Token>) {
    forall t :: t in s.approved ==>
      var a := s.approved[t];
      t in tokens && a.token == t && !a.active && (a.hostConn.None? || a.guestConn.None?)
      && (a.guestConn.Some? ==> a.host != a.guest)
  }

  /** Bridges have both sides, of two peers, and no token in common with anything. */
  ghost predicate Bridged(s: State, tokens: set<Token>) {
    && (forall k :: 0 <= k < |s.started| ==>
          var b := s.started[k];
          && b.token in tokens && b.token !in s.approved && b.active
          && b.hostConn.Some? && b.guestConn.Some? && b.host != b.guest)
    && (forall k, m :: 0 <= k < m < |s.started| ==> s.started[k].token != s.started[m].token)
  }

  ghost predicate Counted(s: State) {
    (forall k :: k in s.running ==> k < |s.started|) && s.activeCount == |s.running|
  }

  ghost predicate Inv(s: State, tokens: set<Token>) {
    Waiting(s, tokens) && Bridged(s, tokens) && Counted(s)
  }

  lemma StepWaiting(s: State, tokens: set<Token>, e: Event)
    requires Waiting(s, tokens)
    ensures Waiting(Step(s, e), if e.Approve? then tokens + {e.token} else tokens)
  {}

  lemma ConnectBridged(s: State, tokens: set<Token>, token: Token, peer: Id, conn: Conn, now: int)
    requires Waiting(s, tokens) && Bridged(s, tokens)
    ensures Bridged(Connect(s, token, peer, conn, now).0, tokens)
  {
    var s' := Connect(s, token, peer, conn, now).0;
    assert forall t :: t in s'.approved ==> t in s.approved;
    if |s'.started| > |s.started| {
      assert s'.started == s.started + [s'.started[|s.started|]];
    } else {
      assert s'.started == s.started;
    }
  }

  lemma StepBridged(s: State, tokens: set<Token>, e: Event)
    requires Waiting(s, tokens) && Bridged(s, tokens) && (e.Approve? ==> e.token !in tokens)
    ensures Bridged(Step(s, e), if e.Approve? then tokens + {e.token} else tokens)
  {
    hide Waiting;
    match e {
      case Join(token, peer, conn, now) =>
        ConnectBridged(s, tokens, token, peer, conn, now);
        hide Connect, Bridged;
      case _ => hide Connect;
    }
  }

  lemma OneMoreRunning(running: set<nat>, k: nat)
    requires k !in running
    ensures |running + {k}| == |running| + 1
  {}

  lemma ConnectCounted(s: State, token: Token, peer: Id, conn: Conn, now: int)
    requires Counted(s)
    ensures Counted(Connect(s, token, peer, conn, now).0)
  {
    hide Attach, Complete;
    OneMoreRunning(s.running, |s.started|);
  }

  lemma StepCounted(s: State, e: Event)
    requires Counted(s)
    ensures Counted(Step(s, e))
  {
    match e {
      case Join(token, peer, conn, now) =>
        ConnectCounted(s, token, peer, conn, now);
        hide Connect, Counted;
      case Stop(k, _) =>
        if k in s.running {
          assert |s.running - {k}| == |s.running| - 1;
        }
      case _ => hide Connect;
    }
  }

  lemma StepKeepsInv(s: State, tokens: set<Token>, e: Event)
    requires Inv(s, tokens) && (e.Approve? ==> e.token !in tokens)
    ensures Inv(Step(s, e), if e.Approve? then tokens + {e.token} else tokens)
  {
    hide Waiting, Bridged, Counted, Step;
    StepWaiting(s, tokens, e);
    StepBridged(s, tokens, e);
    StepCounted(s, e);
  }

  /** Over every run: the approved table holds only inactive, incomplete sessions;
      each token starts at most one bridge; a session whose host is its guest
      never becomes one; `activeCount` is the number of bridges running. */
  lemma {:induction false} AlwaysInv(es: seq<Event>)
    ensures Inv(Run(es), Tokens(es))
  {
    if es != [] {
      var es0, e := es[..|es| - 1], es[|es| - 1];
      AlwaysInv(es0);
      assert Tokens(es) == Tokens(es0) + if e.Approve? then {e.token} else {} by {
        assert es == es0 + [e];
      }
      if Enabled(es0, Run(es0), e) { StepKeepsInv(Run(es0), Tokens(es0), e); }
    }
  }

  // ------------------------------------------------------------------- origins

  /** Event `i` of the run approved session `b`. */
  ghost predicate ApprovedAt(es: seq<Event>, b: Session, i: nat) {
    i < |es| && es[i] == Approve(b.token, b.room, b.host, b.guest, b.createdAt)
    && Enabled(es[..i], Run(es[..i]), es[i]) && Run(es[..i]).activeCount < MAX_SESSIONS
  }

  /** Event `i` attached `peer` to session `b` over `conn`, after `c` and in time. */
  ghost predicate AttachedAt(es: seq<Event>, b: Session, peer: Id, conn: Conn, c: nat, i: nat) {
    c < i < |es| && es[i].Join? && es[i].token == b.token && es[i].peer == peer && es[i].conn == conn
    && es[i].now <= b.createdAt + TOKEN_TIMEOUT
  }

  /** Event `c` approved `b`, and what its slots hold came from its own two peers. */
  ghost predicate Origin(es: seq<Event>, b: Session, c: nat) {
    && ApprovedAt(es, b, c)
    && (b.hostConn.Some? ==> exists h: nat :: AttachedAt(es, b, b.host, b.hostConn.value, c, h))
    && (b.guestConn.Some? ==> exists g: nat :: AttachedAt(es, b, b.guest, b.guestConn.value, c, g))
  }

  ghost predicate Traced(es: seq<Event>, b: Session) {
    exists c: nat :: Origin(es, b, c)
  }

  /** A longer run, and slots filled in the meantime. */
  lemma OriginLater(es: seq<Event>, a: Session, b: Session, c: nat)
    requires es != [] && Origin(es[..|es| - 1], a, c)
    requires b.(hostConn := a.hostConn, guestConn := a.guestConn, active := a.active) == a
    requires b.hostConn == a.hostConn || (b.hostConn.Some? && AttachedAt(es, b, b.host, b.hostConn.value, c, |es| - 1))
    requires b.guestConn == a.guestConn || (b.guestConn.Some? && AttachedAt(es, b, b.guest, b.guestConn.value, c, |es| - 1))
    ensures Origin(es, b, c)
  {
    var es0 := es[..|es| - 1];
    assert es0[..c] == es[..c] && es0[c] == es[c];
    if b.hostConn.Some? && b.hostConn == a.hostConn {
      var h: nat :| AttachedAt(es0, a, a.host, a.hostConn.value, c, h);
      assert AttachedAt(es, b, b.host, b.hostConn.value, c, h);
    }
    if b.guestConn.Some? && b.guestConn == a.guestConn {
      var g: nat :| AttachedAt(es0, a, a.guest, a.guestConn.value, c, g);
      assert AttachedAt(es, b, b.guest, b.guestConn.value, c, g);
    }
  }

  lemma TracedLater(es: seq<Event>, b: Session)
    requires es != [] && Traced(es[..|es| - 1], b)
    ensures Traced(es, b)
  {
    var c: nat :| Origin(es[..|es| - 1], b, c);
    OriginLater(es, b, b, c);
  }

  /** A connection that is accepted keeps the session traced. */
  lemma TracedAttach(es: seq<Event>, a: Session, active: bool)
    requires es != [] && es[|es| - 1].Join? && es[|es| - 1].token == a.token && Traced(es[..|es| - 1], a)
    requires es[|es| - 1].now <= a.createdAt + TOKEN_TIMEOUT
    requires var e := es[|es| - 1]; Attach(a, e.peer, e.conn).1.Ok?
    ensures var e := es[|es| - 1]; Traced(es, Attach(a, e.peer, e.conn).0.(active := active))
  {
    var e := es[|es| - 1];
    var c: nat :| Origin(es[..|es| - 1], a, c);
    var b := Attach(a, e.peer, e.conn).0.(active := active);
    assert AttachedAt(es, b, e.peer, e.conn, c, |es| - 1);
    OriginLater(es, a, b, c);
  }

  ghost predicate EachTraced(es: seq<Event>, s: State) {
    && (forall t :: t in s.approved ==> Traced(es, s.approved[t]))
    && (forall k :: 0 <= k < |s.started| ==> Traced(es, s.started[k]))
  }

  lemma ApprovalTraced(es: seq<Event>)
    requires es != [] && es[|es| - 1].Approve?
    requires var es0, e := es[..|es| - 1], es[|es| - 1];
             Enabled(es0, Run(es0), e) && Run(es0).activeCount < MAX_SESSIONS
    ensures var e := es[|es| - 1]; Traced(es, Session(e.token, e.room, e.host, e.guest, e.now, None, None, false))
  {
    var e := es[|es| - 1];
    hide Run, Enabled;
    assert Origin(es, Session(e.token, e.room, e.host, e.guest, e.now, None, None, false), |es| - 1);
  }

  lemma StepTraced(es: seq<Event>, s: State)
    requires es != [] && s == Run(es[..|es| - 1]) && EachTraced(es[..|es| - 1], s) && Inv(s, Tokens(es[..|es| - 1]))
    requires Enabled(es[..|es| - 1], s, es[|es| - 1])
    ensures EachTraced(es, Step(s, es[|es| - 1]))
  {
    hide Run, Traced, Enabled, Bridged, Counted;
    var es0, e := es[..|es| - 1], es[|es| - 1];
    forall b | Traced(es0, b) ensures Traced(es, b) { TracedLater(es, b); }
    if e.Approve? && s.activeCount < MAX_SESSIONS {
      ApprovalTraced(es);
    } else if e.Join? && Connect(s, e.token, e.peer, e.conn, e.now).1.Ok? {
      TracedAttach(es, s.approved[e.token], false);
      TracedAttach(es, s.approved[e.token], true);
    }
    hide Attach;
  }

  /** Every session, approved or bridged, is traced. */
  lemma {:induction false} AllTraced(es: seq<Event>)
    ensures EachTraced(es, Run(es))
  {
    if es != [] {
      var es0 := es[..|es| - 1];
      AllTraced(es0);
      AlwaysInv(es0);
      if Enabled(es0, Run(es0), es[|es| - 1]) {
        StepTraced(es, Run(es0));
      } else {
        forall b | Traced(es0, b) ensures Traced(es, b) { TracedLater(es, b); }
      }
      hide Traced, Enabled, Step, Inv;
    }
  }

  /** A bridge joins exactly the approved host and guest, each attached after the
      approval and within `TOKEN_TIMEOUT` of it. */
  lemma BridgeOrigin(es: seq<Event>, k: nat) returns (c: nat, h: nat, g: nat)
    requires k < |Run(es).started|
    ensures var b := Run(es).started[k];
            && b.hostConn.Some? && b.guestConn.Some? && b.host != b.guest
            && ApprovedAt(es, b, c)
            && AttachedAt(es, b, b.host, b.hostConn.value, c, h)
            && AttachedAt(es, b, b.guest, b.guestConn.value, c, g)
  {
    AllTraced(es);
    AlwaysInv(es);
    var b := Run(es).started[k];
    c :| Origin(es, b, c);
    h :| AttachedAt(es, b, b.host, b.hostConn.value, c, h);
    g :| AttachedAt(es, b, b.guest, b.guestConn.value, c, g);
  }

  /** A slot once filled is never changed, and a bridge once started is never
      altered. */
  lemma SlotsAreWriteOnce(es: seq<Event>, s: State, e: Event, t: Token)
    requires Inv(s, Tokens(es)) && Enabled(es, s, e)
    requires t in s.approved && t in Step(s, e).approved
    ensures var a, b := s.approved[t], Step(s, e).approved[t];
            && (a.hostConn.Some? ==> b.hostConn == a.hostConn) && (a.guestConn.Some? ==> b.guestConn == a.guestConn)
            && b.(hostConn := None, guestConn := None) == a.(hostConn := None, guestConn := None)
    ensures s.started <= Step(s, e).started
  {}

  /** A side of the session that `peer` may still take. */
  predicate FreeSideOf(session: Session, peer: Id) {
    if peer == session.host then session.hostConn.None? else peer == session.guest && session.guestConn.None?
  }

  /** An attach is accepted if and only if the token is approved, at most 30 seconds
      old, and the peer's own side is free; and it starts a bridge, of this session
      over these connections, if and only if the other side was already there.  If it was
      not, the session keeps the connection. */
  lemma AttachedIffOwnSideFree(s: State, tokens: set<Token>, token: Token, peer: Id, conn: Conn, now: int)
    requires Inv(s, tokens)
    ensures var (s', reply) := Connect(s, token, peer, conn, now);
            && (reply == Ok <==>
                  && token in s.approved && now - s.approved[token].createdAt <= TOKEN_TIMEOUT
                  && FreeSideOf(s.approved[token], peer))
            && (|s'.started| > |s.started| <==>
                  reply == Ok && if peer == s.approved[token].host then s.approved[token].guestConn.Some?
                                 else s.approved[token].hostConn.Some?)
            && (|s'.started| > |s.started| ==>
                  var a, b := s.approved[token], s'.started[|s.started|];
                  && token !in s'.approved && s'.activeCount == s.activeCount + 1
                  && b == a.(active := true, hostConn := if peer == a.host then Some(conn) else a.hostConn,
                             guestConn := if peer == a.host then a.guestConn else Some(conn)))
            && (reply == Ok && |s'.started| == |s.started| ==>
                  var a := s.approved[token];
                  s' == s.(approved := s.approved[token := if peer == a.host then a.(hostConn := Some(conn))
                                                           else a.(guestConn := Some(conn))]))
            && (reply != Ok && (token in s.approved ==> now - s.approved[token].createdAt <= TOKEN_TIMEOUT) ==> s' == s)
  {
    hide Bridged, Counted;
  }

  /** A peer that takes its free side in time while the other side is there. */
  predicate Completes(s: State, e: Event) {
    && e.Join? && e.token in s.approved
    && var a := s.approved[e.token];
       && e.now - a.createdAt <= TOKEN_TIMEOUT && FreeSideOf(a, e.peer)
       && (if e.peer == a.host then a.guestConn.Some? else a.hostConn.Some?)
  }

  // ------------------------------------------------------------ the count, from the events

  /** Bridge `k` was stopped after it was started. */
  ghost predicate StoppedBy(es: seq<Event>, k: nat) {
    exists i :: 0 <= i < |es| && StoppedAt(es, k, i)
  }

  predicate StoppedAt(es: seq<Event>, k: nat, i: nat)
    requires i < |es|
  {
    es[i].Stop? && es[i].k == k < |Run(es[..i]).started|
  }

  /** The bridges stopped so far. */
  ghost function Ended(es: seq<Event>): set<nat> {
    set k: nat | k < |Run(es).started| && StoppedBy(es, k)
  }

  lemma StoppedLater(es: seq<Event>, k: nat)
    requires es != []
    ensures StoppedBy(es, k) <==> StoppedBy(es[..|es| - 1], k) || StoppedAt(es, k, |es| - 1)
  {
    var es0 := es[..|es| - 1];
    hide Run;
    assert forall i :: 0 <= i < |es0| ==> es0[..i] == es[..i] && es0[i] == es[i];
    assert forall i :: 0 <= i < |es0| ==> (StoppedAt(es0, k, i) <==> StoppedAt(es, k, i));
    hide StoppedAt;
    if StoppedBy(es0, k) {
      var i :| 0 <= i < |es0| && StoppedAt(es0, k, i);
      assert StoppedAt(es, k, i);
    }
  }

  lemma {:induction false} NotYetStopped(es: seq<Event>, k: nat)
    requires k >= |Run(es).started|
    ensures !StoppedBy(es, k)
  {
    if es != [] {
      var es0 := es[..|es| - 1];
      StartedGrows(es);
      NotYetStopped(es0, k);
      StoppedLater(es, k);
      assert es[..|es| - 1] == es0;
    }
  }

  /** What one step does to the bridges that run. */
  lemma StepRunning(s: State, e: Event)
    ensures var s' := Step(s, e);
            && |s.started| <= |s'.started|
            && s'.running == (if e.Stop? then s.running - {e.k}
                              else if |s'.started| > |s.started| then s.running + {|s.started|} else s.running)
            && (e.Stop? ==> s'.started == s.started)
            && |s'.started| <= |s.started| + 1
  {
    hide Attach, Complete;
  }

  lemma StartedGrows(es: seq<Event>)
    requires es != []
    ensures |Run(es[..|es| - 1]).started| <= |Run(es).started|
  {
    StepRunning(Run(es[..|es| - 1]), es[|es| - 1]);
    hide Step;
  }

  /** A bridge runs from its start to its first stop. */
  lemma {:induction false} RunningIffNotStopped(es: seq<Event>, k: nat)
    ensures k in Run(es).running <==> k < |Run(es).started| && !StoppedBy(es, k)
  {
    if es != [] {
      var es0, e := es[..|es| - 1], es[|es| - 1];
      RunningIffNotStopped(es0, k);
      StoppedLater(es, k);
      StepRunning(Run(es0), e);
      if k == |Run(es0).started| {
        NotYetStopped(es0, k);
      }
      assert Run(es) == (if Enabled(es0, Run(es0), e) then Step(Run(es0), e) else Run(es0));
      assert e.Stop? ==> Enabled(es0, Run(es0), e);
      hide Run, Step, Enabled, StoppedBy;
    }
  }

  /** In every run the count is the number of bridges started less the number of those
      stopped since. */
  lemma CountIsStartedLessEnded(es: seq<Event>)
    ensures Run(es).activeCount == |Run(es).started| - |Ended(es)|
  {
    AlwaysInv(es);
    var s, all := Run(es), Below(|Run(es).started|);
    forall k: nat ensures k in s.running <==> k in all - Ended(es) { RunningIffNotStopped(es, k); }
    hide Run, Waiting, Bridged, StoppedBy;
    assert s.running == all - Ended(es) && Ended(es) <= all;
  }

  /** The numbers below `n`. */
  ghost function Below(n: nat): (r: set<nat>)
    ensures |r| == n && forall k: nat :: k in r <==> k < n
  {
    if n == 0 then {} else Below(n - 1) + {n - 1}
  }

  /** A fresh request is approved if and only if fewer than five bridges run, that is,
      were started and not stopped since; then its session waits for both sides.  A
      refusal changes nothing. */
  lemma ApprovedIffFewerThanFive(es: seq<Event>, token: Token, room: nat, host: Id, guest: Id, now: int)
    requires token !in Tokens(es)
    ensures var s, s' := Run(es), Run(es + [Approve(token, room, host, guest, now)]);
            if |s.started| - |Ended(es)| < 5
            then s' == s.(approved := s.approved[token := Session(token, room, host, guest, now, None, None, false)])
            else s' == s && token !in s'.approved
  {
    CountIsStartedLessEnded(es);
    AlwaysInv(es);
    AfterEvent(es, Approve(token, room, host, guest, now));
    hide Run, Ended, Bridged, Counted;
  }

  lemma AfterEvent(es: seq<Event>, e: Event)
    ensures Run(es + [e]) == if Enabled(es, Run(es), e) then Step(Run(es), e) else Run(es)
  {
    assert (es + [e])[..|es|] == es;
  }

  /** In particular, once every bridge started has stopped. */
  lemma AllStoppedAdmits(es: seq<Event>, token: Token, room: nat, host: Id, guest: Id, now: int)
    requires token !in Tokens(es) && forall k: nat :: k < |Run(es).started| ==> StoppedBy(es, k)
    ensures Run(es).activeCount == 0
    ensures token in Run(es + [Approve(token, room, host, guest, now)]).approved
  {
    CountIsStartedLessEnded(es);
    ApprovedIffFewerThanFive(es, token, room, host, guest, now);
    hide Run, StoppedBy;
    assert Ended(es) == Below(|Run(es).started|);
  }

  /** Event `c` approved `token`, fewer than five bridges running. */
  ghost predicate GrantedAt(es: seq<Event>, token: Token, c: nat) {
    && c < |es| && es[c].Approve? && es[c].token == token && token !in Tokens(es[..c])
    && |Run(es[..c]).started| - |Ended(es[..c])| < 5
  }

  /** Event `i` ends what event `c` approved: the token's timer, an attach that comes
      too late, or the second of its two peers. */
  predicate DropsAt(es: seq<Event>, c: nat, i: nat)
    requires c < |es| && es[c].Approve? && i < |es|
  {
    || (es[i].Timer? && es[i].token == es[c].token && es[i].now >= es[c].now + 30_000_000_000)
    || (es[i].Join? && es[i].token == es[c].token && es[i].now > es[c].now + 30_000_000_000)
    || (Completes(Run(es[..i]), es[i]) && es[i].token == es[c].token)
  }

  ghost predicate Stands(es: seq<Event>, token: Token, c: nat) {
    GrantedAt(es, token, c) && forall i :: c < i < |es| ==> !DropsAt(es, c, i)
  }

  lemma GrantedEarlier(es: seq<Event>, token: Token, c: nat)
    requires es != [] && c < |es| - 1
    ensures GrantedAt(es, token, c) <==> GrantedAt(es[..|es| - 1], token, c)
  {
    assert es[..|es| - 1][..c] == es[..c];
    hide Run, Ended;
  }

  lemma StandsSnoc(es: seq<Event>, token: Token, c: nat)
    requires es != [] && c < |es| - 1
    ensures Stands(es, token, c) <==> Stands(es[..|es| - 1], token, c) && !DropsAt(es, c, |es| - 1)
  {
    var es0 := es[..|es| - 1];
    GrantedEarlier(es, token, c);
    hide GrantedAt, Run, Completes;
    assert forall i :: 0 <= i < |es0| ==> es0[..i] == es[..i] && es0[i] == es[i];
    if es[c].Approve? {
      assert forall i :: 0 <= i < |es0| ==> (DropsAt(es0, c, i) <==> DropsAt(es, c, i));
    }
    hide DropsAt;
  }

  /** What one event does to one waiting session. */
  lemma SessionAfter(s: State, tokens: set<Token>, e: Event, t: Token)
    requires Inv(s, tokens) && t in s.approved && (e.Approve? ==> e.token !in tokens)
    ensures t in Step(s, e).approved <==>
            !((e.Timer? || e.Join?) && e.token == t
              && (e.Timer? || e.now > s.approved[t].createdAt + 30_000_000_000 || Completes(s, e)))
    ensures t in Step(s, e).approved ==> Step(s, e).approved[t].createdAt == s.approved[t].createdAt
  {
    hide Bridged, Counted;
  }

  /** A token still stands for a session if and only if it was approved and nothing of
      its own ended it: no event of another token does. */
  lemma {:induction false} WaitingIffStands(es: seq<Event>, t: Token, c: nat)
    requires c < |es| && es[c].Approve? && es[c].token == t && t !in Tokens(es[..c])
    ensures t in Run(es).approved <==> Stands(es, t, c)
    ensures t in Run(es).approved ==> Run(es).approved[t].createdAt == es[c].now
  {
    var es0, e := es[..|es| - 1], es[|es| - 1];
    assert es == es0 + [e];
    if c == |es| - 1 {
      ApprovedIffFewerThanFive(es0, t, e.room, e.host, e.guest, e.now);
      hide Run, Ended;
    } else {
      assert es0[..c] == es[..c] && es0[c] == es[c];
      WaitingIffStands(es0, t, c);
      StandsSnoc(es, t, c);
      AlwaysInv(es0);
      AfterEvent(es0, e);
      assert t in Tokens(es0);
      if t in Run(es0).approved {
        if Enabled(es0, Run(es0), e) {
          SessionAfter(Run(es0), Tokens(es0), e, t);
        }
      } else {
        StaysAway(es0, e, t);
      }
      hide Run, Stands, Inv, Completes;
    }
  }

  lemma StaysAway(es: seq<Event>, e: Event, t: Token)
    requires t in Tokens(es) && t !in Run(es).approved
    ensures t !in Run(es + [e]).approved
  {
    AfterEvent(es, e);
    hide Run, Attach, Complete;
  }

  // ------------------------------------------------------------ the session cap

  /** No state of the run has more than the maximum of active bridges. */
  ghost predicate WithinCap(es: seq<Event>) {
    forall i :: 0 <= i <= |es| ==> CapHolds(es[..i])
  }

  predicate CapHolds(es: seq<Event>) {
    Run(es).activeCount <= MAX_SESSIONS
  }

  /** No second peer attaches while the maximum is reached. */
  ghost predicate NoneTooMany(es: seq<Event>) {
    forall i {:trigger es[i]} :: 0 <= i < |es| && Run(es[..i]).activeCount == MAX_SESSIONS ==>
      !Completes(Run(es[..i]), es[i])
  }

  lemma WithinCapSnoc(es: seq<Event>)
    requires es != []
    ensures WithinCap(es) <==> WithinCap(es[..|es| - 1]) && CapHolds(es)
  {
    hide CapHolds;
    var es0 := es[..|es| - 1];
    assert es[..|es|] == es;
    assert forall i :: 0 <= i <= |es0| ==> es0[..i] == es[..i];
  }

  lemma NoneTooManySnoc(es: seq<Event>)
    requires es != []
    ensures var es0, e := es[..|es| - 1], es[|es| - 1];
            NoneTooMany(es) <==> NoneTooMany(es0) && (Run(es0).activeCount == MAX_SESSIONS ==> !Completes(Run(es0), e))
  {
    hide Run, Completes;
    var es0 := es[..|es| - 1];
    assert forall i {:trigger es0[i]} :: 0 <= i < |es0| ==> es0[..i] == es[..i] && es0[i] == es[i];
    assert forall i {:trigger es[i]} :: 0 <= i < |es0| ==> es0[..i] == es[..i] && es0[i] == es[i];
  }

  /** The count rises, by one, exactly when a session is completed, and falls, by one,
      exactly when a bridge that was started stops for the first time. */
  lemma CountMovesIff(es: seq<Event>)
    requires es != []
    ensures var es0, e := es[..|es| - 1], es[|es| - 1];
            Run(es).activeCount
            == Run(es0).activeCount + (if Completes(Run(es0), e) then 1
                                       else if e.Stop? && e.k < |Run(es0).started| && !StoppedBy(es0, e.k) then -1 else 0)
  {
    var es0, e := es[..|es| - 1], es[|es| - 1];
    AlwaysInv(es0);
    if e.Join? {
      AttachedIffOwnSideFree(Run(es0), Tokens(es0), e.token, e.peer, e.conn, e.now);
    } else if e.Stop? {
      RunningIffNotStopped(es0, e.k);
    }
    hide Waiting, Bridged, StoppedBy;
  }

  /** The maximum is respected exactly by the runs in which no second side is taken
      while it is reached: the code tests it when a session is approved and not when
      the session becomes active. */
  lemma {:induction false} WithinCapIff(es: seq<Event>)
    ensures WithinCap(es) <==> NoneTooMany(es)
  {
    if es == [] {
      assert es[..0] == [];
    } else {
      var es0 := es[..|es| - 1];
      WithinCapIff(es0);
      WithinCapSnoc(es);
      NoneTooManySnoc(es);
      CountMovesIff(es);
      assert WithinCap(es0) ==> CapHolds(es0) by {
        assert es0[..|es0|] == es0;
      }
      hide Run, Completes, NoneTooMany, WithinCap;
    }
  }

  // ------------------------------------------------- any number at once

  /** `n` sessions are approved before any of them is used ... */
  function Approvals(n: nat): seq<Event> {
    seq(n, i requires 0 <= i => Approve(i, 0, 0, 1, 0))
  }

  /** ... and then the first `k` of them are attached from both sides. */
  function Attaches(k: nat): seq<Event> {
    if k == 0 then [] else Attaches(k - 1) + [Join(k - 1, 0, 0, 0), Join(k - 1, 1, 1, 0)]
  }

  function Open(i: nat): Session {
    Session(i, 0, 0, 1, 0, None, None, false)
  }

  lemma {:induction false} AfterApprovals(n: nat)
    ensures var s := Run(Approvals(n));
            s == State(OpenFrom(0, n), 0, [], {})
    ensures forall t :: t in Tokens(Approvals(n)) ==> t < n
  {
    if n > 0 {
      AfterApprovals(n - 1);
      var es := Approvals(n);
      assert es[..n - 1] == Approvals(n - 1) && es[n - 1] == Approve(n - 1, 0, 0, 1, 0);
    }
  }

  lemma AttachBoth(s: State, i: nat)
    requires i in s.approved && s.approved[i] == Open(i)
    ensures var s' := Step(Step(s, Join(i, 0, 0, 0)), Join(i, 1, 1, 0));
            && s'.approved == s.approved - {i}
            && s'.activeCount == s.activeCount + 1 && |s'.started| == |s.started| + 1
  {
    var s1 := Step(s, Join(i, 0, 0, 0));
    assert s1 == s.(approved := s.approved[i := Open(i).(hostConn := Some(0))]);
    assert s1.approved - {i} == s.approved - {i};
  }

  function OpenFrom(k: nat, n: nat): map<Token, Session> {
    map i: nat | k <= i < n :: Open(i)
  }

  lemma OneLessOpen(k: nat, n: nat)
    requires k < n
    ensures k in OpenFrom(k, n) && OpenFrom(k, n)[k] == Open(k) && OpenFrom(k, n) - {k} == OpenFrom(k + 1, n)
  {}

  lemma {:induction false} AfterAttaches(n: nat, k: nat)
    requires k <= n
    ensures var s := Run(Approvals(n) + Attaches(k));
            s.approved == OpenFrom(k, n) && s.activeCount == k == |s.started|
  {
    hide Run, Step, Approvals, Open, OpenFrom;
    if k == 0 {
      AfterApprovals(n);
      assert Approvals(n) + Attaches(0) == Approvals(n);
    } else {
      AfterAttaches(n, k - 1);
      var es := Approvals(n) + Attaches(k - 1);
      var e, f := Join(k - 1, 0, 0, 0), Join(k - 1, 1, 1, 0);
      assert Approvals(n) + Attaches(k) == es + [e] + [f];
      AfterJoin(es, e);
      AfterJoin(es + [e], f);
      OneLessOpen(k - 1, n);
      AttachBoth(Run(es), k - 1);
    }
  }

  lemma AfterJoin(es: seq<Event>, e: Event)
    requires e.Join?
    ensures Run(es + [e]) == Step(Run(es), e)
  {
    assert (es + [e])[..|es + [e]| - 1] == es;
  }

  /** The maximum bounds nothing: any number of bridges can run at once. */
  lemma AnyNumberAtOnce(n: nat)
    ensures Run(Approvals(n) + Attaches(n)).activeCount == n
    ensures n > MAX_SESSIONS ==> !WithinCap(Approvals(n) + Attaches(n))
  {
    AfterAttaches(n, n);
    var es := Approvals(n) + Attaches(n);
    assert es[..|es|] == es;
  }
}
