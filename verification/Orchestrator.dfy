/** The connection orchestrator: Trystero first, the Go server as the fallback
    (web/src/orchestrator.ts).  A transport is known by its place among all
    transports ever started, and raises no event once left. */
module Orchestrator {
  import opened Common

  type Id = nat

  datatype Role = Host | Guest
  datatype PeerState = Connecting | Connected | Failed | Closed
  datatype Transport = Trystero(n: nat) | Go(n: nat)

  /** `owner` is `peerTransport`; `timer` the timer field and `scheduled` whether
      the timer will still fire; `shown` is what the consumer was last told of each
      peer since the session began, `paired` whether a peer connected since. */
  datatype State = State(
    role: Role, trystero: Option<nat>, go: Option<nat>, timer: bool, scheduled: bool,
    owner: map<Id, Transport>, starts: seq<Transport>, left: set<Transport>,
    shown: map<Id, PeerState>, paired: bool)

  const START: State := State(Guest, None, None, false, false, map[], [], {}, map[], false)

  function ClearTimer(s: State): State {
    if s.timer then s.(timer := false, scheduled := false) else s
  }

  function StartTrystero(s: State): State {
    s.(trystero := Some(|s.starts|), starts := s.starts + [Trystero(|s.starts|)])
  }

  function StartGo(s: State): State {
    if s.go.Some? then s else s.(go := Some(|s.starts|), starts := s.starts + [Go(|s.starts|)])
  }

  function TrysteroPeers(s: State): set<Id> {
    set p | p in s.owner && s.trystero.Some? && s.owner[p] == Trystero(s.trystero.value)
  }

  function WithClosed(shown: map<Id, PeerState>, peers: set<Id>): map<Id, PeerState> {
    shown + map p | p in peers :: Closed
  }

  lemma CloseOneMore(shown: map<Id, PeerState>, peers: set<Id>, p: Id)
    ensures WithClosed(shown, peers)[p := Closed] == WithClosed(shown, peers + {p})
  {}

  function Dropped(s: State): set<Transport> {
    if s.trystero.Some? then {Trystero(s.trystero.value)} else {}
  }

  function FallBack(s: State): State {
    if s.go.Some? || s.role != Guest then s
    else
      StartGo(ClearTimer(s).(
          shown := WithClosed(s.shown, TrysteroPeers(s)),
          left := s.left + Dropped(s), trystero := None, owner := map[]))
  }

  function CreateRoom(s: State): State {
    StartGo(StartTrystero(s.(role := Host, shown := map[], paired := false)))
  }

  /** `fails`: Trystero reports an error before `start` returns. */
  function JoinRoom(s: State, fails: bool): State {
    var s1 := StartTrystero(s.(role := Guest, shown := map[], paired := false));
    (if fails then FallBack(s1) else s1).(timer := true, scheduled := true)
  }

  function OnTrysteroState(s: State, k: nat, p: Id, st: PeerState): State {
    var s1 := if st == Connecting || st == Connected then s.(owner := s.owner[p := Trystero(k)]) else s;
    var s2 := if st == Connected && s.role == Guest then ClearTimer(s1) else s1;
    var s3 := if st == Connected then s2.(paired := true) else s2;
    if st == Failed && s.role == Guest then FallBack(s3)
    else if st == Failed then s3.(owner := s3.owner - {p}, shown := s3.shown[p := Closed])
    else s3.(shown := s3.shown[p := st])
  }

  function OnTrysteroError(s: State): State {
    if s.role == Guest then FallBack(s) else s
  }

  function OnGoState(s: State, k: nat, p: Id, st: PeerState): State {
    var s1 := if st == Connecting || st == Connected then s.(owner := s.owner[p := Go(k)]) else s;
    s1.(shown := s1.shown[p := st])
  }

  function Leave(s: State): State {
    var goLeft := if s.go.Some? then {Go(s.go.value)} else {};
    ClearTimer(s).(left := s.left + Dropped(s) + goLeft, trystero := None, go := None, owner := map[])
  }

  datatype Event =
    | Create
    | Join(fails: bool)
    | TrysteroState(k: nat, peer: Id, st: PeerState)
    | TrysteroError(k: nat)
    | GoState(k: nat, peer: Id, st: PeerState)
    | TimerFires
    | Leaves

  predicate Live(s: State, t: Transport) {
    t in s.starts && t !in s.left
  }

  /** A session begins when none is under way; a transport that was left raises
      nothing. */
  predicate Enabled(s: State, e: Event) {
    match e
    case Create => s.trystero.None? && s.go.None?
    case Join(_) => s.trystero.None? && s.go.None?
    case TrysteroState(k, _, _) => Live(s, Trystero(k))
    case TrysteroError(k) => Live(s, Trystero(k))
    case GoState(k, _, _) => Live(s, Go(k))
    case TimerFires => s.scheduled
    case Leaves => true
  }

  function Step(s: State, e: Event): State {
    if !Enabled(s, e) then s
    else
      match e
      case Create => CreateRoom(s)
      case Join(fails) => JoinRoom(s, fails)
      case TrysteroState(k, p, st) => OnTrysteroState(s, k, p, st)
      case TrysteroError(_) => OnTrysteroError(s)
      case GoState(k, p, st) => OnGoState(s, k, p, st)
      case TimerFires => FallBack(s.(scheduled := false))
      case Leaves => Leave(s)
  }

  function Run(es: seq<Event>): State {
    if es == [] then START else Step(Run(es[..|es| - 1]), es[|es| - 1])
  }

  class ConnectionOrchestrator {
    var role: Role
    var trystero: Option<nat>
    var go: Option<nat>
    var guestFallbackTimer: bool
    var peerTransport: map<Id, Transport>
    /** The world around: the timer, the transports and what the consumer saw. */
    var scheduled: bool
    var starts: seq<Transport>
    var left: set<Transport>
    var shown: map<Id, PeerState>
    var paired: bool

    function View(): State
      reads this
    {
      State(role, trystero, go, guestFallbackTimer, scheduled, peerTransport, starts, left, shown, paired)
    }

    constructor ()
      ensures View() == START
    {
      role, trystero, go, guestFallbackTimer, scheduled := Guest, None, None, false, false;
      peerTransport, starts, left, shown, paired := map[], [], {}, map[], false;
    }

    method StartTrysteroTransport()
      modifies this
      ensures View() == StartTrystero(old(View()))
    {
      trystero := Some(|starts|);
      starts := starts + [Trystero(|starts|)];
    }

    method StartGoTransport()
      modifies this
      ensures View() == StartGo(old(View()))
    {
      if go.Some? {
        return;
      }
      go := Some(|starts|);
      starts := starts + [Go(|starts|)];
    }

    method ClearGuestTimer()
      modifies this
      ensures View() == ClearTimer(old(View()))
    {
      if guestFallbackTimer {
        guestFallbackTimer, scheduled := false, false;
      }
    }

    /** The consumer is told that Trystero's peers are gone. */
    method CloseTrysteroPeers()
      modifies this`shown
      ensures View() == old(View()).(shown := WithClosed(old(shown), TrysteroPeers(old(View()))))
    {
      ghost var s := View();
      var rest := peerTransport.Keys;
      ghost var closed: set<Id> := {};
      while rest != {}
        invariant View() == s.(shown := shown) && rest <= peerTransport.Keys
        invariant closed == TrysteroPeers(s) - rest && shown == WithClosed(s.shown, closed)
        decreases rest
      {
        var p :| p in rest;
        if trystero.Some? && peerTransport[p] == Trystero(trystero.value) {
          CloseOneMore(s.shown, closed, p);
          shown := shown[p := Closed];
          closed := closed + {p};
        }
        rest := rest - {p};
      }
    }

    method FallbackGuestToGo()
      modifies this
      ensures View() == FallBack(old(View()))
    {
      if go.Some? || role != Guest {
        return;
      }
      ClearGuestTimer();
      CloseTrysteroPeers();
      if trystero.Some? {
        left := left + {Trystero(trystero.value)};
      }
      trystero := None;
      peerTransport := map[];
      StartGoTransport();
    }

    method CreateRoomAsHost()
      modifies this
      ensures View() == CreateRoom(old(View()))
    {
      role, shown, paired := Host, map[], false;
      StartTrysteroTransport();
      StartGoTransport();
    }

    method JoinRoomAsGuest(fails: bool)
      modifies this
      ensures View() == JoinRoom(old(View()), fails)
    {
      role, shown, paired := Guest, map[], false;
      StartTrysteroTransport();
      if fails {
        HandleTrysteroError();
      }
      guestFallbackTimer, scheduled := true, true;
    }

    method HandleTrysteroError()
      modifies this
      ensures View() == OnTrysteroError(old(View()))
    {
      if role == Guest {
        FallbackGuestToGo();
      }
    }

    method HandleTrysteroState(k: nat, peer: Id, st: PeerState)
      modifies this
      ensures View() == OnTrysteroState(old(View()), k, peer, st)
    {
      if st == Connecting || st == Connected {
        peerTransport := peerTransport[peer := Trystero(k)];
      }
      if st == Connected && role == Guest {
        ClearGuestTimer();
      }
      paired := paired || st == Connected;
      if st == Failed {
        if role == Guest {
          FallbackGuestToGo();
          return;
        }
        peerTransport := peerTransport - {peer};
        shown := shown[peer := Closed];
        return;
      }
      shown := shown[peer := st];
    }

    method HandleGoState(k: nat, peer: Id, st: PeerState)
      modifies this
      ensures View() == OnGoState(old(View()), k, peer, st)
    {
      if st == Connecting || st == Connected {
        peerTransport := peerTransport[peer := Go(k)];
      }
      shown := shown[peer := st];
    }

    method LeaveRoom()
      modifies this
      ensures View() == Leave(old(View()))
    {
      ClearGuestTimer();
      if trystero.Some? {
        left := left + {Trystero(trystero.value)};
      }
      if go.Some? {
        left := left + {Go(go.value)};
      }
      trystero, go := None, None;
      peerTransport := map[];
    }

    /** After the events `es` a file for `peer` goes to the transport that last reported
        it up, which was not left; nowhere if none has, or it was forgotten since. */
    method SendFile(peer: Id, ghost es: seq<Event>) returns (transport: Option<Transport>)
      requires View() == Run(es)
      ensures transport.Some? <==> exists i: nat :: LastReport(es, peer, i)
      ensures forall i: nat :: LastReport(es, peer, i) ==> transport == Some(Reporter(es[i]))
      ensures transport.Some? ==> Live(View(), transport.value)
      ensures !Idle(View()) && peer in shown && Up(shown[peer]) ==> transport.Some?
    {
      KnownIffReported(es, peer);
      forall i: nat | LastReport(es, peer, i)
        ensures peer in Run(es).owner && Run(es).owner[peer] == Reporter(es[i])
      {
        ReportedIsOwned(es, peer, i);
      }
      SendFileReachesALiveTransport(es, peer);
      hide Run;
      if peer !in peerTransport {
        return None;
      }
      return Some(peerTransport[peer]);
    }
  }

  // ----------------------------------------------------------------- invariant

  predicate Up(st: PeerState) { st == Connecting || st == Connected }

  /** The transports the orchestrator holds. */
  function Held(s: State): set<Transport> {
    Dropped(s) + if s.go.Some? then {Go(s.go.value)} else {}
  }

  /** Transport `i` is number `i`; only started ones were left, and all of those
      but the ones held. */
  ghost predicate Ledger(s: State) {
    && (forall i {:trigger s.starts[i]} :: 0 <= i < |s.starts| ==> s.starts[i] == Trystero(i) || s.starts[i] == Go(i))
    && (forall t {:trigger t in s.left} :: t in s.left ==> t.n < |s.starts| && t == s.starts[t.n] && t !in Held(s))
    && (forall i {:trigger s.starts[i]} :: 0 <= i < |s.starts| ==> s.starts[i] in s.left || s.starts[i] in Held(s))
  }

  /** Peers belong to transports held, and every peer the consumer believes up
      belongs to one. */
  ghost predicate Owned(s: State) {
    && (forall p {:trigger s.owner[p]} :: p in s.owner ==> s.owner[p] in Held(s))
    && (Held(s) != {} ==> forall p {:trigger s.shown[p]} :: p in s.shown && Up(s.shown[p]) ==> p in s.owner)
  }

  predicate Idle(s: State) { s.trystero.None? && s.go.None? }

  /** A guest's session begins with one Trystero transport and ends, perhaps, with
      one Go transport in its place. */
  ghost predicate GuestFirst(s: State) {
    var n := |s.starts|;
    s.role == Guest && n >= 1 && s.trystero == Some(n - 1) && s.starts[n - 1] == Trystero(n - 1) && s.go.None?
  }

  ghost predicate GuestFallen(s: State) {
    var n := |s.starts|;
    && s.role == Guest && n >= 2 && s.trystero.None? && s.go == Some(n - 1)
    && s.starts[n - 1] == Go(n - 1) && s.starts[n - 2] == Trystero(n - 2)
  }

  ghost predicate HostBoth(s: State) {
    var n := |s.starts|;
    && s.role == Host && n >= 2 && s.trystero == Some(n - 2) && s.go == Some(n - 1)
    && s.starts[n - 2] == Trystero(n - 2) && s.starts[n - 1] == Go(n - 1)
  }

  /** A guest that has not fallen back will, or has met a peer. */
  ghost predicate Timed(s: State) {
    && (s.scheduled ==> s.timer && s.role == Guest && !Idle(s))
    && (GuestFirst(s) ==> s.scheduled == s.timer && (s.scheduled || s.paired))
  }

  ghost predicate Inv(s: State) {
    && Ledger(s) && Owned(s) && Timed(s)
    && (Idle(s) || GuestFirst(s) || GuestFallen(s) || HostBoth(s))
    && (Idle(s) ==> !s.timer)
  }

  /** What is held and left after a fallback, and who is shown. */
  lemma FallenState(s: State)
    requires Owned(s) && GuestFirst(s) && (s.scheduled ==> s.timer)
    ensures var s', n := FallBack(s), |s.starts|;
            && s'.role == Guest && s'.trystero == None && s'.go == Some(n) && s'.owner == map[]
            && !s'.timer && !s'.scheduled
            && s'.starts == s.starts + [Go(n)] && s'.left == s.left + {Trystero(n - 1)}
            && s'.shown == WithClosed(s.shown, s.owner.Keys)
            && Held(s) == {Trystero(n - 1)} && Held(s') == {Go(n)}
  {
    assert TrysteroPeers(s) == s.owner.Keys;
    hide WithClosed;
  }

  lemma FallenLedger(s: State, s': State)
    requires s.starts != [] && s.starts[|s.starts| - 1] == Trystero(|s.starts| - 1)
    requires Ledger(s) && Held(s) == {Trystero(|s.starts| - 1)} && Held(s') == {Go(|s.starts|)}
    requires s'.starts == s.starts + [Go(|s.starts|)] && s'.left == s.left + {Trystero(|s.starts| - 1)}
    ensures Ledger(s')
  {
    hide Held;
    assert s'.starts[|s.starts|] == Go(|s.starts|);
    assert forall i :: 0 <= i < |s.starts| ==> s'.starts[i] == s.starts[i];
  }

  /** Every peer that was up is shown closed. */
  lemma FallenShown(s: State)
    requires Owned(s) && GuestFirst(s)
    ensures var shown := WithClosed(s.shown, s.owner.Keys); forall p :: p in shown ==> !Up(shown[p])
  {
    assert Trystero(|s.starts| - 1) in Held(s);
    hide Held;
  }

  lemma FallBackFalls(s: State)
    requires Ledger(s) && Owned(s) && GuestFirst(s) && (s.scheduled ==> s.timer)
    ensures Inv(FallBack(s)) && GuestFallen(FallBack(s)) && !FallBack(s).scheduled
    ensures FallBack(s).starts == s.starts + [Go(|s.starts|)]
    ensures forall p :: p in FallBack(s).shown ==> !Up(FallBack(s).shown[p])
  {
    FallenState(s);
    FallenLedger(s, FallBack(s));
    FallenShown(s);
    hide FallBack, Ledger, WithClosed;
  }

  lemma CreateKeepsInv(s: State)
    requires Inv(s) && Idle(s)
    ensures Inv(CreateRoom(s))
  {
    var s' := CreateRoom(s);
    var n := |s.starts|;
    assert s'.starts[n] == Trystero(n) && s'.starts[n + 1] == Go(n + 1);
  }

  lemma NothingOwned(s: State)
    requires Owned(s) && Idle(s)
    ensures s.owner == map[]
  {
    assert Held(s) == {};
    assert s.owner.Keys == {};
  }

  lemma JoinBegins(s: State)
    requires Inv(s) && Idle(s)
    ensures var s1 := StartTrystero(s.(role := Guest, shown := map[], paired := false));
            Ledger(s1) && Owned(s1) && GuestFirst(s1) && !s1.scheduled && !s1.timer
  {
    var s1 := StartTrystero(s.(role := Guest, shown := map[], paired := false));
    assert s1.starts[|s.starts|] == Trystero(|s.starts|);
    assert Held(s) == {} && Held(s1) == {Trystero(|s.starts|)};
    assert Ledger(s1) by { hide Owned, Timed; }
    assert s.owner == map[] by { NothingOwned(s); }
    hide Ledger;
  }

  lemma JoinStarts(s: State, fails: bool)
    requires Inv(s) && Idle(s)
    ensures var s', n := JoinRoom(s, fails), |s.starts|;
            && Inv(s') && s'.scheduled
            && (if fails then GuestFallen(s') else GuestFirst(s'))
            && s'.starts == s.starts + (if fails then [Trystero(n), Go(n + 1)] else [Trystero(n)])
            && (forall p :: p in s'.shown ==> !Up(s'.shown[p]))
  {
    var s1 := StartTrystero(s.(role := Guest, shown := map[], paired := false));
    JoinBegins(s);
    if fails {
      FallBackFalls(s1);
      hide FallBack;
    }
  }

  lemma LeaveLedger(s: State)
    requires Ledger(s) && forall t :: t in Held(s) ==> t.n < |s.starts| && t == s.starts[t.n]
    ensures Ledger(Leave(s)) && Idle(Leave(s)) && forall t :: t in s.starts ==> t in Leave(s).left
  {
    assert Leave(s).left == s.left + Held(s);
  }

  lemma HeldWereStarted(s: State)
    requires Inv(s)
    ensures forall t :: t in Held(s) ==> t.n < |s.starts| && t == s.starts[t.n]
  {
    hide Ledger, Owned, Timed;
  }

  lemma LeaveKeepsInv(s: State)
    requires Inv(s)
    ensures Inv(Leave(s)) && Idle(Leave(s))
    ensures forall t :: t in s.starts ==> t in Leave(s).left
  {
    HeldWereStarted(s);
    LeaveLedger(s);
    assert s.scheduled ==> s.timer;
    var s' := Leave(s);
    assert Owned(s') by { hide Ledger; }
    hide Ledger, Owned, Held, GuestFirst, GuestFallen, HostBoth;
  }

  /** Only the held transports are live. */
  lemma LiveIsHeld(s: State, t: Transport)
    requires Ledger(s) && Live(s, t)
    ensures t in Held(s)
  {
    var i :| 0 <= i < |s.starts| && s.starts[i] == t;
  }

  /** A report about a peer changes no transport. */
  ghost predicate SameTransports(s: State, s': State) {
    s'.starts == s.starts && s'.left == s.left && s'.trystero == s.trystero && s'.go == s.go && s'.role == s.role
  }

  lemma ReportKeepsInv(s: State, s': State)
    requires Inv(s) && !Idle(s) && SameTransports(s, s') && Owned(s')
    requires (s'.timer == s.timer && s'.scheduled == s.scheduled && (s.paired ==> s'.paired))
             || (!s'.timer && !s'.scheduled && s'.paired)
    ensures Inv(s')
  {
    hide Owned;
    assert Held(s') == Held(s);
    assert Ledger(s') by { hide Timed; }
    hide Ledger;
  }

  lemma TrysteroReportIsOwned(s: State, k: nat, p: Id, st: PeerState)
    requires Owned(s) && Trystero(k) in Held(s) && (st == Failed ==> s.role == Host)
    ensures SameTransports(s, OnTrysteroState(s, k, p, st)) && Owned(OnTrysteroState(s, k, p, st))
  {
    hide FallBack;
    var s' := OnTrysteroState(s, k, p, st);
    assert s'.owner == (if st == Connecting || st == Connected then s.owner[p := Trystero(k)]
                        else if st == Failed then s.owner - {p} else s.owner);
    assert s'.shown == s.shown[p := if st == Failed then Closed else st];
    assert SameTransports(s, s') && Held(s') == Held(s);
    hide OnTrysteroState, Held, SameTransports;
  }

  lemma TrysteroStateKeepsInv(s: State, k: nat, p: Id, st: PeerState)
    requires Inv(s) && Live(s, Trystero(k))
    ensures Inv(OnTrysteroState(s, k, p, st))
  {
    LiveIsHeld(s, Trystero(k));
    if st == Failed && s.role == Guest {
      FallBackFalls(s);
    } else {
      TrysteroReportIsOwned(s, k, p, st);
      hide Ledger, Owned, FallBack;
      ReportKeepsInv(s, OnTrysteroState(s, k, p, st));
    }
  }

  lemma GoStateKeepsInv(s: State, k: nat, p: Id, st: PeerState)
    requires Inv(s) && Live(s, Go(k))
    ensures Inv(OnGoState(s, k, p, st))
  {
    LiveIsHeld(s, Go(k));
    var s' := OnGoState(s, k, p, st);
    assert Held(s') == Held(s);
    assert Owned(s');
    hide Ledger, Owned;
    ReportKeepsInv(s, s');
  }

  lemma OtherStepsKeepInv(s: State, e: Event)
    requires Inv(s) && Enabled(s, e) && (e.TimerFires? || e.TrysteroError?)
    ensures Inv(Step(s, e))
  {
    if GuestFirst(s) {
      FallBackFalls(s.(scheduled := false));
      FallBackFalls(s);
    }
  }

  lemma StepKeepsInv(s: State, e: Event)
    requires Inv(s)
    ensures Inv(Step(s, e))
  {
    hide Inv, CreateRoom, JoinRoom, OnTrysteroState, OnTrysteroError, OnGoState, FallBack, Leave;
    if Enabled(s, e) {
      match e {
        case Create => CreateKeepsInv(s);
        case Join(fails) => JoinStarts(s, fails);
        case TrysteroState(k, p, st) => TrysteroStateKeepsInv(s, k, p, st);
        case GoState(k, p, st) => GoStateKeepsInv(s, k, p, st);
        case Leaves => LeaveKeepsInv(s);
        case _ => OtherStepsKeepInv(s, e);
      }
    }
  }

  lemma {:induction false} AlwaysInv(es: seq<Event>)
    ensures Inv(Run(es))
  {
    if es != [] {
      AlwaysInv(es[..|es| - 1]);
      StepKeepsInv(Run(es[..|es| - 1]), es[|es| - 1]);
    }
  }

  // --------------------------------------------------------------- what it means

  lemma OwnersAreLive(s: State, p: Id)
    requires Inv(s) && p in s.owner
    ensures Live(s, s.owner[p])
  {
    assert s.owner[p] in Held(s);
  }

  /** A file for a known peer goes to a transport that was not left, and every peer
      the consumer believes up during a session is known. */
  lemma SendFileReachesALiveTransport(es: seq<Event>, p: Id)
    ensures var s := Run(es);
            && (p in s.owner ==> Live(s, s.owner[p]))
            && (!Idle(s) && p in s.shown && Up(s.shown[p]) ==> p in s.owner)
  {
    AlwaysInv(es);
    hide Run;
    if p in Run(es).owner {
      OwnersAreLive(Run(es), p);
    }
  }

  // ----------------------------------------------------- what the events alone say

  /** A transport reports that `p` is connecting or connected. */
  predicate ReportsUp(s: State, e: Event, p: Id) {
    Enabled(s, e) && (e.TrysteroState? || e.GoState?) && e.peer == p && Up(e.st)
  }

  function Reporter(e: Event): Transport
    requires e.TrysteroState? || e.GoState?
  {
    if e.TrysteroState? then Trystero(e.k) else Go(e.k)
  }

  /** What takes a guest from Trystero to Go. */
  predicate Fails(s: State, e: Event) {
    Enabled(s, e) && (e.TimerFires? || e.TrysteroError? || (e.TrysteroState? && e.st == Failed))
  }

  predicate Falls(s: State, e: Event) {
    s.role == Guest && s.go.None? && Fails(s, e)
  }

  /** `p` is known no longer. */
  predicate Forgets(s: State, e: Event, p: Id) {
    e.Leaves? || Falls(s, e) || (s.role == Host && Fails(s, e) && e.TrysteroState? && e.peer == p)
  }

  /** Event `i` is the latest report that `p` is up, and `p` was not forgotten since. */
  ghost predicate LastReport(es: seq<Event>, p: Id, i: nat) {
    && i < |es| && ReportsUp(Run(es[..i]), es[i], p)
    && forall j {:trigger es[j]} :: i < j < |es| ==>
         !ReportsUp(Run(es[..j]), es[j], p) && !Forgets(Run(es[..j]), es[j], p)
  }

  lemma LastReportSnoc(es: seq<Event>, p: Id, i: nat)
    requires es != []
    ensures var es0, e := es[..|es| - 1], es[|es| - 1];
            LastReport(es, p, i) <==>
            if i == |es| - 1 then ReportsUp(Run(es0), e, p)
            else LastReport(es0, p, i) && !ReportsUp(Run(es0), e, p) && !Forgets(Run(es0), e, p)
  {
    hide Run, ReportsUp, Forgets;
    var es0 := es[..|es| - 1];
    assert forall j {:trigger es0[j]} :: 0 <= j < |es0| ==> es0[..j] == es[..j] && es0[j] == es[j];
    assert forall j {:trigger es[j]} :: 0 <= j < |es0| ==> es0[..j] == es[..j] && es0[j] == es[j];
  }

  /** What one event does to whom `p` belongs to. */
  /** Nobody is known when a session begins or ends, or a guest falls back. */
  lemma OwnsNobody(s: State, e: Event)
    requires Inv(s) && Enabled(s, e) && (e.Create? || e.Join? || e.Leaves? || Falls(s, e))
    ensures Step(s, e).owner == map[]
  {
    if e.Create? || e.Join? { NothingOwned(s); }
    hide Inv;
  }

  lemma TrysteroOwns(s: State, k: nat, p: Id, st: PeerState)
    requires st != Failed || s.role == Host
    ensures OnTrysteroState(s, k, p, st).owner
            == if Up(st) then s.owner[p := Trystero(k)] else if st == Failed then s.owner - {p} else s.owner
  {
    hide FallBack;
  }

  lemma OwnerAfter(s: State, e: Event, p: Id)
    requires Inv(s)
    ensures var s' := Step(s, e);
            if ReportsUp(s, e, p) then p in s'.owner && s'.owner[p] == Reporter(e)
            else if Forgets(s, e, p) then p !in s'.owner
            else (p in s'.owner <==> p in s.owner) && (p in s.owner ==> s'.owner[p] == s.owner[p])
  {
    hide CreateRoom, JoinRoom, OnTrysteroState, OnGoState, Leave, FallBack;
    if Enabled(s, e) {
      if e.Create? || e.Join? || e.Leaves? || Falls(s, e) {
        if e.Create? || e.Join? { NothingOwned(s); }
        OwnsNobody(s, e);
        hide Inv, Step;
      } else {
        OthersOwn(s, e, p);
      }
    }
  }

  lemma OthersOwn(s: State, e: Event, p: Id)
    requires Inv(s) && Enabled(s, e) && !(e.Create? || e.Join? || e.Leaves? || Falls(s, e))
    ensures Step(s, e).owner == if !(e.TrysteroState? || e.GoState?) then s.owner
                                else if Up(e.st) then s.owner[e.peer := Reporter(e)]
                                else if e.TrysteroState? && e.st == Failed then s.owner - {e.peer} else s.owner
    ensures e.TrysteroState? && e.st == Failed ==> s.role == Host
  {
    hide OnTrysteroState, FallBack;
    match e {
      case TrysteroState(k, q, st) =>
        TrysteroMeansNotFallen(s, e);
        hide Inv;
        TrysteroOwns(s, k, q, st);
      case TrysteroError(_) =>
        TrysteroMeansNotFallen(s, e);
        hide Inv;
      case GoState(_, _, _) => hide Inv;
      case TimerFires =>
        FallBackStays(s);
        hide Inv;
    }
  }

  lemma FallBackStays(s: State)
    requires s.role != Guest || s.go.Some?
    ensures FallBack(s.(scheduled := false)).owner == s.owner
  {}

  /** A guest whose Trystero transport still raises events has not fallen back. */
  lemma TrysteroMeansNotFallen(s: State, e: Event)
    requires Inv(s) && Enabled(s, e) && (e.TrysteroState? || e.TrysteroError?)
    ensures !Idle(s) && (s.role == Guest ==> GuestFirst(s))
  {
    LiveIsHeld(s, Trystero(e.k));
    hide Ledger, Owned, Timed;
  }

  /** In every run whoever is known belongs to the transport that last reported it up. */
  lemma {:induction false} OwnerReported(es: seq<Event>, p: Id) returns (i: nat)
    requires p in Run(es).owner
    ensures LastReport(es, p, i) && Run(es).owner[p] == Reporter(es[i])
  {
    assert es != [];
    var es0, e := es[..|es| - 1], es[|es| - 1];
    AlwaysInv(es0);
    OwnerAfter(Run(es0), e, p);
    assert Run(es) == Step(Run(es0), e);
    hide Run, Step, Inv, ReportsUp, Forgets, LastReport;
    if ReportsUp(Run(es0), e, p) {
      i := |es0|;
    } else {
      i := OwnerReported(es0, p);
      ReportedUp(es0, p, i);
    }
    LastReportSnoc(es, p, i);
  }

  lemma ReportedUp(es: seq<Event>, p: Id, i: nat)
    requires LastReport(es, p, i)
    ensures i < |es| && (es[i].TrysteroState? || es[i].GoState?)
  {}

  /** And whoever was reported up, and not forgotten since, is known. */
  lemma {:induction false} ReportedIsOwned(es: seq<Event>, p: Id, i: nat)
    requires LastReport(es, p, i)
    ensures i < |es| && (es[i].TrysteroState? || es[i].GoState?)
    ensures p in Run(es).owner && Run(es).owner[p] == Reporter(es[i])
  {
    ReportedUp(es, p, i);
    var es0, e := es[..|es| - 1], es[|es| - 1];
    LastReportSnoc(es, p, i);
    AlwaysInv(es0);
    OwnerAfter(Run(es0), e, p);
    assert Run(es) == Step(Run(es0), e);
    hide Run, Step, Inv, ReportsUp, Forgets, LastReport;
    if i < |es0| {
      ReportedIsOwned(es0, p, i);
    }
  }

  /** A peer is known if and only if it was reported up and not forgotten since. */
  lemma KnownIffReported(es: seq<Event>, p: Id)
    ensures p in Run(es).owner <==> exists i: nat :: LastReport(es, p, i)
  {
    hide Run, LastReport;
    if p in Run(es).owner {
      var i := OwnerReported(es, p);
    }
    forall i: nat | LastReport(es, p, i) ensures p in Run(es).owner { ReportedIsOwned(es, p, i); }
  }

  // ------------------------------------------------------- what the consumer was told

  /** What event `e` tells the consumer of `p`. */
  function Says(s: State, e: Event, p: Id): Option<PeerState> {
    if !Enabled(s, e) then None
    else if Falls(s, e) then if p in s.owner then Some(Closed) else None
    else if (e.TrysteroState? || e.GoState?) && e.peer == p then
      Some(if e.TrysteroState? && e.st == Failed then Closed else e.st)
    else None
  }

  predicate Begins(s: State, e: Event) {
    Enabled(s, e) && (e.Create? || e.Join?)
  }

  /** Event `i` is the last that told the consumer of `p` in this session. */
  ghost predicate LastSaid(es: seq<Event>, p: Id, i: nat) {
    && i < |es| && Says(Run(es[..i]), es[i], p).Some?
    && forall j {:trigger es[j]} :: i < j < |es| ==> Says(Run(es[..j]), es[j], p).None? && !Begins(Run(es[..j]), es[j])
  }

  lemma LastSaidSnoc(es: seq<Event>, p: Id, i: nat)
    requires es != []
    ensures var es0, e := es[..|es| - 1], es[|es| - 1];
            LastSaid(es, p, i) <==>
            if i == |es| - 1 then Says(Run(es0), e, p).Some?
            else LastSaid(es0, p, i) && Says(Run(es0), e, p).None? && !Begins(Run(es0), e)
  {
    hide Run, Says, Begins;
    var es0 := es[..|es| - 1];
    assert forall j {:trigger es0[j]} :: 0 <= j < |es0| ==> es0[..j] == es[..j] && es0[j] == es[j];
    assert forall j {:trigger es[j]} :: 0 <= j < |es0| ==> es0[..j] == es[..j] && es0[j] == es[j];
  }

  lemma TrysteroShows(s: State, k: nat, p: Id, st: PeerState)
    requires st != Failed || s.role == Host
    ensures OnTrysteroState(s, k, p, st).shown == s.shown[p := if st == Failed then Closed else st]
  {
    hide FallBack;
  }

  lemma SaidByOthers(s: State, e: Event)
    requires Inv(s) && Enabled(s, e) && !Falls(s, e) && !Begins(s, e)
    ensures Step(s, e).shown == if e.TrysteroState? || e.GoState? then s.shown[e.peer := Says(s, e, e.peer).value]
                                else s.shown
  {
    hide FallBack, OnTrysteroState;
    match e {
      case TrysteroState(k, q, st) =>
        TrysteroMeansNotFallen(s, e);
        hide Inv;
        TrysteroShows(s, k, q, st);
      case TrysteroError(_) =>
        TrysteroMeansNotFallen(s, e);
        hide Inv;
      case TimerFires =>
        FallBackShows(s);
        hide Inv;
      case _ => hide Inv;
    }
  }

  lemma FallBackShows(s: State)
    requires s.role != Guest || s.go.Some?
    ensures FallBack(s.(scheduled := false)).shown == s.shown
  {}

  lemma SaidByFall(s: State, e: Event)
    requires Inv(s) && Falls(s, e)
    ensures Step(s, e).shown == WithClosed(s.shown, s.owner.Keys)
  {
    if e.TrysteroState? || e.TrysteroError? {
      TrysteroMeansNotFallen(s, e);
    }
    assert GuestFirst(s) by { hide Ledger, Owned; }
    FallenState(s);
    FallenState(s.(scheduled := false));
    hide FallBack, WithClosed, Ledger, Owned;
  }

  lemma SaidAfter(s: State, e: Event, p: Id)
    requires Inv(s)
    ensures var s' := Step(s, e);
            if Says(s, e, p).Some? then p in s'.shown && Some(s'.shown[p]) == Says(s, e, p)
            else if Begins(s, e) then p !in s'.shown
            else (p in s'.shown <==> p in s.shown) && (p in s.shown ==> s'.shown[p] == s.shown[p])
  {
    if Falls(s, e) {
      SaidByFall(s, e);
      hide Step, Inv, Begins;
    } else if Begins(s, e) {
      BeginShowsNobody(s, e);
      hide Step, Inv;
    } else if Enabled(s, e) {
      SaidByOthers(s, e);
      hide Step, Inv;
    }
  }

  lemma BeginShowsNobody(s: State, e: Event)
    requires Inv(s) && Begins(s, e)
    ensures Step(s, e).shown == map[]
  {
    NothingOwned(s);
    hide Inv;
  }

  /** In every run the consumer's picture of a peer is the last it was told of it since
      the session began, and it was told exactly what the transports reported: a failed
      Trystero link as closed, and every peer still known as closed on falling back. */
  lemma {:induction false} ShownWasSaid(es: seq<Event>, p: Id) returns (i: nat)
    requires p in Run(es).shown
    ensures LastSaid(es, p, i) && Some(Run(es).shown[p]) == Says(Run(es[..i]), es[i], p)
  {
    assert es != [];
    var es0, e := es[..|es| - 1], es[|es| - 1];
    AlwaysInv(es0);
    SaidAfter(Run(es0), e, p);
    assert Run(es) == Step(Run(es0), e);
    hide Run, Step, Inv, Says, Begins, LastSaid;
    if Says(Run(es0), e, p).Some? {
      i := |es0|;
    } else {
      i := ShownWasSaid(es0, p);
      SaidBefore(es0, p, i);
      assert es0[..i] == es[..i];
    }
    LastSaidSnoc(es, p, i);
  }

  lemma SaidBefore(es: seq<Event>, p: Id, i: nat)
    requires LastSaid(es, p, i)
    ensures i < |es|
  {}

  // ------------------------------------------------------------- the fallback and its timer

  /** A Trystero peer connects. */
  predicate Meets(s: State, e: Event) {
    Enabled(s, e) && e.TrysteroState? && e.st == Connected
  }

  /** One event of a guest's session. */
  lemma GuestAfter(s: State, e: Event)
    requires Inv(s) && !Idle(s) && s.role == Guest && !e.Leaves?
    ensures Step(s, e).go.Some? <==> s.go.Some? || Fails(s, e)
    ensures Step(s, e).scheduled <==> s.scheduled && !Fails(s, e) && !Meets(s, e)
  {
    if Enabled(s, e) {
      if e.TrysteroState? || e.TrysteroError? {
        TrysteroMeansNotFallen(s, e);
      }
      hide Ledger, Owned, WithClosed;
    }
  }

  /** A guest's session that began at `es[b]` and has not ended. */
  ghost predicate GuestSince(es: seq<Event>, b: nat) {
    && b < |es| && es[b].Join? && Enabled(Run(es[..b]), es[b])
    && forall i :: b < i < |es| ==> !es[i].Leaves?
  }

  /** No cause for the fallback since `es[b]`, and, with `meetings`, no peer connected. */
  ghost predicate NoneSince(es: seq<Event>, b: nat, meetings: bool) {
    forall i {:trigger es[i]} :: b < i < |es| ==>
      !Fails(Run(es[..i]), es[i]) && !(meetings && Meets(Run(es[..i]), es[i]))
  }

  lemma NoneSinceSnoc(es: seq<Event>, b: nat, meetings: bool)
    requires b < |es| - 1
    ensures var es0, e := es[..|es| - 1], es[|es| - 1];
            NoneSince(es, b, meetings) <==>
            NoneSince(es0, b, meetings) && !Fails(Run(es0), e) && !(meetings && Meets(Run(es0), e))
  {
    hide Run, Fails, Meets;
    var es0 := es[..|es| - 1];
    assert forall j {:trigger es0[j]} :: 0 <= j < |es0| ==> es0[..j] == es[..j] && es0[j] == es[j];
    assert forall j {:trigger es[j]} :: 0 <= j < |es0| ==> es0[..j] == es[..j] && es0[j] == es[j];
  }

  /** A guest falls back to Go if and only if Trystero failed at once, reported an error
      or a failed peer, or the timer fired; and the timer will fire if and only if none
      of that happened since the start and no Trystero peer connected. */
  lemma {:induction false} FallsBackIff(es: seq<Event>, b: nat)
    requires GuestSince(es, b)
    ensures Run(es).go.Some? <==> es[b].fails || !NoneSince(es, b, false)
    ensures Run(es).scheduled <==> NoneSince(es, b, true)
  {
    var init, e := es[..|es| - 1], es[|es| - 1];
    AlwaysInv(init);
    var s := Run(init);
    assert Run(es) == Step(s, e);
    if b == |es| - 1 {
      assert es[..b] == init && Step(s, e) == JoinRoom(s, e.fails);
      hide Step, JoinRoom, Inv, OnePair;
      JoinStarts(s, e.fails);
    } else {
      assert init[..b] == es[..b] && init[b] == es[b];
      FallsBackIff(init, b);
      OneFallbackASession(init, b);
      NoneSinceSnoc(es, b, false);
      NoneSinceSnoc(es, b, true);
      GuestAfter(s, e);
      hide Run, Step, Inv, OnePair, NoneSince;
    }
  }

  /** At any time at most the session's own transports are live: one for a guest,
      two for a host, none between sessions. */
  lemma LiveTransports(es: seq<Event>, t: Transport)
    requires Live(Run(es), t)
    ensures var s := Run(es);
            !Idle(s) && (s.role == Guest ==> t == s.starts[|s.starts| - 1]) && (s.role == Host ==> t.n >= |s.starts| - 2)
  {
    AlwaysInv(es);
    hide Run, Owned, Timed;
    LiveIsHeld(Run(es), t);
    hide Ledger;
  }

  lemma FallBackNeedsGuestFirst(s: State)
    requires Inv(s) && !GuestFirst(s) && !Idle(s)
    ensures FallBack(s) == s && FallBack(s.(scheduled := false)) == s.(scheduled := false)
  {
    hide Ledger, Owned, Timed;
  }

  lemma ReportsChangeNoTransport(s: State, k: nat, p: Id, st: PeerState)
    ensures SameTransports(s, OnGoState(s, k, p, st))
    ensures st != Failed || s.role == Host ==> SameTransports(s, OnTrysteroState(s, k, p, st))
    ensures st == Failed && s.role == Guest ==> OnTrysteroState(s, k, p, st) == FallBack(s)
  {
    hide FallBack;
  }

  /** A step in a session that does not leave it starts nothing, unless it falls
      back. */
  lemma StepShape(s: State, e: Event)
    requires Inv(s) && !Idle(s) && !e.Leaves?
    ensures var s' := Step(s, e);
            SameTransports(s, s') || (GuestFirst(s) && (s' == FallBack(s) || s' == FallBack(s.(scheduled := false))))
  {
    hide Ledger, Owned, Timed, GuestFirst, GuestFallen, HostBoth, OnTrysteroState, OnGoState, FallBack, CreateRoom, JoinRoom, Leave;
    if !GuestFirst(s) {
      FallBackNeedsGuestFirst(s);
    }
    hide Inv;
    match e {
      case TrysteroState(k, p, st) => ReportsChangeNoTransport(s, k, p, st);
      case GoState(k, p, st) => ReportsChangeNoTransport(s, k, p, st);
      case _ =>
    }
  }

  /** Either way of falling back. */
  lemma BothFall(s: State)
    requires Inv(s) && GuestFirst(s)
    ensures forall r :: r == FallBack(s) || r == FallBack(s.(scheduled := false)) ==>
              && GuestFallen(r) && r.starts == s.starts + [Go(|s.starts|)]
              && forall p :: p in r.shown ==> !Up(r.shown[p])
  {
    FallBackFalls(s);
    FallBackFalls(s.(scheduled := false));
    hide FallBack;
  }

  /** Between sessions nothing happens but a beginning. */
  lemma IdleOnlyBegins(s: State, e: Event)
    requires Inv(s) && Idle(s) && Enabled(s, e)
    ensures e.Create? || e.Join? || e.Leaves?
  {
    match e {
      case TrysteroState(k, _, _) => LiveIsHeld(s, Trystero(k));
      case TrysteroError(k) => LiveIsHeld(s, Trystero(k));
      case GoState(k, _, _) => LiveIsHeld(s, Go(k));
      case _ =>
    }
  }

  /** When Go is started for a guest, no peer is believed up any more. */
  lemma GoStartsClean(es: seq<Event>, e: Event)
    ensures var s, s' := Run(es), Step(Run(es), e);
            s'.role == Guest && |s'.starts| > |s.starts| && s'.starts[|s'.starts| - 1].Go? ==>
              forall p :: p in s'.shown ==> !Up(s'.shown[p])
  {
    var s := Run(es);
    AlwaysInv(es);
    hide Run, Ledger, Owned, FallBack;
    if Idle(s) {
      if Enabled(s, e) {
        IdleOnlyBegins(s, e);
      }
      hide Inv;
      if e.Join? {
        JoinStarts(s, e.fails);
        hide JoinRoom;
      }
    } else if !e.Leaves? {
      StepShape(s, e);
      hide Step;
      if GuestFirst(s) {
        BothFall(s);
      }
    }
  }

  /** The timer does nothing once a guest has fallen back, whichever way; in
      particular the one set after Trystero failed at once. */
  lemma LateTimerDoesNothing(es: seq<Event>)
    ensures var s := Run(es); s.go.Some? ==> Step(s, TimerFires) == s.(scheduled := false)
    ensures Enabled(Run(es), Join(true)) ==>
              var s' := Step(Run(es), Join(true)); s'.scheduled && GuestFallen(s') && Step(s', TimerFires) == s'.(scheduled := false)
  {
    AlwaysInv(es);
    hide Run;
    if Enabled(Run(es), Join(true)) {
      JoinStarts(Run(es), true);
      hide JoinRoom;
    }
  }

  /** A guest that has met nobody has its timer running, and the timer takes it to
      the Go transport. */
  lemma NobodyIsStranded(es: seq<Event>)
    ensures var s := Run(es);
            GuestFirst(s) && !s.paired ==> s.scheduled && GuestFallen(Step(s, TimerFires))
  {
    AlwaysInv(es);
    var s := Run(es);
    hide Run;
    if GuestFirst(s) && !s.paired {
      FallBackFalls(s.(scheduled := false));
    }
  }

  /** One Trystero transport, then at most one Go transport. */
  ghost predicate OnePair(starts: seq<Transport>, n: nat) {
    n < |starts| && (starts[n..] == [Trystero(n)] || starts[n..] == [Trystero(n), Go(n + 1)])
  }

  lemma OnePairOn(a: seq<Transport>, b: seq<Transport>, n: nat)
    requires OnePair(a, n)
    requires b == a || (a[|a| - 1].Trystero? && b == a + [Go(|a|)])
    ensures OnePair(b, n)
  {
    if b != a {
      assert a[|a| - 1] == a[n..][|a| - 1 - n];
      assert a[n..] == [Trystero(n)] && |a| == n + 1;
      assert b[n..] == a[n..] + [Go(|a|)];
    }
  }

  lemma JoinPairs(s: State, fails: bool)
    requires Inv(s) && Idle(s)
    ensures var s' := JoinRoom(s, fails); !Idle(s') && s'.role == Guest && OnePair(s'.starts, |s.starts|)
  {
    hide JoinRoom, Inv;
    JoinStarts(s, fails);
    var n := |s.starts|;
    assert JoinRoom(s, fails).starts[n..] == if fails then [Trystero(n), Go(n + 1)] else [Trystero(n)];
  }

  /** A guest's session, from the join at `es[b]` until it leaves: one Trystero
      transport, then at most one Go transport. */
  lemma {:induction false} OneFallbackASession(es: seq<Event>, b: nat)
    requires b < |es| && es[b].Join? && Enabled(Run(es[..b]), es[b])
    requires forall i :: b < i < |es| ==> !es[i].Leaves?
    ensures var n, s := |Run(es[..b]).starts|, Run(es);
            !Idle(s) && s.role == Guest && OnePair(s.starts, n)
  {
    var init, e := es[..|es| - 1], es[|es| - 1];
    var s := Run(init);
    assert Run(es) == Step(s, e);
    hide Run, Inv, OnePair;
    AlwaysInv(init);
    if b == |es| - 1 {
      assert es[..b] == init && Step(s, e) == JoinRoom(s, e.fails);
      hide Step, JoinRoom;
      JoinPairs(s, e.fails);
    } else {
      hide Step;
      assert init[..b] == es[..b];
      OneFallbackASession(init, b);
      StartsInSession(s, e);
      OnePairOn(s.starts, Run(es).starts, |Run(es[..b]).starts|);
    }
  }

  /** During a guest's session a step starts nothing, or one Go transport in place
      of Trystero. */
  lemma StartsInSession(s: State, e: Event)
    requires Inv(s) && !Idle(s) && s.role == Guest && !e.Leaves?
    ensures var s' := Step(s, e);
            && !Idle(s') && s'.role == Guest
            && (s'.starts == s.starts || (GuestFirst(s) && s'.starts == s.starts + [Go(|s.starts|)]))
  {
    hide Step, FallBack, Ledger, Owned, Timed;
    StepShape(s, e);
    if GuestFirst(s) {
      BothFall(s);
    }
  }
}
