/** The whole server: hub, login and relay behind one another
    (server/hub.go:368-457).  Its state is what its three parts have been
    through, and the relay requests being handled.  A request takes four kinds of
    steps, between which anything may happen: the membership check under the hub's
    lock, the login check, the approval, and the answers, one queue at a time. */
module Server {
  import opened Common
  import H = HubState
  import HC = Hub
  import W = Roster
  import T = RosterTheorems
  import A = Auth
  import R = RelaySession
  import L = RoomLife

  datatype Setup = Setup(cfg: H.Config, auth: A.Setup)

  datatype Stage =
    | Checked                                   // both are in the room
    | Allowed                                   // the host is logged in
    | Answering(answers: seq<(H.Id, H.Message)>)  // still to be queued

  datatype Request = Request(from: H.Id, to: H.Id, key: string, auth: string, room: H.Code, stage: Stage)

  /** The histories of the three parts, and every request ever handled. */
  datatype Server = Server(signaling: seq<W.Event>, auth: seq<A.Event>, relay: seq<R.Event>, requests: seq<Request>)

  /** `k` is the request concerned, `token` a fresh random token. */
  datatype Event =
    | Signaling(signal: W.Event)
    | Login(step: A.Event)
    | Relay(attach: R.Event)
    | Ask(from: H.Id, to: H.Id, key: string, auth: string)
    | Authorize(k: nat, now: int)
    | Approve(k: nat, token: H.Token, now: int)
    | Answer(k: nat)

  function World(su: Setup, sv: Server): W.World { W.Run(su.cfg, sv.signaling) }
  function Sessions(su: Setup, sv: Server): A.State { A.Run(su.auth, sv.auth).s }
  function Relays(sv: Server): R.State { R.Run(sv.relay) }

  predicate At(sv: Server, k: nat, stage: Stage) {
    k < |sv.requests| && sv.requests[k].stage == stage
  }

  function Move(sv: Server, k: nat, stage: Stage): Server
    requires k < |sv.requests|
  {
    sv.(requests := sv.requests[k := sv.requests[k].(stage := stage)])
  }

  /** What the two are told of an approval: the host's key goes to the guest alone. */
  function Approvals(r: Request, token: H.Token): seq<(H.Id, H.Message)> {
    [(r.from, H.RelayApproved(r.room, token, r.to, r.from, "")),
     (r.to, H.RelayApproved(r.room, token, r.to, r.from, r.key))]
  }

  /** What is to be told after the relay was asked for a session. */
  function Answers(r: Request, token: H.Token, reply: R.Reply): seq<(H.Id, H.Message)> {
    match reply
    case Ok => Approvals(r, token)
    case Err(reason) => [(r.from, H.Error(reason))]
  }

  function Asked(su: Setup, sv: Server, e: Event): Server
    requires e.Ask?
  {
    var room := H.RelayRoom(World(su, sv).hub, e.from, e.to);
    if !W.Enabled(World(su, sv), W.RelayAsk(e.from)) then sv
    else
      sv.(signaling := sv.signaling + [W.RelayAsk(e.from)],
          requests := sv.requests + if room.None? then []
                                    else [Request(e.from, e.to, e.key, e.auth, room.value, Checked)])
  }

  function Authorized(su: Setup, sv: Server, k: nat, now: int): Server {
    if !At(sv, k, Checked) then sv
    else
      var r := sv.requests[k];
      var ok := A.IsValid(Sessions(su, sv), r.auth, now);
      Move(sv.(auth := sv.auth + [A.Validate(r.auth, now)]), k,
           if ok then Allowed else Answering([(r.from, H.Error("login-required"))]))
  }

  function Approved(sv: Server, k: nat, token: H.Token, now: int): Server {
    if !At(sv, k, Allowed) || token in R.Tokens(sv.relay) then sv
    else
      var r := sv.requests[k];
      var reply := R.Create(Relays(sv), token, r.room, r.from, r.to, now).1;
      Move(sv.(relay := sv.relay + [R.Approve(token, r.room, r.from, r.to, now)]), k, Answering(Answers(r, token, reply)))
  }

  function Answered(sv: Server, k: nat): Server {
    if k < |sv.requests| && sv.requests[k].stage.Answering? && sv.requests[k].stage.answers != [] then
      var answers := sv.requests[k].stage.answers;
      Move(sv.(signaling := sv.signaling + [W.Tell(answers[0].0, answers[0].1)]), k, Answering(answers[1..]))
    else sv
  }

  function Step(su: Setup, sv: Server, e: Event): Server {
    match e
    case Signaling(x) => if x.RelayAsk? || x.Tell? then sv else sv.(signaling := sv.signaling + [x])
    case Login(x) => sv.(auth := sv.auth + [x])
    case Relay(x) => if x.Approve? then sv else sv.(relay := sv.relay + [x])
    case Ask(_, _, _, _) => Asked(su, sv, e)
    case Authorize(k, now) => Authorized(su, sv, k, now)
    case Approve(k, token, now) => Approved(sv, k, token, now)
    case Answer(k) => Answered(sv, k)
  }

  function Run(su: Setup, es: seq<Event>): Server {
    if es == [] then Server([], [], [], []) else Step(su, Run(su, es[..|es| - 1]), es[|es| - 1])
  }

  lemma RunStep(su: Setup, es: seq<Event>, e: Event)
    ensures Run(su, es + [e]) == Step(su, Run(su, es), e)
  {
    assert (es + [e])[..|es|] == es;
  }

  /** The objects the handler works on. */
  class SignalingServer {
    const hub: HC.Hub
    const auth: A.AuthManager
    const relay: R.RelayManager

    constructor (hub: HC.Hub, auth: A.AuthManager, relay: R.RelayManager)
      ensures this.hub == hub && this.auth == auth && this.relay == relay
    {
      this.hub, this.auth, this.relay := hub, auth, relay;
    }

    /** The section under the hub's lock. */
    method RequestedRoom(from: H.Id, to: H.Id) returns (room: Option<H.Code>)
      ensures room.Some? ==> Entitled(hub.View(), from, to, room.value)
      ensures room.None? ==> forall c: H.Code :: !Entitled(hub.View(), from, to, c)
    {
      if from !in hub.peers || hub.peers[from].room == H.NO_ROOM || hub.peers[from].room !in hub.rooms {
        return None;
      }
      if to !in hub.rooms[hub.peers[from].room].members || to !in hub.peers {
        return None;
      }
      return Some(hub.peers[from].room);
    }

    /** The login check and the approval, each under its own lock, and what is to be told. */
    method Decide(r: Request, token: H.Token, now: int) returns (answers: seq<(H.Id, H.Message)>)
      modifies auth, relay
      ensures var ok, few := old(A.IsValid(auth.View(), r.auth, now)), old(relay.View()).activeCount < 5;
              && auth.View() == A.Validated(old(auth.View()), r.auth, now)
              && relay.View() == (if ok && few then old(relay.View()).(approved := old(relay.View()).approved[
                                    token := R.Session(token, r.room, r.from, r.to, now, None, None, false)])
                                  else old(relay.View()))
              && answers == if !ok then [(r.from, H.Error("login-required"))]
                            else if !few then [(r.from, H.Error("global concurrent relay sessions limit reached"))]
                            else [(r.from, H.RelayApproved(r.room, token, r.to, r.from, "")),
                                  (r.to, H.RelayApproved(r.room, token, r.to, r.from, r.key))]
    {
      var ok := auth.Validate(r.auth, now);
      if !ok {
        return [(r.from, H.Error("login-required"))];
      }
      var reply := relay.CreateSession(token, r.room, r.from, r.to, now);
      if reply.Err? {
        return [(r.from, H.Error(reply.reason))];
      }
      return Approvals(r, token);
    }

    /** The sends, after all locks are released. */
    method Tell(answers: seq<(H.Id, H.Message)>)
      modifies hub
      ensures hub.View() == Told(old(hub.View()), answers)
    {
      for i := 0 to |answers|
        invariant hub.View() == Told(old(hub.View()), answers[..i])
      {
        assert answers[..i + 1][..i] == answers[..i];
        hub.Broadcast({answers[i].0}, answers[i].1);
      }
      assert answers[..|answers|] == answers;
    }

    /** One handling that nothing interrupts: when both are in one room and the host is
        logged in and fewer than five relays are active, the session is approved and both are
        told, each unless its queue is full, the host's key to the guest alone. */
    method HandleRelayRequest(from: H.Id, to: H.Id, authToken: string, key: string, token: H.Token, now: int)
      modifies hub, auth, relay
      ensures (forall c: H.Code :: !Entitled(old(hub.View()), from, to, c)) ==>
                hub.View() == old(hub.View()) && auth.View() == old(auth.View()) && relay.View() == old(relay.View())
      ensures forall c: H.Code :: Entitled(old(hub.View()), from, to, c) ==>
                var ok, few := old(A.IsValid(auth.View(), authToken, now)), old(relay.View()).activeCount < 5;
                && auth.View() == A.Validated(old(auth.View()), authToken, now)
                && relay.View() == (if ok && few then old(relay.View()).(approved := old(relay.View()).approved[
                                      token := R.Session(token, c, from, to, now, None, None, false)])
                                    else old(relay.View()))
                && if !ok then OneTold(old(hub.View()), hub.View(), from, H.Error("login-required"))
                   else if !few then OneTold(old(hub.View()), hub.View(), from,
                                             H.Error("global concurrent relay sessions limit reached"))
                   else BothTold(old(hub.View()), hub.View(), from, H.RelayApproved(c, token, to, from, ""),
                                 to, H.RelayApproved(c, token, to, from, key))
    {
      var room := RequestedRoom(from, to);
      if room.None? {
        assert hub.View() == old(hub.View());
        return;
      }
      ghost var s := hub.View();
      var answers := Decide(Request(from, to, key, authToken, room.value, Checked), token, now);
      Tell(answers);
      if |answers| == 1 {
        ToldOne(s, answers[0].0, answers[0].1);
      } else {
        ToldBoth(s, answers[0].0, answers[0].1, answers[1].0, answers[1].1);
      }
      hide Told, BothTold, OneTold;
    }
  }

  /** Both are in the room `c`. */
  predicate Entitled(s: H.State, from: H.Id, to: H.Id, c: H.Code) {
    && from in s.peers && s.peers[from].room == c && c != 0 && c in s.rooms
    && to in s.rooms[c].members && to in s.peers
  }

  /** A queue to which `m` was sent without waiting. */
  function Sent(queue: seq<H.Message>, m: H.Message): seq<H.Message> {
    if |queue| < 256 then queue + [m] else queue
  }

  /** `p` was sent `m`, and nothing else happened in the hub. */
  ghost predicate OneTold(s: H.State, s': H.State, p: H.Id, m: H.Message) {
    s' == s.(peers := s'.peers) && s'.peers.Keys == s.peers.Keys
    && forall x :: x in s.peers ==>
         s'.peers[x] == if x == p then s.peers[x].(send := Sent(s.peers[x].send, m)) else s.peers[x]
  }

  /** `p` was sent `m`, then `q` was sent `n`, and nothing else happened in the hub. */
  ghost predicate BothTold(s: H.State, s': H.State, p: H.Id, m: H.Message, q: H.Id, n: H.Message) {
    s' == s.(peers := s'.peers) && s'.peers.Keys == s.peers.Keys
    && forall x :: x in s.peers ==>
         var queue := if x == p then Sent(s.peers[x].send, m) else s.peers[x].send;
         s'.peers[x] == s.peers[x].(send := if x == q then Sent(queue, n) else queue)
  }

  lemma ToldOne(s: H.State, p: H.Id, m: H.Message)
    ensures OneTold(s, Told(s, [(p, m)]), p, m)
  {
    assert [(p, m)][..0] == [];
    assert Told(s, [(p, m)]) == s.(peers := H.Notify(s.peers, {p}, m));
  }

  lemma ToldBoth(s: H.State, p: H.Id, m: H.Message, q: H.Id, n: H.Message)
    ensures BothTold(s, Told(s, [(p, m), (q, n)]), p, m, q, n)
  {
    TwoTells(s, p, m, q, n);
    hide Told;
  }

  /** The hub after the answers were queued. */
  function Told(s: H.State, answers: seq<(H.Id, H.Message)>): H.State {
    if answers == [] then s
    else
      var before, last := Told(s, answers[..|answers| - 1]), answers[|answers| - 1];
      before.(peers := H.Notify(before.peers, {last.0}, last.1))
  }

  // ------------------------------------------------------------ where things come from

  /** Request `k` began at event `j`, with both in the room. */
  ghost predicate AskedAt(su: Setup, es: seq<Event>, j: nat, r: Request) {
    && j < |es| && es[j] == Ask(r.from, r.to, r.key, r.auth)
    && BothIn(World(su, Run(su, es[..j])), r.from, r.to, r.room)
  }

  predicate BothIn(w: W.World, p: H.Id, q: H.Id, c: H.Code) {
    L.In(w, p, c) && L.In(w, q, c) && c != 0
  }

  lemma RelayRoomIff(su: Setup, sv: Server, p: H.Id, q: H.Id)
    ensures var w := World(su, sv);
            && (H.RelayRoom(w.hub, p, q).Some? ==> BothIn(w, p, q, H.RelayRoom(w.hub, p, q).value))
            && (forall c: H.Code :: BothIn(w, p, q, c) ==> H.RelayRoom(w.hub, p, q) == Some(c))
  {
    L.RunInv(su.cfg, sv.signaling);
    hide W.Run;
  }

  /** Event `v` found the request's login valid. */
  ghost predicate AuthorizedAt(su: Setup, es: seq<Event>, v: nat, r: Request) {
    v < |es| && es[v].Authorize? && A.IsValid(Sessions(su, Run(su, es[..v])), r.auth, es[v].now)
  }

  predicate Same(r: Request, q: Request) {
    r.from == q.from && r.to == q.to && r.key == q.key && r.auth == q.auth && r.room == q.room
  }

  /** Only asking makes a request, and nothing changes whose it is. */
  lemma StepRequests(su: Setup, sv: Server, e: Event, k: nat)
    requires k < |Step(su, sv, e).requests|
    ensures k < |sv.requests| ==> Same(sv.requests[k], Step(su, sv, e).requests[k])
    ensures k >= |sv.requests| ==>
              var r := Step(su, sv, e).requests[k];
              && e == Ask(r.from, r.to, r.key, r.auth) && r.stage == Checked && k == |sv.requests|
              && H.RelayRoom(World(su, sv).hub, r.from, r.to) == Some(r.room)
  {
    hide World, Sessions, Relays, A.IsValid, H.RelayRoom, W.Enabled, R.Create, R.Tokens;
  }

  /** A request becomes allowed when its login is found valid. */
  lemma StepAllows(su: Setup, sv: Server, e: Event, k: nat)
    requires At(Step(su, sv, e), k, Allowed) && !At(sv, k, Allowed)
    ensures k < |sv.requests| && e.Authorize? && A.IsValid(Sessions(su, sv), sv.requests[k].auth, e.now)
  {
    hide World, Sessions, Relays, A.IsValid, H.RelayRoom, W.Enabled, R.Create, R.Tokens;
  }

  lemma {:induction false} AskedBy(su: Setup, es: seq<Event>, k: nat) returns (j: nat)
    requires k < |Run(su, es).requests|
    ensures AskedAt(su, es, j, Run(su, es).requests[k])
  {
    assert es != [];
    hide World, H.RelayRoom, Step, BothIn;
    var es0, e := es[..|es| - 1], es[|es| - 1];
    StepRequests(su, Run(su, es0), e, k);
    if k < |Run(su, es0).requests| {
      j := AskedBy(su, es0, k);
      assert es0[..j] == es[..j];
    } else {
      j := |es0|;
      RelayRoomIff(su, Run(su, es0), e.from, e.to);
    }
  }

  lemma {:induction false} AllowedBy(su: Setup, es: seq<Event>, k: nat) returns (v: nat)
    requires At(Run(su, es), k, Allowed)
    ensures AuthorizedAt(su, es, v, Run(su, es).requests[k])
    ensures k < |Run(su, es[..v]).requests| && Same(Run(su, es[..v]).requests[k], Run(su, es).requests[k])
  {
    assert es != [];
    hide Sessions, A.IsValid, Step;
    var es0, e := es[..|es| - 1], es[|es| - 1];
    StepRequests(su, Run(su, es0), e, k);
    if At(Run(su, es0), k, Allowed) {
      v := AllowedBy(su, es0, k);
      assert es0[..v] == es[..v];
    } else {
      StepAllows(su, Run(su, es0), e, k);
      v := |es0|;
    }
  }

  /** Request `r`: asked at `j` with both in the room, found logged in at `v`, and given
      `token` at `a`, in that order. */
  ghost predicate Granted(su: Setup, es: seq<Event>, r: Request, token: H.Token, j: nat, v: nat, a: nat) {
    && j < v < a < |es| && AskedAt(su, es, j, r) && AuthorizedAt(su, es, v, r)
    && es[a].Approve? && es[a].token == token
  }

  /** A request allowed before event `a` approves it. */
  lemma GrantedBy(su: Setup, es: seq<Event>, a: nat) returns (j: nat, v: nat)
    requires a < |es| && es[a].Approve? && At(Run(su, es[..a]), es[a].k, Allowed)
    ensures Granted(su, es, Run(su, es[..a]).requests[es[a].k], es[a].token, j, v, a)
  {
    var before, k := es[..a], es[a].k;
    v := AllowedBy(su, before, k);
    j := AskedBy(su, before[..v], k);
    assert before[..v] == es[..v] && before[..v][..j] == es[..j] && before[..v][..j] == before[..j];
    hide Run, World, Sessions, A.IsValid, H.RelayRoom;
  }

  /** Only an approval of an allowed request puts one in the relay's history. */
  lemma StepApproves(su: Setup, sv: Server, e: Event, c: nat)
    requires c < |Step(su, sv, e).relay| && Step(su, sv, e).relay[c].Approve?
    ensures c < |sv.relay| ==> Step(su, sv, e).relay[c] == sv.relay[c]
    ensures c >= |sv.relay| ==>
              && e.Approve? && At(sv, e.k, Allowed)
              && var r := sv.requests[e.k]; Step(su, sv, e).relay[c] == R.Approve(e.token, r.room, r.from, r.to, e.now)
  {
    hide World, Sessions, Relays, A.IsValid, H.RelayRoom, W.Enabled, R.Create, R.Tokens;
  }

  /** Every session ever approved was asked for by its host while both were in its
      room, and then found logged in. */
  lemma {:induction false} ApprovalsAreRequested(su: Setup, es: seq<Event>, c: nat)
    returns (r: Request, j: nat, v: nat, a: nat)
    requires c < |Run(su, es).relay| && Run(su, es).relay[c].Approve?
    ensures Granted(su, es, r, Run(su, es).relay[c].token, j, v, a)
    ensures Run(su, es).relay[c] == R.Approve(es[a].token, r.room, r.from, r.to, es[a].now)
  {
    assert es != [];
    var es0, e := es[..|es| - 1], es[|es| - 1];
    StepApproves(su, Run(su, es0), e, c);
    assert Run(su, es) == Step(su, Run(su, es0), e);
    if c < |Run(su, es0).relay| {
      r, j, v, a := ApprovalsAreRequested(su, es0, c);
      assert es0[..j] == es[..j] && es0[..v] == es[..v];
      hide Run, Step, World, Sessions, A.IsValid, H.RelayRoom;
    } else {
      a := |es0|;
      assert es[..a] == es0;
      j, v := GrantedBy(su, es, a);
      r := Run(su, es0).requests[e.k];
      hide Run, Step, Granted;
    }
  }

  // ------------------------------------------------------------ who is told, and of what

  /** `answer` is still to be queued for request `k`. */
  predicate ToAnswer(sv: Server, k: nat, answer: (H.Id, H.Message)) {
    k < |sv.requests| && sv.requests[k].stage.Answering? && answer in sv.requests[k].stage.answers
  }

  /** An approval to be told comes from an approval event of its request. */
  lemma StepAnswers(su: Setup, sv: Server, e: Event, k: nat, answer: (H.Id, H.Message))
    requires ToAnswer(Step(su, sv, e), k, answer) && answer.1.RelayApproved?
    ensures || ToAnswer(sv, k, answer)
            || (k < |sv.requests| && e.Approve? && e.k == k && At(sv, k, Allowed)
                && answer in Approvals(sv.requests[k], e.token))
  {
    hide World, Sessions, Relays, A.IsValid, H.RelayRoom, W.Enabled, R.Create, R.Tokens;
  }

  lemma {:induction false} AnsweredBy(su: Setup, es: seq<Event>, k: nat, answer: (H.Id, H.Message)) returns (a: nat)
    requires ToAnswer(Run(su, es), k, answer) && answer.1.RelayApproved?
    ensures a < |es| && es[a].Approve? && At(Run(su, es[..a]), es[a].k, Allowed)
    ensures answer in Approvals(Run(su, es[..a]).requests[es[a].k], es[a].token)
  {
    assert es != [];
    var es0, e := es[..|es| - 1], es[|es| - 1];
    assert Run(su, es) == Step(su, Run(su, es0), e);
    hide Run, Step, ToAnswer, At, Approvals;
    StepAnswers(su, Run(su, es0), e, k, answer);
    if ToAnswer(Run(su, es0), k, answer) {
      a := AnsweredBy(su, es0, k, answer);
      assert es0[..a] == es[..a];
    } else {
      a := |es0|;
      assert es[..a] == es0;
    }
  }

  /** What is told is an answer of some request. */
  lemma StepTells(su: Setup, sv: Server, e: Event, i: nat)
    requires i < |Step(su, sv, e).signaling| && Step(su, sv, e).signaling[i].Tell?
    ensures i < |sv.signaling| ==> Step(su, sv, e).signaling[i] == sv.signaling[i]
    ensures i >= |sv.signaling| ==>
              e.Answer? && ToAnswer(sv, e.k, (Step(su, sv, e).signaling[i].id, Step(su, sv, e).signaling[i].m))
  {
    hide World, Sessions, Relays, A.IsValid, H.RelayRoom, W.Enabled, R.Create, R.Tokens;
  }

  lemma {:induction false} ToldBy(su: Setup, es: seq<Event>, i: nat) returns (s: nat)
    requires i < |Run(su, es).signaling| && Run(su, es).signaling[i].Tell?
    ensures s < |es| && es[s].Answer?
    ensures var x := Run(su, es).signaling[i]; ToAnswer(Run(su, es[..s]), es[s].k, (x.id, x.m))
  {
    assert es != [];
    var es0, e := es[..|es| - 1], es[|es| - 1];
    assert Run(su, es) == Step(su, Run(su, es0), e);
    hide Run, Step, ToAnswer;
    StepTells(su, Run(su, es0), e, i);
    if i < |Run(su, es0).signaling| {
      s := ToldBy(su, es0, i);
      assert es0[..s] == es[..s];
    } else {
      s := |es0|;
      assert es[..s] == es0;
    }
  }

  /** In every run, whoever finds a relay approval in its queue is the host or the guest
      of a request that was granted, and only the guest finds the host's key. */
  lemma ApprovalsReachTheirTwo(su: Setup, es: seq<Event>, p: H.Id, m: H.Message)
    returns (r: Request, j: nat, v: nat, a: nat)
    requires T.Queued(World(su, Run(su, es)), p, m) && m.RelayApproved?
    ensures Granted(su, es, r, m.token, j, v, a)
    ensures (p == r.from && m == H.RelayApproved(r.room, m.token, r.to, r.from, ""))
            || (p == r.to && m == H.RelayApproved(r.room, m.token, r.to, r.from, r.key))
  {
    var i := T.ApprovalWasTold(su.cfg, Run(su, es).signaling, p, m);
    var s := ToldBy(su, es, i);
    var told := es[..s];
    a := AnsweredBy(su, told, es[s].k, (p, m));
    assert told[..a] == es[..a];
    j, v := GrantedBy(su, es, a);
    r := Run(su, es[..a]).requests[es[a].k];
    assert (p, m) in Approvals(r, es[a].token);
    hide Run, World, Granted, T.Queued;
  }

  // ------------------------------------------------------------ how a request goes on

  /** The request a peer makes is taken up if and only if both are in one room. */
  lemma AskIsTaken(su: Setup, es: seq<Event>, e: Event)
    requires e.Ask? && W.Enabled(World(su, Run(su, es)), W.RelayAsk(e.from))
    ensures var sv, sv' := Run(su, es), Run(su, es + [e]);
            && (forall c: H.Code :: BothIn(World(su, sv), e.from, e.to, c) ==>
                  sv'.requests == sv.requests + [Request(e.from, e.to, e.key, e.auth, c, Checked)])
            && (!(exists c: H.Code :: BothIn(World(su, sv), e.from, e.to, c)) ==> sv'.requests == sv.requests)
  {
    RunStep(su, es, e);
    RelayRoomIff(su, Run(su, es), e.from, e.to);
    hide Run, World, BothIn, H.RelayRoom, W.Enabled;
  }

  /** A request taken up goes on if and only if its login is valid; if it is not, the host
      is to be told so. */
  lemma LoginDecides(su: Setup, es: seq<Event>, k: nat, now: int)
    requires At(Run(su, es), k, Checked)
    ensures var sv, r := Run(su, es), Run(su, es).requests[k];
            At(Run(su, es + [Authorize(k, now)]), k,
               if A.IsValid(Sessions(su, sv), r.auth, now) then Allowed
               else Answering([(r.from, H.Error("login-required"))]))
  {
    RunStep(su, es, Authorize(k, now));
    hide Run, Sessions, A.IsValid;
  }

  /** With a valid login, the relay is asked for a session for these two in their room; with
      fewer than five active it stands, and both are to be told, the host's key to the guest. */
  lemma ApprovalDecides(su: Setup, es: seq<Event>, k: nat, token: H.Token, now: int)
    requires At(Run(su, es), k, Allowed) && token !in R.Tokens(Run(su, es).relay)
    ensures var sv, sv', r := Run(su, es), Run(su, es + [Approve(k, token, now)]), Run(su, es).requests[k];
            var few := Relays(sv).activeCount < 5;
            && At(sv', k, Answering(if few then [(r.from, H.RelayApproved(r.room, token, r.to, r.from, "")),
                                                 (r.to, H.RelayApproved(r.room, token, r.to, r.from, r.key))]
                                    else [(r.from, H.Error("global concurrent relay sessions limit reached"))]))
            && (few ==> token in Relays(sv').approved
                        && Relays(sv').approved[token] == R.Session(token, r.room, r.from, r.to, now, None, None, false))
  {
    RunStep(su, es, Approve(k, token, now));
    hide Run, R.Run, R.Tokens, R.Create, Answers;
    var sv, r := Run(su, es), Run(su, es).requests[k];
    ReplyDecides(sv, r, token, now);
    if Relays(sv).activeCount < 5 { SessionStands(sv, r, token, now); }
    hide Relays;
  }

  lemma ReplyDecides(sv: Server, r: Request, token: H.Token, now: int)
    ensures var reply := R.Create(Relays(sv), token, r.room, r.from, r.to, now).1;
            Answers(r, token, reply)
            == if Relays(sv).activeCount < 5
               then [(r.from, H.RelayApproved(r.room, token, r.to, r.from, "")),
                     (r.to, H.RelayApproved(r.room, token, r.to, r.from, r.key))]
               else [(r.from, H.Error("global concurrent relay sessions limit reached"))]
  {
    hide Relays;
  }

  lemma SessionStands(sv: Server, r: Request, token: H.Token, now: int)
    requires token !in R.Tokens(sv.relay) && Relays(sv).activeCount < 5
    ensures var s := R.Run(sv.relay + [R.Approve(token, r.room, r.from, r.to, now)]);
            && token in s.approved
            && s.approved[token] == R.Session(token, r.room, r.from, r.to, now, None, None, false)
  {
    R.CountIsStartedLessEnded(sv.relay);
    R.ApprovedIffFewerThanFive(sv.relay, token, r.room, r.from, r.to, now);
    hide R.Run, R.Tokens, R.Ended;
  }

  /** Request `k` had `all` to be told; the first ones were told, in order, by the events
      `told` of the signaling history. */
  ghost predicate Telling(sv: Server, k: nat, all: seq<(H.Id, H.Message)>, told: seq<nat>) {
    && |told| <= |all| && At(sv, k, Answering(all[|told|..]))
    && (forall x :: 0 <= x < |told| ==> told[x] < |sv.signaling| && sv.signaling[told[x]] == W.Tell(all[x].0, all[x].1))
    && (forall x, y :: 0 <= x < y < |told| ==> told[x] < told[y])
  }

  /** Only an answer changes a request that is being answered, and histories only grow. */
  lemma StepTelling(su: Setup, sv: Server, e: Event, k: nat)
    requires k < |sv.requests| && sv.requests[k].stage.Answering?
    ensures var sv', answers := Step(su, sv, e), sv.requests[k].stage.answers;
            && sv.signaling <= sv'.signaling && k < |sv'.requests|
            && if e == Answer(k) && answers != [] then
                 && sv'.signaling == sv.signaling + [W.Tell(answers[0].0, answers[0].1)]
                 && sv'.requests[k].stage == Answering(answers[1..])
               else sv'.requests[k].stage == sv.requests[k].stage
  {
    hide World, Sessions, Relays, A.IsValid, H.RelayRoom, W.Enabled, R.Create, R.Tokens;
  }

  lemma TellingOn(su: Setup, sv: Server, e: Event, k: nat, all: seq<(H.Id, H.Message)>, told: seq<nat>)
    returns (told': seq<nat>)
    requires Telling(sv, k, all, told)
    ensures Telling(Step(su, sv, e), k, all, told')
  {
    StepTelling(su, sv, e, k);
    hide Step;
    if e == Answer(k) && all[|told|..] != [] {
      told' := told + [|sv.signaling|];
      assert all[|told|..][1..] == all[|told'|..];
    } else {
      told' := told;
    }
  }

  /** Whatever else happens, a request's answers are told in order, none twice and none
      left out. */
  lemma {:induction false} ToldInOrder(su: Setup, es: seq<Event>, a: nat, k: nat, all: seq<(H.Id, H.Message)>)
    returns (told: seq<nat>)
    requires a <= |es| && At(Run(su, es[..a]), k, Answering(all))
    ensures Telling(Run(su, es), k, all, told)
  {
    if a == |es| {
      assert es[..a] == es && all[0..] == all;
      told := [];
    } else {
      var es0 := es[..|es| - 1];
      assert es0[..a] == es[..a];
      told := ToldInOrder(su, es0, a, k, all);
      told := TellingOn(su, Run(su, es0), es[|es| - 1], k, all, told);
    }
    hide Run, Step;
  }

  /** In every run: once a request approved by event `a`, fewer than five relays being
      active, has been answered, the approval was sent to the host and then, with the
      host's key, to the guest. */
  lemma BothWereTold(su: Setup, es: seq<Event>, a: nat) returns (i: nat, m: nat)
    requires a < |es| && es[a].Approve? && At(Run(su, es[..a]), es[a].k, Allowed)
    requires es[a].token !in R.Tokens(Run(su, es[..a]).relay) && Relays(Run(su, es[..a])).activeCount < 5
    requires At(Run(su, es), es[a].k, Answering([]))
    ensures var r, told := Run(su, es[..a]).requests[es[a].k], Run(su, es).signaling;
            && i < m < |told|
            && told[i] == W.Tell(r.from, H.RelayApproved(r.room, es[a].token, r.to, r.from, ""))
            && told[m] == W.Tell(r.to, H.RelayApproved(r.room, es[a].token, r.to, r.from, r.key))
  {
    hide Run, Relays, R.Tokens;
    var r, k, token := Run(su, es[..a]).requests[es[a].k], es[a].k, es[a].token;
    ApprovalDecides(su, es[..a], k, token, es[a].now);
    assert es[..a] + [es[a]] == es[..a + 1];
    var all := [(r.from, H.RelayApproved(r.room, token, r.to, r.from, "")),
                (r.to, H.RelayApproved(r.room, token, r.to, r.from, r.key))];
    var told := ToldInOrder(su, es, a + 1, k, all);
    assert |all[|told|..]| == 0;
    i, m := told[0], told[1];
  }

  /** And what was told is in the queues, unless they were full: the two sends of an
      approval, one after the other, to peers in one room. */
  lemma TellsArrive(cfg: H.Config, es: seq<W.Event>, p: H.Id, m: H.Message, q: H.Id, n: H.Message, c: H.Code)
    requires BothIn(W.Run(cfg, es), p, q, c) && m.RelayApproved? && n.RelayApproved?
    ensures BothTold(W.Run(cfg, es).hub, W.Run(cfg, es + [W.Tell(p, m)] + [W.Tell(q, n)]).hub, p, m, q, n)
  {
    hide W.Run, W.Step, Told, BothTold, L.In;
    var w := W.Run(cfg, es);
    MembersRead(cfg, es, p, c);
    MembersRead(cfg, es, q, c);
    TellArrives(cfg, es, p, m);
    TellArrives(cfg, es + [W.Tell(p, m)], q, n);
    ToldBoth(w.hub, p, m, q, n);
    TwoTells(w.hub, p, m, q, n);
  }

  lemma TellArrives(cfg: H.Config, es: seq<W.Event>, p: H.Id, m: H.Message)
    requires var w := W.Run(cfg, es); p in w.hub.peers && p in w.phase && !w.phase[p].Idle?
    requires m.RelayApproved?
    ensures var w := W.Run(cfg, es);
            W.Run(cfg, es + [W.Tell(p, m)]) == w.(hub := w.hub.(peers := H.Notify(w.hub.peers, {p}, m)))
  {
    assert (es + [W.Tell(p, m)])[..|es|] == es;
    assert W.Run(cfg, es + [W.Tell(p, m)]) == W.Step(W.Run(cfg, es), cfg, W.Tell(p, m));
    hide W.Run;
  }

  lemma TwoTells(s: H.State, p: H.Id, m: H.Message, q: H.Id, n: H.Message)
    ensures var t := s.(peers := H.Notify(s.peers, {p}, m));
            Told(s, [(p, m), (q, n)]) == t.(peers := H.Notify(t.peers, {q}, n))
  {
    assert [(p, m), (q, n)][..1] == [(p, m)] && [(p, m)][..0] == [];
    assert Told(s, [(p, m)]) == s.(peers := H.Notify(s.peers, {p}, m));
  }

  /** The reader of a member has joined. */
  lemma MembersRead(cfg: H.Config, es: seq<W.Event>, p: H.Id, c: H.Code)
    requires L.In(W.Run(cfg, es), p, c) && c != 0
    ensures p in W.Run(cfg, es).hub.peers && p in W.Run(cfg, es).phase && !W.Run(cfg, es).phase[p].Idle?
  {
    W.AlwaysInv(cfg, es);
    hide W.Run, W.Tracked, W.HubInvariant.Inv;
  }

  // ------------------------------------------------------------ no open relay

  /** When a login or a login check happens. */
  function Clock(e: Event): Option<int> {
    match e
    case Login(x) => Some(x.now)
    case Authorize(_, now) => Some(now)
    case _ => None
  }

  /** The login's clock does not go back. */
  ghost predicate Timed(es: seq<Event>) {
    forall i, j :: 0 <= i <= j < |es| && Clock(es[i]).Some? && Clock(es[j]).Some? ==> Clock(es[i]).value <= Clock(es[j]).value
  }

  lemma {:induction false} LoginsAreTimed(su: Setup, es: seq<Event>, now: int)
    requires Timed(es) && forall i :: 0 <= i < |es| && Clock(es[i]).Some? ==> Clock(es[i]).value <= now
    ensures A.Timed(Run(su, es).auth) && forall x :: x in Run(su, es).auth ==> x.now <= now
  {
    if es != [] {
      var es0, e := es[..|es| - 1], es[|es| - 1];
      var last := if Clock(e).Some? then Clock(e).value else now;
      assert forall i :: 0 <= i < |es0| ==> es0[i] == es[i];
      LoginsAreTimed(su, es0, last);
      LoginsGrow(su, Run(su, es0), e);
      assert Run(su, es) == Step(su, Run(su, es0), e);
      hide Run, Step;
    }
  }

  lemma LoginsGrow(su: Setup, sv: Server, e: Event)
    ensures var after := Step(su, sv, e).auth;
            || after == sv.auth
            || (Clock(e).Some? && exists x: A.Event :: after == sv.auth + [x] && x.now == Clock(e).value)
  {
    hide World, Sessions, Relays, A.IsValid, H.RelayRoom, W.Enabled, R.Create, R.Tokens;
  }

  /** No file byte is relayed without a login: for every bridge ever started, its
      host asked for it while host and guest were in the room it was approved for,
      and was then found to hold a session token that an earlier login had been
      handed for a password the store accepted, no longer than its lifetime ago. */
  lemma NoBridgeWithoutLogin(su: Setup, es: seq<Event>, k: nat)
    returns (r: Request, j: nat, v: nat, a: nat, i: nat, l: nat)
    requires Timed(es) && k < |Relays(Run(su, es)).started|
    ensures var b := Relays(Run(su, es)).started[k];
            && Granted(su, es, r, b.token, j, v, a)
            && r.from == b.host && r.to == b.guest && r.room == b.room
    ensures var au := Run(su, es[..v]).auth;
            && i < |au| && A.Issues(su.auth, au, i, r.auth) && es[v].now <= au[i].now + su.auth.tokenTTL
            && l < i && A.AcceptedAt(su.auth, au, l, au[i].k)
  {
    var c, h, g := R.BridgeOrigin(Run(su, es).relay, k);
    hide R.Run, R.AttachedAt;
    r, j, v, a := ApprovalsAreRequested(su, es, c);
    var before := es[..v];
    assert forall n :: 0 <= n < v ==> before[n] == es[n];
    LoginsAreTimed(su, before, es[v].now);
    var au := Run(su, before).auth;
    assert au != [] ==> au[|au| - 1] in au;
    A.TokenValidIffIssued(su.auth, au, r.auth, es[v].now);
    hide Run, A.IsValid, A.Issues, A.AcceptedAt, AskedAt;
    var n :| 0 <= n < |au| && A.Issues(su.auth, au, n, r.auth) && es[v].now <= au[n].now + su.auth.tokenTTL;
    i := n;
    l := A.TokensAreEarned(su.auth, au, i, r.auth);
  }
}
