/** What holds of every run of the signaling protocol. */
module RosterTheorems {
  import opened Common
  import opened HubState
  import opened Roster

  /** A member of a room that was acknowledged and missed no membership message. */
  ghost predicate Informed(w: World, p: Id) {
    && p in w.hub.peers && p in w.phase && p in w.clients
    && w.phase[p].Settled? && w.hub.peers[p].room != NO_ROOM && p !in w.lossy
  }

  /** The client's view once its queue has been delivered. */
  function Caught(w: World, p: Id): C.View
    requires p in w.hub.peers && p in w.clients
  {
    C.Drain(w.clients[p], w.hub.peers[p].send)
  }

  ghost predicate Roommates(w: World, p: Id, q: Id) {
    p in w.hub.peers && q in w.hub.peers && p != q && w.hub.peers[p].room == w.hub.peers[q].room != NO_ROOM
  }

  /** The hub's books balance in every reachable state, and nothing remains once
      every peer has gone. */
  lemma BooksBalance(cfg: Config, es: seq<Event>)
    ensures HubInvariant.Inv(Run(cfg, es).hub, cfg)
    ensures Run(cfg, es).hub.peers == map[] ==> Run(cfg, es).hub == EMPTY
  {
    AlwaysInv(cfg, es);
    if Run(cfg, es).hub.peers == map[] {
      HubInvariant.NothingLeaks(Run(cfg, es).hub, cfg);
    }
  }

  /** What a member will believe, exactly: its room, plus whoever was on the list
      it was sent but had gone before the list was queued. */
  lemma RosterLaw(cfg: Config, es: seq<Event>, p: Id)
    requires Informed(Run(cfg, es), p)
    ensures var w := Run(cfg, es);
            var stale := w.phase[p].stale;
            && Caught(w, p).self == Some(p)
            && Caught(w, p).roster == Mates(w.hub, p) + stale && stale !! w.hub.peers.Keys
            && (Caught(w, p).roster == Mates(w.hub, p) <==> stale == {})
  {
    AlwaysInv(cfg, es);
    assert Tracked(Run(cfg, es), p);
    HubMates(Run(cfg, es).hub, cfg, p);
  }

  lemma HubMates(s: State, cfg: Config, p: Id)
    requires HubInvariant.Inv(s, cfg) && p in s.peers
    ensures Mates(s, p) <= s.peers.Keys
  {
    MatesPresent(s, p);
  }

  lemma RoommatesAreMates(w: World, cfg: Config, p: Id, q: Id)
    requires HubInvariant.Inv(w.hub, cfg) && Roommates(w, p, q)
    ensures q in Mates(w.hub, p) && p in Mates(w.hub, q)
  {}

  /** Never two offers between a pair; none exactly when the side with the
      smaller id was listed the room before the other entered it and
      acknowledged after. */
  lemma OfferLaw(cfg: Config, es: seq<Event>, p: Id, q: Id)
    requires var w := Run(cfg, es); Informed(w, p) && Informed(w, q) && Roommates(w, p, q) && p < q
    ensures var w := Run(cfg, es);
            && Caught(w, q).offers[p] == 0
            && Caught(w, p).offers[q] == if q in w.phase[p].missed then 0 else 1
  {
    var w := Run(cfg, es);
    AlwaysInv(cfg, es);
    assert Tracked(w, p) && Tracked(w, q);
    RoommatesAreMates(w, cfg, p, q);
  }

  /** Every acknowledgement was queued while its list was still the room. */
  ghost predicate Untorn(cfg: Config, es: seq<Event>) {
    forall i :: 0 <= i < |es| && es[i].Ack? && Enabled(Run(cfg, es[..i]), es[i]) ==>
      var w := Run(cfg, es[..i]);
      w.phase[es[i].id].listed == Mates(w.hub, es[i].id)
  }

  /** The list was complete and current when it was queued. */
  ghost predicate Clean(w: World) {
    forall p :: p in w.phase && w.phase[p].Settled? ==> w.phase[p].stale == {} && w.phase[p].missed == {}
  }

  lemma {:induction false} UntornSettles(cfg: Config, es: seq<Event>)
    requires Untorn(cfg, es)
    ensures Clean(Run(cfg, es))
  {
    if es != [] {
      var es0, e := es[..|es| - 1], es[|es| - 1];
      forall i | 0 <= i < |es0| ensures es0[i] == es[i] && es0[..i] == es[..i] {}
      UntornSettles(cfg, es0);
      var w := Run(cfg, es0);
      assert e.Ack? && Enabled(w, e) ==> w.phase[e.id].listed == Mates(w.hub, e.id);
      CleanAfter(w, cfg, e);
    }
  }

  lemma CleanAfter(w: World, cfg: Config, e: Event)
    requires Clean(w)
    requires e.Ack? && Enabled(w, e) ==> w.phase[e.id].listed == Mates(w.hub, e.id)
    ensures Clean(Step(w, cfg, e))
  {
    PhasesAfter(w, cfg, e);
    hide Step;
    if e.Ack? && Enabled(w, e) {
      assert Missed(e.id, w.phase[e.id].listed, w.phase[e.id].listed) == {};
    }
  }

  lemma PhasesAfter(w: World, cfg: Config, e: Event)
    ensures var w' := Step(w, cfg, e);
            forall p :: p in w'.phase && w'.phase[p].Settled? ==>
              || (p in w.phase && w'.phase[p] == w.phase[p])
              || (e == Ack(p) && Enabled(w, e)
                  && w'.phase[p] == Settled(w.phase[p].listed - Mates(w.hub, p),
                                            Missed(p, Mates(w.hub, p), w.phase[p].listed)))
  {}

  /** Each acknowledgement is queued right after its list is taken. */
  ghost predicate Atomic(cfg: Config, es: seq<Event>) {
    forall i :: 0 <= i < |es| && es[i].Ack? && Enabled(Run(cfg, es[..i]), es[i]) ==>
      i > 0 && es[i - 1] == List(es[i].id) && Enabled(Run(cfg, es[..i - 1]), es[i - 1])
  }

  lemma ListedThenQueued(w: World, cfg: Config, id: Id)
    requires Enabled(w, List(id))
    ensures var w' := Step(w, cfg, List(id));
            w'.phase[id] == Acking(w.phase[id].room, Mates(w'.hub, id))
  {}

  /** Listing and queueing as one step is enough, whatever else the run does. */
  lemma AtomicIsUntorn(cfg: Config, es: seq<Event>)
    requires Atomic(cfg, es)
    ensures Untorn(cfg, es)
  {
    hide Step;
    forall i | 0 <= i < |es| && es[i].Ack? && Enabled(Run(cfg, es[..i]), es[i])
      ensures var w := Run(cfg, es[..i]); w.phase[es[i].id].listed == Mates(w.hub, es[i].id)
    {
      var w := Run(cfg, es[..i - 1]);
      assert es[..i][..i - 1] == es[..i - 1] && Run(cfg, es[..i]) == Step(w, cfg, es[i - 1]);
      ListedThenQueued(w, cfg, es[i].id);
    }
  }

  /** With untorn acknowledgements every member's view, once caught up, is its
      room without itself, whatever the interleaving of joins, departures,
      deliveries, routing and reaping. */
  lemma RosterAgreement(cfg: Config, es: seq<Event>, p: Id)
    requires Untorn(cfg, es) && Informed(Run(cfg, es), p)
    ensures Caught(Run(cfg, es), p).roster == Mates(Run(cfg, es).hub, p)
  {
    UntornSettles(cfg, es);
    RosterLaw(cfg, es, p);
  }

  /** ... and of two members of a room whose queues are empty, exactly one has
      called `initiateConnection` for the other, exactly once. */
  lemma ExactlyOneOfferer(cfg: Config, es: seq<Event>, p: Id, q: Id)
    requires var w := Run(cfg, es);
             Untorn(cfg, es) && Informed(w, p) && Informed(w, q) && Roommates(w, p, q)
    requires var w := Run(cfg, es); w.hub.peers[p].send == [] && w.hub.peers[q].send == []
    ensures var w := Run(cfg, es);
            && w.clients[p].offers[q] == (if p < q then 1 else 0)
            && w.clients[q].offers[p] == (if q < p then 1 else 0)
  {
    UntornSettles(cfg, es);
    if p < q { OfferLaw(cfg, es, p, q); } else { OfferLaw(cfg, es, q, p); }
  }

  // ------------------------------------------------------------------- routing

  /** Messages on behalf of another peer. */
  predicate Relayed(m: Message) { m.Forward? || m.RelayApproved? }

  /** No such message is new in any queue. */
  ghost predicate NoNewRelayed(s: State, s': State) {
    forall p, m {:trigger m in s'.peers[p].send} ::
      p in s'.peers && m in s'.peers[p].send && Relayed(m) ==> p in s.peers && m in s.peers[p].send
  }

  lemma NotifyNoRelayed(s: State, s': State, targets: set<Id>, m: Message)
    requires !Relayed(m) && s'.peers == Notify(s.peers, targets, m)
    ensures NoNewRelayed(s, s')
  {}

  lemma LeaveNoRelayed(s: State, id: Id, now: int)
    ensures NoNewRelayed(s, Unregister(s, id, now))
  {
    if id in s.peers && s.peers[id].room != NO_ROOM && s.peers[id].room in s.rooms {
      var t := s.(peers := s.peers - {id}, ipConns := Dec(s.ipConns, s.peers[id].ip));
      var left := t.rooms[s.peers[id].room].members - {id};
      NotifyNoRelayed(t, Unregister(s, id, now), left, PeerLeft(id));
      hide Notify, Unregister;
      assert NoNewRelayed(s, t);
    }
  }

  lemma JoinNoRelayed(s: State, cfg: Config, id: Id, requested: Code, asHost: bool, tries: seq<Code>, now: int)
    ensures NoNewRelayed(s, JoinOrCreate(s, cfg, id, requested, asHost, tries, now).0)
  {
    var (s', reply) := JoinOrCreate(s, cfg, id, requested, asHost, tries, now);
    if reply.Accepted? && requested != NO_ROOM && !asHost {
      var t := s.(peers := s.peers[id := s.peers[id].(room := requested, role := "guest")]);
      assert NoNewRelayed(s, t);
      NotifyNoRelayed(t, s', s'.rooms[requested].members - {id}, PeerJoined(id));
      hide Notify;
    }
  }

  lemma ReapNoRelayed(s: State, cfg: Config, now: int)
    ensures NoNewRelayed(s, Reap(s, cfg, now))
  {}

  lemma RouteForward(s: State, from: Id, msg: Routed, now: int, p: Id, m: Message)
    requires HubInvariant.Mirrored(s)
    requires var s' := Route(s, from, msg, now).0; p in s'.peers && m in s'.peers[p].send && Relayed(m)
    ensures p in s.peers
    ensures || m in s.peers[p].send
            || (from in s.peers && msg.to == p && m == Forward(msg.kind, from, msg.sdp, msg.candidate, msg.key)
                && s.peers[from].room == s.peers[p].room != NO_ROOM)
  {}

  /** What can put a message of another peer in `p`'s queue. */
  lemma RelayedBy(w: World, cfg: Config, e: Event, p: Id, m: Message)
    requires HubInvariant.Mirrored(w.hub)
    requires var w' := Step(w, cfg, e); p in w'.hub.peers && m in w'.hub.peers[p].send && Relayed(m)
    ensures || (p in w.hub.peers && m in w.hub.peers[p].send)
            || (e.Signal? && Enabled(w, e) && SharedRoom(w, e.id, p)
                && m == Forward(e.msg.kind, e.id, e.msg.sdp, e.msg.candidate, e.msg.key) && e.msg.to == p)
            || (e == Tell(p, m) && Enabled(w, e))
  {
    if Enabled(w, e) {
      hide JoinOrCreate, Unregister, Route, Reap, HubInvariant.Mirrored;
      match e
      case Join(id, requested, asHost, tries, now) => JoinNoRelayed(w.hub, cfg, id, requested, asHost, tries, now);
      case Signal(id, msg, now) =>
        if w.hub.peers[id].room != NO_ROOM { RouteForward(w.hub, id, msg, now, p, m); }
      case Disconnect(id, now) => LeaveNoRelayed(w.hub, id, now);
      case ReapIdle(now) => ReapNoRelayed(w.hub, cfg, now);
      case _ =>
    }
  }

  /** Both are in one room (a peer may write to itself). */
  ghost predicate SharedRoom(w: World, p: Id, q: Id) {
    p in w.hub.peers && q in w.hub.peers && w.hub.peers[p].room == w.hub.peers[q].room != NO_ROOM
  }

  /** Event `i` sent forwarded message `m` to `p`, unaltered, from the peer it names,
      while the two shared a room. */
  ghost predicate SentAt(cfg: Config, es: seq<Event>, i: nat, p: Id, m: Message) {
    && m.Forward? && i < |es| && es[i].Signal? && Enabled(Run(cfg, es[..i]), es[i])
    && es[i].id == m.from && es[i].msg.to == p
    && es[i].msg.kind == m.kind && es[i].msg.sdp == m.sdp && es[i].msg.candidate == m.candidate && es[i].msg.key == m.key
    && SharedRoom(Run(cfg, es[..i]), m.from, p)
  }

  lemma SentStays(cfg: Config, es: seq<Event>, e: Event, i: nat, p: Id, m: Message)
    requires SentAt(cfg, es, i, p, m)
    ensures SentAt(cfg, es + [e], i, p, m)
  {
    assert (es + [e])[..i] == es[..i];
    hide Run, Enabled, SharedRoom;
  }

  lemma SentLast(cfg: Config, es: seq<Event>, e: Event, p: Id, m: Message)
    requires m.Forward? && e.Signal? && Enabled(Run(cfg, es), e) && SharedRoom(Run(cfg, es), e.id, p)
    requires m == Forward(e.msg.kind, e.id, e.msg.sdp, e.msg.candidate, e.msg.key) && e.msg.to == p
    ensures SentAt(cfg, es + [e], |es|, p, m)
  {
    assert (es + [e])[..|es|] == es;
    hide Run, Enabled, SharedRoom;
  }

  predicate Queued(w: World, p: Id, m: Message) {
    p in w.hub.peers && m in w.hub.peers[p].send
  }

  /** A run's last event, as far as messages of another peer are concerned. */
  lemma RelayedLast(cfg: Config, es: seq<Event>, e: Event, p: Id, m: Message)
    requires Queued(Run(cfg, es + [e]), p, m) && Relayed(m)
    ensures || Queued(Run(cfg, es), p, m)
            || (e == Tell(p, m) && m.RelayApproved?)
            || (m.Forward? && SentAt(cfg, es + [e], |es|, p, m))
  {
    assert (es + [e])[..|es|] == es;
    AlwaysInv(cfg, es);
    RelayedBy(Run(cfg, es), cfg, e, p, m);
    if e.Signal? && m.Forward? && e.id == m.from && SharedRoom(Run(cfg, es), e.id, p) && Enabled(Run(cfg, es), e)
       && e.msg.to == p && m == Forward(e.msg.kind, e.id, e.msg.sdp, e.msg.candidate, e.msg.key) {
      SentLast(cfg, es, e, p, m);
    }
    hide Run, Step, SharedRoom, Roster.Inv, SentAt;
  }

  /** Every forwarded message in any queue was sent. */
  lemma {:induction false} ForwardedTruthfully(cfg: Config, es: seq<Event>, p: Id, m: Message) returns (i: nat)
    requires Queued(Run(cfg, es), p, m) && m.Forward?
    ensures SentAt(cfg, es, i, p, m)
  {
    assert es != [];
    hide Run, Queued, SentAt;
    var es0, e := es[..|es| - 1], es[|es| - 1];
    assert es == es0 + [e];
    RelayedLast(cfg, es0, e, p, m);
    if Queued(Run(cfg, es0), p, m) {
      i := ForwardedTruthfully(cfg, es0, p, m);
      SentStays(cfg, es0, e, i, p, m);
    } else {
      i := |es0|;
    }
  }

  /** Every relay approval in any queue was queued as such. */
  lemma {:induction false} ApprovalWasTold(cfg: Config, es: seq<Event>, p: Id, m: Message) returns (i: nat)
    requires Queued(Run(cfg, es), p, m) && m.RelayApproved?
    ensures i < |es| && es[i] == Tell(p, m)
  {
    assert es != [];
    hide Run, Queued, SentAt;
    var es0, e := es[..|es| - 1], es[|es| - 1];
    assert es == es0 + [e];
    RelayedLast(cfg, es0, e, p, m);
    if Queued(Run(cfg, es0), p, m) {
      i := ApprovalWasTold(cfg, es0, p, m);
    } else {
      i := |es0|;
    }
  }
}
