/** Why the list and the acknowledgement must be one step: a reachable state in
    which neither of two settled roommates will ever make the offer, and one in
    which a member believes a departed peer is still there. */
module RosterWitness {
  import opened Common
  import opened HubState
  import opened Roster
  import opened RosterTheorems

  const LIMITS: Config := Config(10, 10, 10, 10, 1800)

  lemma Then(es: seq<Event>, e: Event)
    ensures Run(LIMITS, es + [e]) == Step(Run(LIMITS, es), LIMITS, e)
  {
    assert (es + [e])[..|es + [e]| - 1] == es;
  }

  const HOST_ENTERS: Event := Join(1, 9, true, [], 0)
  const GUEST_ENTERS: Event := Join(2, 9, false, [], 0)

  /** A world of peers 1 and 2, room 9, no dropped message. */
  function Pair(one: Peer, two: Peer, members: set<Id>, phaseOne: Phase, phaseTwo: Phase): World {
    World(State(map[1 := one, 2 := two], if members == {} then map[] else map[9 := Room(members, 1, 1, 0, 0, MAX_MEMBERS)],
                map[1 := 1, 2 := 1], if members == {} then map[] else map[1 := 1]),
          map[1 := phaseOne, 2 := phaseTwo], map[1 := C.NEW_VIEW, 2 := C.NEW_VIEW], {1, 2}, {})
  }

  const OUTSIDE_TWO: Peer := Peer(2, "", NO_ROOM, [])
  const HOST: Peer := Peer(1, "host", 9, [])
  const GUEST: Peer := Peer(2, "guest", 9, [])
  const TOLD_HOST: Peer := Peer(1, "host", 9, [PeerJoined(2)])

  lemma Connected()
    ensures Run(LIMITS, [Connect(1, 1), Connect(2, 2)])
            == Pair(Peer(1, "", NO_ROOM, []), OUTSIDE_TWO, {}, Idle, Idle)
  {
    Then([], Connect(1, 1));
    assert [] + [Connect(1, 1)] == [Connect(1, 1)];
    Then([Connect(1, 1)], Connect(2, 2));
    assert [Connect(1, 1)] + [Connect(2, 2)] == [Connect(1, 1), Connect(2, 2)];
  }

  const HOSTED: seq<Event> := [Connect(1, 1), Connect(2, 2)] + [HOST_ENTERS]

  lemma Hosted()
    ensures Run(LIMITS, HOSTED) == Pair(HOST, OUTSIDE_TWO, {1}, Listing(9), Idle)
  {
    Connected();
    hide Run;
    Then([Connect(1, 1), Connect(2, 2)], HOST_ENTERS);
    assert Full(State(map[1 := Peer(1, "", NO_ROOM, []), 2 := OUTSIDE_TWO], map[], map[1 := 1, 2 := 1], map[]), {}) == {};
  }

  /** The hub of `Pair`. */
  function Tables(one: Peer, two: Peer, members: set<Id>): State {
    Pair(one, two, members, Idle, Idle).hub
  }

  lemma GuestIsEntered()
    ensures var s := Tables(HOST, OUTSIDE_TWO, {1});
            && JoinOrCreate(s, LIMITS, 2, 9, false, [], 0) == (Tables(TOLD_HOST, GUEST, {1, 2}), Accepted)
            && Full(s, {1}) == {}
  {
    var s := Tables(HOST, OUTSIDE_TWO, {1});
    var s' := Enter(s, 2, 9, 0);
    assert {1} + {2} == {1, 2} && {1, 2} - {2} == {1};
    assert s'.peers[1] == TOLD_HOST && s'.peers[2] == GUEST;
    assert s'.peers == map[1 := TOLD_HOST, 2 := GUEST] && s'.rooms == Tables(TOLD_HOST, GUEST, {1, 2}).rooms;
    hide Enter;
  }

  lemma GuestEnters(phase: Phase)
    requires phase == Listing(9) || phase == Acking(9, {})
    ensures Step(Pair(HOST, OUTSIDE_TWO, {1}, phase, Idle), LIMITS, GUEST_ENTERS)
            == Pair(TOLD_HOST, GUEST, {1, 2}, phase, Listing(9))
  {
    GuestIsEntered();
    hide JoinOrCreate, Full;
  }

  /** Five collisions: the guest asks for a generated code, the generator hits the
      host's code every time, and the host's room is overwritten. */
  lemma FiveCollisions()
    ensures var s := Run(LIMITS, HOSTED).hub;
            var s' := JoinOrCreate(s, LIMITS, 2, NO_ROOM, false, [9, 9, 9, 9, 9], 0).0;
            && HubInvariant.Inv(s, LIMITS) && !HubInvariant.Inv(s', LIMITS)
            && 9 in s.rooms && s.rooms[9].members == {1}
            && 9 in s'.rooms && s'.rooms[9].members == {2} && 1 in s'.peers && s'.peers[1].room == 9
  {
    Hosted();
    BooksBalance(LIMITS, HOSTED);
    var s := Run(LIMITS, HOSTED).hub;
    assert s == Pair(HOST, OUTSIDE_TWO, {1}, Listing(9), Idle).hub;
    hide Run, HubInvariant.Inv;
    HubInvariant.JoinKeepsInvIffCodeFree(s, LIMITS, 2, NO_ROOM, false, [9, 9, 9, 9, 9], 0);
    assert HubInvariant.MayOpen(s, LIMITS, 2) && HubInvariant.Exhausted(s, [9, 9, 9, 9, 9]);
    HubInvariant.PickedCodeIsFree(s.rooms.Keys, [9, 9, 9, 9, 9], 0);
    assert PickCode(s.rooms.Keys, [9, 9, 9, 9, 9], 0) == Some(9);
  }

  /** The host is listed an empty room; the guest enters; only then is the host's
      acknowledgement queued, behind the news of the guest.  The host handles
      that news before it knows its own id, so it never offers, and the guest
      leaves the offer to the smaller id. */
  lemma NobodyOffers() returns (es: seq<Event>)
    ensures var w := Run(LIMITS, es);
            && Informed(w, 1) && Informed(w, 2) && Roommates(w, 1, 2)
            && Caught(w, 1).offers[2] == 0 && Caught(w, 2).offers[1] == 0
  {
    Hosted();
    Then(HOSTED, List(1));
    es := HOSTED + [List(1)];
    assert Mates(Pair(HOST, OUTSIDE_TWO, {1}, Listing(9), Idle).hub, 1) == {};
    assert Run(LIMITS, es) == Pair(HOST, OUTSIDE_TWO, {1}, Acking(9, {}), Idle);
    GuestEnters(Acking(9, {}));
    Then(es, GUEST_ENTERS);
    es := es + [GUEST_ENTERS];
    es := BothAcknowledged(es);
    OfferLaw(LIMITS, es, 1, 2);
  }

  lemma BothAcknowledged(es: seq<Event>) returns (es': seq<Event>)
    requires Run(LIMITS, es) == Pair(TOLD_HOST, GUEST, {1, 2}, Acking(9, {}), Listing(9))
    ensures var w := Run(LIMITS, es');
            && Informed(w, 1) && Informed(w, 2) && Roommates(w, 1, 2) && 2 in w.phase[1].missed
  {
    hide Run;
    var w0 := Run(LIMITS, es);
    Then(es, Ack(1));
    var w1 := Run(LIMITS, es + [Ack(1)]);
    assert Mates(w0.hub, 1) == {2} && 2 in Missed(1, {2}, {});
    Then(es + [Ack(1)], List(2));
    var w2 := Run(LIMITS, es + [Ack(1)] + [List(2)]);
    assert w2.phase[2].Acking? && w2.hub == w1.hub && w2.phase[1] == w1.phase[1];
    es' := es + [Ack(1)] + [List(2)] + [Ack(2)];
    Then(es + [Ack(1)] + [List(2)], Ack(2));
  }

  /** The guest is listed the host; the host leaves; only then is the guest's
      acknowledgement queued: it will believe the host is there for good. */
  lemma GhostOfTheHost() returns (es: seq<Event>)
    ensures var w := Run(LIMITS, es);
            Informed(w, 2) && Mates(w.hub, 2) == {} && Caught(w, 2).roster == {1}
  {
    Hosted();
    es := GuestListed();
    es := HostGone(es);
    RosterLaw(LIMITS, es, 2);
    hide Run;
  }

  lemma GuestListed() returns (es: seq<Event>)
    requires Run(LIMITS, HOSTED) == Pair(HOST, OUTSIDE_TWO, {1}, Listing(9), Idle)
    ensures Run(LIMITS, es) == Pair(TOLD_HOST, GUEST, {1, 2}, Listing(9), Acking(9, {1}))
  {
    hide Run, Step, Pair, HOSTED;
    GuestEnters(Listing(9));
    Then(HOSTED, GUEST_ENTERS);
    es := HOSTED + [GUEST_ENTERS];
    Then(es, List(2));
    es := es + [List(2)];
    GuestLists();
  }

  lemma GuestLists()
    ensures Step(Pair(TOLD_HOST, GUEST, {1, 2}, Listing(9), Listing(9)), LIMITS, List(2))
            == Pair(TOLD_HOST, GUEST, {1, 2}, Listing(9), Acking(9, {1}))
  {
    assert Mates(Pair(TOLD_HOST, GUEST, {1, 2}, Listing(9), Listing(9)).hub, 2) == {1};
  }

  /** The host's departure, as the hub books it. */
  lemma HostIsUnregistered()
    ensures var s, s' := Tables(TOLD_HOST, GUEST, {1, 2}), Unregister(Tables(TOLD_HOST, GUEST, {1, 2}), 1, 0);
            && Full(s, Mates(s, 1)) == {}
            && s'.peers == map[2 := GUEST.(send := [PeerLeft(1)])]
            && s'.rooms.Keys == {9} && s'.rooms[9].members == {2}
  {
    var s := Tables(TOLD_HOST, GUEST, {1, 2});
    assert {1, 2} - {1} == {2} && Mates(s, 1) == {2} && Full(s, {2}) == {};
    assert s.peers - {1} == map[2 := GUEST];
    var s' := Unregister(s, 1, 0);
    var left := GUEST.(send := [PeerLeft(1)]);
    assert s'.peers.Keys == {2} && s'.peers[2] == left;
    assert s'.peers == map[2 := left];
  }

  lemma HostGone(es: seq<Event>) returns (es': seq<Event>)
    requires Run(LIMITS, es) == Pair(TOLD_HOST, GUEST, {1, 2}, Listing(9), Acking(9, {1}))
    ensures var w := Run(LIMITS, es');
            Informed(w, 2) && Mates(w.hub, 2) == {} && w.phase[2].stale == {1}
  {
    hide Run;
    var w0 := Run(LIMITS, es);
    assert w0.hub == Tables(TOLD_HOST, GUEST, {1, 2});
    HostIsUnregistered();
    Then(es, Disconnect(1, 0));
    var w1 := Run(LIMITS, es + [Disconnect(1, 0)]);
    assert w1.hub == Unregister(w0.hub, 1, 0) && w1.phase == map[2 := Acking(9, {1})] && w1.lossy == {};
    hide Unregister;
    assert w1.hub.peers[2].room == 9 && w1.hub.rooms[9].members == {2} && Mates(w1.hub, 2) == {};
    Then(es + [Disconnect(1, 0)], Ack(2));
    es' := es + [Disconnect(1, 0)] + [Ack(2)];
  }
}
