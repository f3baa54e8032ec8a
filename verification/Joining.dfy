/** Who gets in: connections and joins over whole runs, in terms of who is where
    (server/hub.go, server/ws.go). */
module Joining {
  import opened Common
  import opened HubState
  import opened HubInvariant
  import opened Roster
  import opened RosterTheorems
  import opened RoomLife

  function From(w: World, ip: Ip): set<Id> {
    set p | p in w.hub.peers && w.hub.peers[p].ip == ip
  }

  /** The rooms opened from `ip`. */
  function OpenedFrom(w: World, ip: Ip): set<Code> {
    set c | c in w.hub.rooms && w.hub.rooms[c].hostIP == ip
  }

  function Members(w: World, c: Code): set<Id> {
    set p | p in w.hub.peers && In(w, p, c)
  }

  /** A connection is taken in, with an empty queue and in no room, if and only if the
      server has fewer than its maximum and fewer than the maximum from its address. */
  lemma ConnectedIff(cfg: Config, es: seq<Event>, id: Id, ip: Ip)
    requires id !in Run(cfg, es).used
    ensures var w, w' := Run(cfg, es), Run(cfg, es + [Connect(id, ip)]);
            w'.hub == if |w.hub.peers| < cfg.maxGlobalConns && |From(w, ip)| < cfg.maxIPConns
                      then w.hub.(peers := w.hub.peers[id := Peer(ip, "", 0, [])],
                                  ipConns := w.hub.ipConns[ip := |From(w, ip)| + 1])
                      else w.hub
  {
    assert (es + [Connect(id, ip)])[..|es|] == es;
    var w := Run(cfg, es);
    BooksBalance(cfg, es);
    FromCount(w, cfg, ip);
    assert Step(w, cfg, Connect(id, ip)).hub == Register(w.hub, cfg, id, ip).0;
    assert Run(cfg, es + [Connect(id, ip)]) == Step(w, cfg, Connect(id, ip));
    hide Run, HubInvariant.Inv, From, Step;
  }

  lemma FromCount(w: World, cfg: Config, ip: Ip)
    requires HubInvariant.Inv(w.hub, cfg)
    ensures Get(w.hub.ipConns, ip) == |From(w, ip)|
  {
    assert From(w, ip) == PeersAt(w.hub.peers, ip);
  }

  predicate MayOpenRoom(w: World, cfg: Config, id: Id)
    requires id in w.hub.peers
  {
    |w.hub.rooms| < cfg.maxGlobalRooms && |OpenedFrom(w, w.hub.peers[id].ip)| < cfg.maxIPRooms
  }

  /** The code an opening peer gets: the one it asks for, when free, or the first free one
      of at most five that are generated. */
  predicate Obtains(w: World, requested: Code, tries: seq<Code>, c: Code) {
    c !in w.hub.rooms
    && if requested != NO_ROOM then c == requested
       else exists j :: 0 <= j < 5 && j < |tries| && tries[j] == c && forall k :: 0 <= k < j ==> tries[k] in w.hub.rooms
  }

  lemma {:induction false} FirstFree(rooms: set<Code>, tries: seq<Code>, i: nat)
    requires i < CODE_TRIES
    requires !(|tries| >= 5 && forall j :: i <= j < 5 ==> tries[j] in rooms)
    ensures var picked := PickCode(rooms, tries, i);
            && (picked.Some? ==> exists j :: i <= j < 5 && j < |tries| && tries[j] == picked.value && picked.value !in rooms
                                             && forall k :: i <= k < j ==> tries[k] in rooms)
            && (picked.None? ==> forall j :: i <= j < |tries| ==> tries[j] in rooms)
    decreases CODE_TRIES - i
  {
    if i < |tries| && tries[i] in rooms {
      FirstFree(rooms, tries, i + 1);
    }
  }

  lemma HostedCount(w: World, cfg: Config, ip: Ip)
    requires HubInvariant.Inv(w.hub, cfg)
    ensures Get(w.hub.ipRooms, ip) == |OpenedFrom(w, ip)|
  {
    assert OpenedFrom(w, ip) == RoomsAt(w.hub.rooms, ip);
  }

  lemma MemberCount(w: World, cfg: Config, c: Code)
    requires HubInvariant.Inv(w.hub, cfg) && c in w.hub.rooms
    ensures w.hub.rooms[c].members == Members(w, c) && w.hub.rooms[c].maxMembers == 5
  {}

  /** An opening join: the peer gets a room if and only if both caps leave space and there
      is a code to be had; then it is alone in it, as its host.  Otherwise the hub stays as
      it is. */
  lemma OpensIff(cfg: Config, es: seq<Event>, e: Event)
    requires e.Join? && Enabled(Run(cfg, es), e) && In(Run(cfg, es), e.id, NO_ROOM) && (e.requested == NO_ROOM || e.asHost)
    ensures var w, w' := Run(cfg, es), Run(cfg, es + [e]);
            && (forall c: Code :: Obtains(w, e.requested, e.tries, c) && MayOpenRoom(w, cfg, e.id) ==> OpensAs(w, w', e.id, c, e.now))
            && (!MayOpenRoom(w, cfg, e.id) || !(exists c: Code :: Obtains(w, e.requested, e.tries, c)) ==> w'.hub == w.hub)
  {
    assert (es + [e])[..|es|] == es;
    BooksBalance(cfg, es);
    var w := Run(cfg, es);
    JoinIsJoin(w, cfg, e);
    HostedCount(w, cfg, w.hub.peers[e.id].ip);
    assert Run(cfg, es + [e]) == Step(w, cfg, e);
    OpeningJoin(w, cfg, e);
    hide Run, Step, JoinOrCreate, HubInvariant.Inv, Enabled, Obtains;
    var c := Opened(w, e);
    if c.Some? && MayOpenRoom(w, cfg, e.id) {
      CreateOpens(w, Run(cfg, es + [e]), e.id, c.value, e.now);
    }
    hide OpensAs, MayOpenRoom;
  }

  /** `id` is alone in the new room `c`, as its host; nothing changes for anybody else. */
  ghost predicate OpensAs(w: World, w': World, id: Id, c: Code, now: int)
    requires id in w.hub.peers
  {
    var p := w.hub.peers[id];
    && w'.hub.peers == w.hub.peers[id := p.(room := c, role := "host")]
    && w'.hub.rooms == w.hub.rooms[c := Room({id}, id, p.ip, now, now, 5)]
  }

  lemma CreateOpens(w: World, w': World, id: Id, c: Code, now: int)
    requires id in w.hub.peers && w'.hub == Create(w.hub, id, c, now)
    ensures OpensAs(w, w', id, c, now)
  {
    hide Inc;
  }

  /** The code the hub opens, if it may. */
  function Opened(w: World, e: Event): Option<Code>
    requires e.Join?
  {
    if e.requested == NO_ROOM then PickCode(w.hub.rooms.Keys, e.tries, 0)
    else if e.requested in w.hub.rooms then None else Some(e.requested)
  }

  lemma OpeningJoin(w: World, cfg: Config, e: Event)
    requires e.Join? && Enabled(w, e) && In(w, e.id, NO_ROOM) && (e.requested == NO_ROOM || e.asHost)
    ensures var hub, c := JoinOrCreate(w.hub, cfg, e.id, e.requested, e.asHost, e.tries, e.now).0, Opened(w, e);
            && (forall x: Code :: Obtains(w, e.requested, e.tries, x) <==> c == Some(x))
            && hub == if |w.hub.rooms| < cfg.maxGlobalRooms && Get(w.hub.ipRooms, w.hub.peers[e.id].ip) < cfg.maxIPRooms
                         && c.Some?
                      then Create(w.hub, e.id, c.value, e.now) else w.hub
  {
    if e.requested == NO_ROOM {
      PicksObtainable(w, e.tries);
      hide Obtains;
    }
    hide PickCode, Create, Enter, Get;
  }

  /** The generated code, if any, is the only one obtainable. */
  lemma PicksObtainable(w: World, tries: seq<Code>)
    requires !(|tries| >= 5 && forall j :: 0 <= j < 5 ==> tries[j] in w.hub.rooms)
    ensures var picked := PickCode(w.hub.rooms.Keys, tries, 0);
            && (picked.Some? ==> Obtains(w, NO_ROOM, tries, picked.value))
            && (forall c: Code :: Obtains(w, NO_ROOM, tries, c) ==> picked == Some(c))
  {
    FirstFree(w.hub.rooms.Keys, tries, 0);
    hide PickCode;
  }

  lemma JoinIsJoin(w: World, cfg: Config, e: Event)
    requires e.Join? && Enabled(w, e) && In(w, e.id, NO_ROOM)
    ensures Step(w, cfg, e).hub == JoinOrCreate(w.hub, cfg, e.id, e.requested, e.asHost, e.tries, e.now).0
  {
    JoinStirs(w.hub, cfg, e.id, e.requested, e.asHost, e.tries, e.now);
    hide JoinOrCreate;
  }

  /** A join to a room: the peer enters, as a guest, if and only if the room exists and has
      fewer than five members.  Otherwise the hub stays as it is. */
  lemma EntersIff(cfg: Config, es: seq<Event>, e: Event)
    requires e.Join? && Enabled(Run(cfg, es), e) && In(Run(cfg, es), e.id, NO_ROOM) && e.requested != NO_ROOM && !e.asHost
    ensures var w, w', c := Run(cfg, es), Run(cfg, es + [e]), e.requested;
            if c in w.hub.rooms && |Members(w, c)| < 5 then EntersAs(w, w', e.id, c) else w'.hub == w.hub
  {
    assert (es + [e])[..|es|] == es;
    BooksBalance(cfg, es);
    var w := Run(cfg, es);
    JoinIsJoin(w, cfg, e);
    assert Run(cfg, es + [e]) == Step(w, cfg, e);
    if e.requested in w.hub.rooms {
      MemberCount(w, cfg, e.requested);
      EnterEntrant(w, Run(cfg, es + [e]), cfg, e.id, e.requested, e.now);
    }
    hide Run, Step, HubInvariant.Inv, Enter, Members, EntersAs;
  }

  /** `id` is a member of `c`, in the role of a guest; the others there are told, unless their
      queue is full; nothing else changes for anybody. */
  ghost predicate EntersAs(w: World, w': World, id: Id, c: Code)
    requires id in w.hub.peers
  {
    && w'.hub.peers.Keys == w.hub.peers.Keys
    && w'.hub.peers[id] == w.hub.peers[id].(room := c, role := "guest")
    && Members(w', c) == Members(w, c) + {id}
    && forall q :: q in w.hub.peers && q != id ==>
         w'.hub.peers[q] == w.hub.peers[q].(send := w.hub.peers[q].send
           + if In(w, q, c) && |w.hub.peers[q].send| < 256 then [PeerJoined(id)] else [])
  }

  lemma EnterEntrant(w: World, w': World, cfg: Config, id: Id, c: Code, now: int)
    requires HubInvariant.Inv(w.hub, cfg) && In(w, id, NO_ROOM) && c in w.hub.rooms && c != NO_ROOM
    ensures w'.hub == Enter(w.hub, id, c, now) ==> EntersAs(w, w', id, c)
  {
    MemberCount(w, cfg, c);
    assert id !in w.hub.rooms[c].members;
    hide HubInvariant.Inv;
  }

  // ------------------------------------------------------------ the acknowledgement

  function RoleOf(e: Event): string
    requires e.Join?
  {
    if e.requested == NO_ROOM || e.asHost then "host" else "guest"
  }

  /** Nobody but a joiner changes role, and no acknowledgement is new in any queue. */
  ghost predicate Unacknowledged(s: State, s': State, joiner: Option<Id>) {
    && (forall p :: p in s.peers && p in s'.peers && joiner != Some(p) ==> s'.peers[p].role == s.peers[p].role)
    && (forall p, m {:trigger m in s'.peers[p].send} :: p in s'.peers && m in s'.peers[p].send && m.Joined? ==>
          p in s.peers && m in s.peers[p].send)
  }

  lemma NotifyUnacknowledged(s: State, s': State, targets: set<Id>, m: Message)
    requires !m.Joined? && s'.peers == Notify(s.peers, targets, m)
    ensures Unacknowledged(s, s', None)
  {}

  lemma LeaveUnacknowledged(s: State, id: Id, now: int)
    ensures Unacknowledged(s, Unregister(s, id, now), None)
  {
    if id in s.peers && s.peers[id].room != NO_ROOM && s.peers[id].room in s.rooms {
      var t := s.(peers := s.peers - {id}, ipConns := Dec(s.ipConns, s.peers[id].ip));
      var left := t.rooms[s.peers[id].room].members - {id};
      NotifyUnacknowledged(t, Unregister(s, id, now), left, PeerLeft(id));
      hide Notify, Unregister;
      assert Unacknowledged(s, t, None);
    }
  }

  lemma EnterUnacknowledged(s: State, id: Id, code: Code, now: int)
    requires id in s.peers && code in s.rooms
    ensures Unacknowledged(s, Enter(s, id, code, now), Some(id))
  {
    var t := s.(peers := s.peers[id := s.peers[id].(room := code, role := "guest")]);
    var others := s.rooms[code].members + {id} - {id};
    assert Enter(s, id, code, now).peers == Notify(t.peers, others, PeerJoined(id));
    hide Enter, Notify;
    NotifyUnacknowledged(t, Enter(s, id, code, now), others, PeerJoined(id));
    assert Unacknowledged(s, t, Some(id));
  }

  lemma CreateUnacknowledged(s: State, id: Id, code: Code, now: int)
    requires id in s.peers
    ensures Unacknowledged(s, Create(s, id, code, now), Some(id))
  {
    hide Inc;
  }

  lemma JoinUnacknowledged(s: State, cfg: Config, id: Id, requested: Code, asHost: bool, tries: seq<Code>, now: int)
    ensures Unacknowledged(s, JoinOrCreate(s, cfg, id, requested, asHost, tries, now).0, Some(id))
  {
    hide PickCode, Create, Enter;
    if JoinOrCreate(s, cfg, id, requested, asHost, tries, now).1.Accepted? {
      if requested == NO_ROOM {
        CreateUnacknowledged(s, id, PickCode(s.rooms.Keys, tries, 0).value, now);
      } else if asHost {
        CreateUnacknowledged(s, id, requested, now);
      } else {
        EnterUnacknowledged(s, id, requested, now);
      }
    } else {
      assert JoinOrCreate(s, cfg, id, requested, asHost, tries, now).0 == s;
    }
  }

  lemma JoinerRole(s: State, cfg: Config, id: Id, requested: Code, asHost: bool, tries: seq<Code>, now: int)
    ensures JoinOrCreate(s, cfg, id, requested, asHost, tries, now).1.Accepted? ==>
              id in s.peers && JoinOrCreate(s, cfg, id, requested, asHost, tries, now).0.peers[id].role
                               == if requested == NO_ROOM || asHost then "host" else "guest"
  {
    hide PickCode, Inc;
  }

  lemma ReapUnacknowledged(s: State, cfg: Config, now: int)
    ensures Unacknowledged(s, Reap(s, cfg, now), None)
  {}

  lemma RouteUnacknowledged(s: State, from: Id, msg: Routed, now: int)
    ensures Unacknowledged(s, Route(s, from, msg, now).0, None)
  {}

  /** Before event `e` the reader of `p` was where it is after it. */
  predicate Carried(w: World, w': World, p: Id) {
    && p in w.phase && p in w'.phase && w'.phase[p] == w.phase[p]
    && p in w.hub.peers && p in w'.hub.peers && w'.hub.peers[p].role == w.hub.peers[p].role
  }

  predicate Joins(w: World, w': World, e: Event, p: Id, c: Code) {
    && e.Join? && e.id == p && Enabled(w, e) && In(w, p, NO_ROOM) && In(w', p, c) && c != NO_ROOM
    && w'.hub.peers[p].role == RoleOf(e)
  }

  /** The others in `p`'s room. */
  function Others(w: World, p: Id): set<Id>
    requires p in w.hub.peers
  {
    if w.hub.peers[p].room == NO_ROOM then {} else set q | q in w.hub.peers && q != p && In(w, q, w.hub.peers[p].room)
  }

  predicate Lists(w: World, e: Event, p: Id, listed: set<Id>) {
    e == List(p) && Enabled(w, e) && listed == Others(w, p)
  }

  lemma OthersAreMates(w: World, p: Id)
    requires Mirrored(w.hub) && p in w.hub.peers
    ensures Mates(w.hub, p) == Others(w, p)
  {}

  /** How a reader gets to an acknowledgement. */
  /** How a reader gets to an acknowledgement. */
  ghost predicate ReaderMoved(w: World, w': World, e: Event, p: Id)
    requires p in w'.phase && (w'.phase[p].Listing? || w'.phase[p].Acking?)
  {
    || Carried(w, w', p)
    || (w'.phase[p].Listing? && Joins(w, w', e, p, w'.phase[p].room))
    || (w'.phase[p].Acking? && Lists(w, e, p, w'.phase[p].listed)
        && p in w.phase && w.phase[p] == Listing(w'.phase[p].room)
        && p in w'.hub.peers && w'.hub.peers[p].role == w.hub.peers[p].role)
  }

  lemma JoinMovesReader(w: World, w': World, cfg: Config, e: Event, p: Id)
    requires Keyed(w) && Keyed(w') && Mirrored(w'.hub) && e.Join? && Enabled(w, e) && w' == Step(w, cfg, e)
    requires p in w'.phase && (w'.phase[p].Listing? || w'.phase[p].Acking?)
    ensures ReaderMoved(w, w', e, p)
  {
    if p != e.id {
      BystanderCarried(w, w', cfg, e, p);
    } else {
      hide Mirrored, ReaderMoved;
      JoinerMoved(w, w', cfg, e, p);
    }
  }

  lemma BystanderCarried(w: World, w': World, cfg: Config, e: Event, p: Id)
    requires Keyed(w) && Keyed(w') && e.Join? && Enabled(w, e) && w' == Step(w, cfg, e)
    requires p in w'.phase && p != e.id
    ensures Carried(w, w', p)
  {
    JoinUnacknowledged(w.hub, cfg, e.id, e.requested, e.asHost, e.tries, e.now);
    hide JoinOrCreate;
  }

  lemma JoinerMoved(w: World, w': World, cfg: Config, e: Event, p: Id)
    requires Keyed(w) && Keyed(w') && Mirrored(w'.hub) && e.Join? && Enabled(w, e) && w' == Step(w, cfg, e)
    requires p == e.id && p in w'.phase && (w'.phase[p].Listing? || w'.phase[p].Acking?)
    ensures ReaderMoved(w, w', e, p)
  {
    JoinerRole(w.hub, cfg, e.id, e.requested, e.asHost, e.tries, e.now);
    JoinStirs(w.hub, cfg, e.id, e.requested, e.asHost, e.tries, e.now);
    hide JoinOrCreate;
    if w.hub.peers[p].room == NO_ROOM && w'.phase[p].Listing? {
      InARoom(w', p);
    }
    hide Mirrored;
  }

  /** The hub's part of every other step. */
  lemma OtherHub(w: World, cfg: Config, e: Event)
    requires Keyed(w) && Enabled(w, e) && !e.Join? && !e.Ack?
    ensures Unacknowledged(w.hub, Step(w, cfg, e).hub, None)
  {
    if e.Connect? || e.Deliver? {
      ConnectOrDeliver(w, cfg, e);
      hide Step, Unacknowledged;
    } else {
      hide Unregister, Route, Reap, Notify;
      match e {
        case Signal(id, msg, now) => RouteUnacknowledged(w.hub, id, msg, now);
        case Disconnect(id, now) => LeaveUnacknowledged(w.hub, id, now);
        case ReapIdle(now) => ReapUnacknowledged(w.hub, cfg, now);
        case Tell(id, m) => NotifyUnacknowledged(w.hub, Step(w, cfg, e).hub, {id}, m);
        case _ =>
      }
    }
  }

  lemma ConnectOrDeliver(w: World, cfg: Config, e: Event)
    requires Keyed(w) && Enabled(w, e) && (e.Connect? || e.Deliver?)
    ensures Unacknowledged(w.hub, Step(w, cfg, e).hub, None)
  {}

  lemma OtherMovesReader(w: World, w': World, cfg: Config, e: Event, p: Id)
    requires Keyed(w) && Keyed(w') && Mirrored(w.hub) && Enabled(w, e) && !e.Join? && w' == Step(w, cfg, e)
    requires p in w'.phase && (w'.phase[p].Listing? || w'.phase[p].Acking?)
    ensures ReaderMoved(w, w', e, p)
  {
    if e.Ack? {
      hide Mates;
      assert p != e.id;
    } else {
      OtherHub(w, cfg, e);
      hide Unregister, Route, Reap, Notify, Mates, Unacknowledged;
      if e == List(p) {
        OthersAreMates(w, p);
        hide Mirrored;
      } else {
        hide Mirrored;
        PhaseStays(w, cfg, e, p);
        assert w'.hub.peers[p].role == w.hub.peers[p].role by { assert Unacknowledged(w.hub, w'.hub, None); }
      }
    }
  }

  lemma PhaseStays(w: World, cfg: Config, e: Event, p: Id)
    requires Enabled(w, e) && !e.Join? && !e.Ack? && e != List(p)
    requires var w' := Step(w, cfg, e); p in w'.phase && (w'.phase[p].Listing? || w'.phase[p].Acking?)
    ensures p in w.phase && Step(w, cfg, e).phase[p] == w.phase[p]
  {
    hide Unregister, Route, Reap, Notify, Mates, Register;
  }

  lemma ReaderAfter(w: World, cfg: Config, e: Event, p: Id)
    requires Roster.Inv(w, cfg) && p in Step(w, cfg, e).phase
    requires var ph := Step(w, cfg, e).phase[p]; ph.Listing? || ph.Acking?
    ensures ReaderMoved(w, Step(w, cfg, e), e, p)
  {
    assert Mirrored(w.hub) && Keyed(w);
    StepKeepsInv(w, cfg, e);
    var w' := Step(w, cfg, e);
    assert Keyed(w') && Mirrored(w'.hub);
    hide Roster.Inv, Mirrored, HubInvariant.Inv, ReaderMoved;
    if !Enabled(w, e) {
      StaysPut(w, e, p);
    } else if e.Join? {
      JoinMovesReader(w, w', cfg, e, p);
    } else {
      OtherMovesReader(w, w', cfg, e, p);
    }
  }

  lemma StaysPut(w: World, e: Event, p: Id)
    requires Keyed(w) && p in w.phase && (w.phase[p].Listing? || w.phase[p].Acking?)
    ensures ReaderMoved(w, w, e, p)
  {}

  lemma InARoom(w: World, p: Id)
    requires Mirrored(w.hub) && p in w.hub.peers && w.hub.peers[p].room in w.hub.rooms
    ensures w.hub.peers[p].room != NO_ROOM
  {}

  // --------------------------------------------------------------------- runs

  /** Event `j` took `p` into room `c`. */
  ghost predicate JoinedAt(cfg: Config, es: seq<Event>, j: nat, p: Id, c: Code) {
    j < |es| && Joins(Run(cfg, es[..j]), Run(cfg, es[..j + 1]), es[j], p, c)
  }

  lemma RoleStays(cfg: Config, es: seq<Event>, j: nat, p: Id, c: Code)
    requires es != [] && JoinedAt(cfg, es[..|es| - 1], j, p, c)
    ensures JoinedAt(cfg, es, j, p, c) && es[..|es| - 1][j] == es[j] && es[j].Join?
  {
    var es0 := es[..|es| - 1];
    assert es0[..j] == es[..j] && es0[..j + 1] == es[..j + 1];
    hide Run, Enabled, In;
  }

  /** A reader about to list or to acknowledge was let into the room it will name, with the
      role it has. */
  lemma {:induction false} ReaderJoined(cfg: Config, es: seq<Event>, p: Id) returns (j: nat)
    requires p in Run(cfg, es).phase
    requires var ph := Run(cfg, es).phase[p]; ph.Listing? || ph.Acking?
    ensures JoinedAt(cfg, es, j, p, Run(cfg, es).phase[p].room)
    ensures p in Run(cfg, es).hub.peers && Run(cfg, es).hub.peers[p].role == RoleOf(es[j])
  {
    SomethingHappened(cfg, es, p);
    hide Run, Lists, Joins, JoinedAt;
    var es0, e := es[..|es| - 1], es[|es| - 1];
    LastMove(cfg, es, p);
    if Joins(Run(cfg, es0), Run(cfg, es), e, p, Run(cfg, es).phase[p].room) {
      j := |es0|;
      JoinedLast(cfg, es, p, Run(cfg, es).phase[p].room);
    } else {
      j := ReaderJoined(cfg, es0, p);
      RoleStays(cfg, es, j, p, Run(cfg, es).phase[p].room);
    }
  }

  lemma SomethingHappened(cfg: Config, es: seq<Event>, p: Id)
    requires p in Run(cfg, es).phase || p in Run(cfg, es).hub.peers
    ensures es != []
  {
    hide Step;
  }

  lemma LastMove(cfg: Config, es: seq<Event>, p: Id)
    requires es != [] && p in Run(cfg, es).phase
    requires var ph := Run(cfg, es).phase[p]; ph.Listing? || ph.Acking?
    ensures ReaderMoved(Run(cfg, es[..|es| - 1]), Run(cfg, es), es[|es| - 1], p)
  {
    hide Step, Roster.Inv, ReaderMoved;
    AlwaysInv(cfg, es[..|es| - 1]);
    ReaderAfter(Run(cfg, es[..|es| - 1]), cfg, es[|es| - 1], p);
  }

  lemma JoinedLast(cfg: Config, es: seq<Event>, p: Id, c: Code)
    requires es != [] && Joins(Run(cfg, es[..|es| - 1]), Run(cfg, es), es[|es| - 1], p, c)
    ensures JoinedAt(cfg, es, |es| - 1, p, c) && es[|es| - 1].Join?
    ensures p in Run(cfg, es).hub.peers && Run(cfg, es).hub.peers[p].role == RoleOf(es[|es| - 1])
  {
    assert es[..|es|] == es;
    hide Run, Enabled;
  }

  ghost predicate ListedAt(cfg: Config, es: seq<Event>, l: nat, p: Id, listed: set<Id>) {
    l < |es| && Lists(Run(cfg, es[..l]), es[l], p, listed)
  }

  lemma {:induction false} ReaderListed(cfg: Config, es: seq<Event>, p: Id) returns (j: nat, l: nat)
    requires p in Run(cfg, es).phase && Run(cfg, es).phase[p].Acking?
    ensures j < l && JoinedAt(cfg, es, j, p, Run(cfg, es).phase[p].room)
    ensures p in Run(cfg, es).hub.peers && Run(cfg, es).hub.peers[p].role == RoleOf(es[j])
    ensures ListedAt(cfg, es, l, p, Run(cfg, es).phase[p].listed)
  {
    SomethingHappened(cfg, es, p);
    hide Run, Lists, Joins, JoinedAt, ListedAt;
    var es0 := es[..|es| - 1];
    LastMove(cfg, es, p);
    if Carried(Run(cfg, es0), Run(cfg, es), p) {
      j, l := ReaderListed(cfg, es0, p);
      ListedStays(cfg, es, l, p, Run(cfg, es).phase[p].listed);
    } else {
      j := ReaderJoined(cfg, es0, p);
      JoinedWithin(cfg, es0, j, p, Run(cfg, es).phase[p].room);
      l := |es0|;
      ListedLast(cfg, es, p, Run(cfg, es).phase[p].listed);
    }
    RoleStays(cfg, es, j, p, Run(cfg, es).phase[p].room);
  }

  lemma JoinedWithin(cfg: Config, es: seq<Event>, j: nat, p: Id, c: Code)
    requires JoinedAt(cfg, es, j, p, c)
    ensures j < |es| && es[j].Join?
  {
    hide Run, Enabled;
  }

  lemma ListedStays(cfg: Config, es: seq<Event>, l: nat, p: Id, listed: set<Id>)
    requires es != [] && ListedAt(cfg, es[..|es| - 1], l, p, listed)
    ensures ListedAt(cfg, es, l, p, listed)
  {
    assert es[..|es| - 1][..l] == es[..l];
    hide Run, Lists;
  }

  lemma ListedLast(cfg: Config, es: seq<Event>, p: Id, listed: set<Id>)
    requires es != [] && Lists(Run(cfg, es[..|es| - 1]), es[|es| - 1], p, listed)
    ensures ListedAt(cfg, es, |es| - 1, p, listed)
  {
    hide Run, Lists;
  }

  /** The acknowledgement `m`, queued for `p` by event `a`: `p` was let into the room it
      names by event `j`, in the role it names, and listed then, by event `l`, whom it names. */
  ghost predicate Acknowledged(cfg: Config, es: seq<Event>, p: Id, m: Message, j: nat, l: nat, a: nat) {
    && j < l < a < |es| && m.Joined? && m.self == p
    && JoinedAt(cfg, es, j, p, m.room) && m.role == RoleOf(es[j])
    && ListedAt(cfg, es, l, p, m.peers) && es[a] == Ack(p)
  }

  lemma AckAfter(w: World, cfg: Config, e: Event, p: Id, m: Message)
    requires Keyed(w) && Queued(Step(w, cfg, e), p, m) && m.Joined?
    ensures || Queued(w, p, m)
            || (e == Ack(p) && p in w.hub.peers && p in w.phase && w.phase[p].Acking?
                && m == Joined(w.phase[p].room, p, w.hub.peers[p].role, w.phase[p].listed))
  {
    if Enabled(w, e) {
      if e.Join? {
        JoinUnacknowledged(w.hub, cfg, e.id, e.requested, e.asHost, e.tries, e.now);
        hide JoinOrCreate;
      } else if !e.Ack? {
        OtherHub(w, cfg, e);
        hide Step;
      } else {
        hide Mates;
      }
    }
  }

  lemma AcknowledgedNow(cfg: Config, es: seq<Event>, p: Id, m: Message) returns (j: nat, l: nat)
    requires es != [] && es[|es| - 1] == Ack(p)
    requires var w := Run(cfg, es[..|es| - 1]);
             && p in w.hub.peers && p in w.phase && w.phase[p].Acking?
             && m == Joined(w.phase[p].room, p, w.hub.peers[p].role, w.phase[p].listed)
    ensures Acknowledged(cfg, es, p, m, j, l, |es| - 1)
  {
    hide Run, JoinedAt, ListedAt;
    j, l := ReaderListed(cfg, es[..|es| - 1], p);
    ListedWithin(cfg, es[..|es| - 1], l, p, m.peers);
    RoleStays(cfg, es, j, p, m.room);
    ListedStays(cfg, es, l, p, m.peers);
  }

  lemma ListedWithin(cfg: Config, es: seq<Event>, l: nat, p: Id, listed: set<Id>)
    requires ListedAt(cfg, es, l, p, listed)
    ensures l < |es|
  {
    hide Run, Lists;
  }

  lemma AcknowledgedBefore(cfg: Config, es: seq<Event>, p: Id, m: Message, j: nat, l: nat, a: nat)
    requires es != [] && Acknowledged(cfg, es[..|es| - 1], p, m, j, l, a)
    ensures Acknowledged(cfg, es, p, m, j, l, a)
  {
    hide Run, JoinedAt, ListedAt;
    RoleStays(cfg, es, j, p, m.room);
    ListedStays(cfg, es, l, p, m.peers);
  }

  /** Every acknowledgement in a queue tells its peer the room it entered, its role there
      and who was in it when it was listed. */
  lemma {:induction false} AcknowledgedTruthfully(cfg: Config, es: seq<Event>, p: Id, m: Message)
    returns (j: nat, l: nat, a: nat)
    requires Queued(Run(cfg, es), p, m) && m.Joined?
    ensures Acknowledged(cfg, es, p, m, j, l, a)
  {
    SomethingHappened(cfg, es, p);
    hide Run, Queued, Acknowledged;
    LastAck(cfg, es, p, m);
    if Queued(Run(cfg, es[..|es| - 1]), p, m) {
      j, l, a := AcknowledgedTruthfully(cfg, es[..|es| - 1], p, m);
      AcknowledgedBefore(cfg, es, p, m, j, l, a);
    } else {
      a := |es| - 1;
      j, l := AcknowledgedNow(cfg, es, p, m);
    }
  }

  lemma LastAck(cfg: Config, es: seq<Event>, p: Id, m: Message)
    requires es != [] && Queued(Run(cfg, es), p, m) && m.Joined?
    ensures var w, e := Run(cfg, es[..|es| - 1]), es[|es| - 1];
            || Queued(w, p, m)
            || (e == Ack(p) && p in w.hub.peers && p in w.phase && w.phase[p].Acking?
                && m == Joined(w.phase[p].room, p, w.hub.peers[p].role, w.phase[p].listed))
  {
    hide Step, Keyed, Queued;
    BothKeyed(cfg, es[..|es| - 1]);
    AckAfter(Run(cfg, es[..|es| - 1]), cfg, es[|es| - 1], p, m);
  }

  lemma BothKeyed(cfg: Config, es: seq<Event>)
    ensures Keyed(Run(cfg, es))
  {
    AlwaysInv(cfg, es);
    hide Run, HubInvariant.Inv, Tracked, Keyed;
  }
}
