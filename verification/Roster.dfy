/** Hub, connections and clients together: who each member believes is in its
    room, and who makes the WebRTC offer.

    A join takes the server three steps, between which anything may happen: the
    hub enters the peer under its lock (server/hub.go:254-276), the reader then
    lists the room without the lock (server/ws.go:259-264), and then queues the
    acknowledgement (server/ws.go:266-274). */
module Roster {
  import opened Common
  import opened HubState
  import opened HubInvariant
  import C = Client

  /** How far a connection's reader has come. */
  datatype Phase =
    | Idle                                         // no join accepted yet
    | Listing(room: Code)                          // entered; the room is about to be listed
    | Acking(room: Code, listed: set<Id>)          // listed; the acknowledgement is about to be queued
    | Settled(stale: set<Id>, missed: set<Id>)     // acknowledged
    | Closing                                      // the reader has stopped

  datatype World = World(
    hub: State,
    phase: map<Id, Phase>,
    clients: map<Id, C.View>,
    used: set<Id>,       // ids ever given out
    lossy: set<Id>       // peers for which a membership message was dropped
  )

  datatype Event =
    | Connect(id: Id, ip: Ip)
    | Join(id: Id, requested: Code, asHost: bool, tries: seq<Code>, now: int)
    | List(id: Id)
    | Ack(id: Id)
    | Signal(id: Id, msg: Routed, now: int)
    | RelayAsk(id: Id)            // a relay-request is read
    | Tell(id: Id, m: Message)    // the answer to one, or part of it, is queued
    | Disconnect(id: Id, now: int)
    | ReapIdle(now: int)
    | Deliver(id: Id)

  const START: World := World(EMPTY, map[], map[], {}, {})

  /** The other members of `id`'s room. */
  function Mates(s: State, id: Id): set<Id>
    requires id in s.peers
  {
    if s.peers[id].room in s.rooms then s.rooms[s.peers[id].room].members - {id} else {}
  }

  /** Of those not listed, the ones `id` would have had to offer to. */
  function Missed(id: Id, mates: set<Id>, listed: set<Id>): set<Id> {
    set x | x in mates && x !in listed && id < x
  }

  function Full(s: State, ids: set<Id>): set<Id> {
    set id | id in ids && id in s.peers && |s.peers[id].send| >= 256
  }

  function Set(w: World, id: Id, phase: Phase): World {
    w.(phase := w.phase[id := phase])
  }

  /** The reader handles a `join`.  Once one join was acknowledged, another that
      the hub accepts panics on the closed channel and ends the connection. */
  function StepJoin(w: World, cfg: Config, id: Id, requested: Code, asHost: bool, tries: seq<Code>, now: int): World
    requires id in w.hub.peers && id in w.phase
  {
    if w.hub.peers[id].room != NO_ROOM then Set(w, id, Closing)
    else
      var (hub, reply) := JoinOrCreate(w.hub, cfg, id, requested, asHost, tries, now);
      if reply.Rejected? then Set(w, id, Closing)
      else
        var told := if requested == NO_ROOM || asHost then {} else w.hub.rooms[requested].members;
        var next := if w.phase[id].Idle? then Listing(hub.peers[id].room) else Closing;
        Set(w, id, next).(hub := hub, lossy := w.lossy + Full(w.hub, told))
  }

  function StepAck(w: World, id: Id): World
    requires id in w.hub.peers && id in w.phase && w.phase[id].Acking?
  {
    var p, listed, mates := w.hub.peers[id], w.phase[id].listed, Mates(w.hub, id);
    var ack := Joined(w.phase[id].room, id, p.role, listed);
    Set(w, id, Settled(listed - mates, Missed(id, mates, listed)))
      .(hub := w.hub.(peers := w.hub.peers[id := Push(p, ack)]))
  }

  /** A connection ends, for whatever reason. */
  function StepDisconnect(w: World, id: Id, now: int): World
    requires id in w.hub.peers
  {
    World(Unregister(w.hub, id, now), w.phase - {id}, w.clients - {id}, w.used,
          (w.lossy + Full(w.hub, Mates(w.hub, id))) - {id})
  }

  function StepDeliver(w: World, id: Id): World
    requires id in w.hub.peers && id in w.clients && w.hub.peers[id].send != []
  {
    var p := w.hub.peers[id];
    w.(clients := w.clients[id := C.Handle(w.clients[id], p.send[0])],
       hub := w.hub.(peers := w.hub.peers[id := p.(send := p.send[1..])]))
  }

  /** When an event can happen: ids are fresh, a generated code finds a free
      try, and a reader acts only while it reads. */
  predicate Enabled(w: World, e: Event) {
    match e
    case Connect(id, _) => id !in w.used
    case Join(id, requested, _, tries, _) =>
      && id in w.hub.peers && id in w.phase && (w.phase[id].Idle? || w.phase[id].Settled?)
      && NO_ROOM !in tries
      && (requested == NO_ROOM ==> !(|tries| >= 5 && forall j :: 0 <= j < 5 ==> tries[j] in w.hub.rooms))
    case List(id) => id in w.hub.peers && id in w.phase && w.phase[id].Listing?
    case Ack(id) => id in w.hub.peers && id in w.phase && w.phase[id].Acking? && HasRoom(w.hub.peers[id])
    case Signal(id, _, _) => id in w.hub.peers && id in w.phase && w.phase[id].Settled?
    case RelayAsk(id) => id in w.hub.peers && id in w.phase && w.phase[id].Settled?
    case Tell(id, m) => id in w.hub.peers && id in w.phase && !w.phase[id].Idle? && (m.Error? || m.RelayApproved?)
    case Disconnect(id, _) => id in w.hub.peers
    case ReapIdle(_) => true
    case Deliver(id) => id in w.hub.peers && id in w.clients && w.hub.peers[id].send != []
  }

  /** One step; an event that cannot happen changes nothing. */
  function Step(w: World, cfg: Config, e: Event): World {
    if !Enabled(w, e) then w
    else
      match e
      case Connect(id, ip) =>
        var (hub, reply) := Register(w.hub, cfg, id, ip);
        if reply.Rejected? then w.(used := w.used + {id})
        else World(hub, w.phase[id := Idle], w.clients[id := C.NEW_VIEW], w.used + {id}, w.lossy)
      case Join(id, requested, asHost, tries, now) => StepJoin(w, cfg, id, requested, asHost, tries, now)
      case List(id) => Set(w, id, Acking(w.phase[id].room, Mates(w.hub, id)))
      case Ack(id) => StepAck(w, id)
      case Signal(id, msg, now) =>
        if w.hub.peers[id].room == NO_ROOM then Set(w, id, Closing)
        else w.(hub := Route(w.hub, id, msg, now).0)
      case RelayAsk(id) => if w.hub.peers[id].room == NO_ROOM then Set(w, id, Closing) else w
      case Tell(id, m) => w.(hub := w.hub.(peers := Notify(w.hub.peers, {id}, m)))
      case Disconnect(id, now) => StepDisconnect(w, id, now)
      case ReapIdle(now) => w.(hub := Reap(w.hub, cfg, now))
      case Deliver(id) => StepDeliver(w, id)
  }

  function Run(cfg: Config, es: seq<Event>): World {
    if es == [] then START else Step(Run(cfg, es[..|es| - 1]), cfg, es[|es| - 1])
  }

  // ------------------------------------------------------ one peer's invariant

  /** No acknowledgement among the messages. */
  ghost predicate Unacked(queue: seq<Message>) {
    forall m :: m in queue ==> !m.Joined?
  }

  /** What holds of a peer with client `c`, given the other members `mates` of
      its room, the registered ids and the ids ever used.  `sure`: it is in a
      room and no membership message to it was dropped. */
  ghost predicate Tracks(id: Id, phase: Phase, queue: seq<Message>, c: C.View,
                         sure: bool, mates: set<Id>, present: set<Id>, used: set<Id>)
  {
    var d := C.Drain(c, queue);
    match phase
    case Idle => queue == [] && c == C.NEW_VIEW
    case Listing(_) =>
      && Unacked(queue) && c.self == None && d.self == None && d.offers == multiset{}
      && (sure ==> d.roster <= mates)
    case Acking(_, listed) =>
      && Unacked(queue) && c.self == None && d.self == None && d.offers == multiset{}
      && id !in listed
      && (sure ==> d.roster <= mates && mates <= d.roster + listed
                   && listed <= used && (listed - mates) !! present)
    case Settled(stale, missed) =>
      sure ==>
        && d.self == Some(id) && d.roster == mates + stale
        && stale !! present && stale <= used && missed <= used && missed * present <= mates
        && (forall x {:trigger d.offers[x]} :: x in mates ==> d.offers[x] == if id < x && x !in missed then 1 else 0)
        && (forall x {:trigger d.offers[x]} :: (x in present && x !in mates) || x !in used ==> d.offers[x] == 0)
    case Closing => true
  }

  ghost predicate Sure(w: World, id: Id)
    requires id in w.hub.peers
  {
    w.hub.peers[id].room != NO_ROOM && id !in w.lossy
  }

  ghost predicate Tracked(w: World, id: Id)
    requires id in w.hub.peers && id in w.phase && id in w.clients
  {
    Tracks(id, w.phase[id], w.hub.peers[id].send, w.clients[id], Sure(w, id), Mates(w.hub, id),
           w.hub.peers.Keys, w.used)
  }

  ghost predicate Keyed(w: World) {
    && w.phase.Keys == w.hub.peers.Keys && w.clients.Keys == w.hub.peers.Keys
    && w.hub.peers.Keys <= w.used
    && (forall id :: id in w.phase && w.phase[id].Idle? ==> w.hub.peers[id].room == NO_ROOM)
  }

  ghost predicate Inv(w: World, cfg: Config) {
    && HubInvariant.Inv(w.hub, cfg)
    && Keyed(w)
    && (forall id :: id in w.hub.peers ==> Tracked(w, id))
  }

  // ----------------------------------------------- how one peer's view evolves

  /** Someone who was registered but not a mate enters the room. */
  lemma TracksJoined(id: Id, phase: Phase, queue: seq<Message>, c: C.View,
                     sure: bool, mates: set<Id>, present: set<Id>, used: set<Id>, x: Id)
    requires Tracks(id, phase, queue, c, sure, mates, present, used)
    requires x in present && present <= used && x !in mates && x != id && !phase.Idle?
    ensures Tracks(id, phase, queue + [PeerJoined(x)], c, sure, mates + {x}, present, used)
  {
    C.DrainSnoc(c, queue, PeerJoined(x));
  }

  /** A mate's connection ends: it leaves the room and the registry. */
  lemma TracksLeft(id: Id, phase: Phase, queue: seq<Message>, c: C.View,
                   sure: bool, mates: set<Id>, present: set<Id>, used: set<Id>, x: Id)
    requires Tracks(id, phase, queue, c, sure, mates, present, used)
    requires x in present && present <= used && x in mates && x != id && !phase.Idle?
    ensures Tracks(id, phase, queue + [PeerLeft(x)], c, sure, mates - {x}, present - {x}, used)
  {
    C.DrainSnoc(c, queue, PeerLeft(x));
  }

  /** Messages that say nothing about membership. */
  lemma TracksNeutral(id: Id, phase: Phase, queue: seq<Message>, c: C.View,
                      sure: bool, mates: set<Id>, present: set<Id>, used: set<Id>, m: Message)
    requires Tracks(id, phase, queue, c, sure, mates, present, used) && !phase.Idle?
    requires m.Error? || m.Forward? || m.RelayApproved?
    ensures Tracks(id, phase, queue + [m], c, sure, mates, present, used)
  {
    C.DrainSnoc(c, queue, m);
  }

  /** Registrations and departures elsewhere. */
  lemma TracksElsewhere(id: Id, phase: Phase, queue: seq<Message>, c: C.View,
                        sure: bool, mates: set<Id>, present: set<Id>, used: set<Id>, present': set<Id>, used': set<Id>)
    requires Tracks(id, phase, queue, c, sure, mates, present, used)
    requires present' <= used' && used <= used' && mates <= present && present <= used
    requires forall x :: x in present' && x !in present ==> x !in used
    ensures Tracks(id, phase, queue, c, sure, mates, present', used')
  {}

  /** Certainty can only be lost. */
  lemma TracksUnsure(id: Id, phase: Phase, queue: seq<Message>, c: C.View,
                     sure: bool, mates: set<Id>, present: set<Id>, used: set<Id>,
                     mates': set<Id>, present': set<Id>, used': set<Id>)
    requires Tracks(id, phase, queue, c, sure, mates, present, used)
    ensures Tracks(id, phase, queue, c, false, mates', present', used')
  {}

  lemma TracksListed(id: Id, room: Code, queue: seq<Message>, c: C.View,
                     sure: bool, mates: set<Id>, present: set<Id>, used: set<Id>)
    requires Tracks(id, Listing(room), queue, c, sure, mates, present, used)
    requires id !in mates && mates <= present <= used
    ensures Tracks(id, Acking(room, mates), queue, c, sure, mates, present, used)
  {}

  lemma TracksAcked(id: Id, room: Code, listed: set<Id>, queue: seq<Message>, c: C.View,
                    sure: bool, mates: set<Id>, present: set<Id>, used: set<Id>, ack: Message)
    requires Tracks(id, Acking(room, listed), queue, c, sure, mates, present, used)
    requires mates <= present <= used
    requires ack.Joined? && ack.self == id && ack.peers == listed
    ensures Tracks(id, Settled(listed - mates, Missed(id, mates, listed)), queue + [ack], c,
                   sure, mates, present, used)
  {
    C.DrainSnoc(c, queue, ack);
  }

  lemma TracksDelivered(id: Id, phase: Phase, queue: seq<Message>, c: C.View,
                        sure: bool, mates: set<Id>, present: set<Id>, used: set<Id>)
    requires Tracks(id, phase, queue, c, sure, mates, present, used) && queue != []
    ensures Tracks(id, phase, queue[1..], C.Handle(c, queue[0]), sure, mates, present, used)
  {
    assert queue[0] in queue;
  }

  // ------------------------------------------------------------ one step of all

  lemma MatesPresent(s: State, id: Id)
    requires Mirrored(s) && id in s.peers
    ensures Mates(s, id) <= s.peers.Keys && id !in Mates(s, id)
    ensures s.peers[id].room == NO_ROOM ==> Mates(s, id) == {}
  {}

  /** A peer's invariant speaks of its own record and of who its mates are. */
  lemma Untouched(w: World, w': World, p: Id)
    requires p in w.hub.peers && p in w.phase && p in w.clients && Tracked(w, p)
    requires Mirrored(w.hub) && Keyed(w)
    requires p in w'.hub.peers && p in w'.phase && p in w'.clients
    requires w'.phase[p] == w.phase[p] && w'.clients[p] == w.clients[p] && w'.hub.peers[p] == w.hub.peers[p]
    requires (p in w.lossy ==> p in w'.lossy) && Mates(w'.hub, p) == Mates(w.hub, p)
    requires w'.hub.peers.Keys <= w'.used && w.used <= w'.used
    requires forall x :: x in w'.hub.peers && x !in w.hub.peers ==> x !in w.used
    ensures Tracked(w', p)
  {
    hide Tracks;
    MatesPresent(w.hub, p);
    var ph, q, c, mates := w.phase[p], w.hub.peers[p].send, w.clients[p], Mates(w.hub, p);
    TracksElsewhere(p, ph, q, c, Sure(w, p), mates, w.hub.peers.Keys, w.used, w'.hub.peers.Keys, w'.used);
    TracksUnsure(p, ph, q, c, Sure(w, p), mates, w.hub.peers.Keys, w.used, mates, w'.hub.peers.Keys, w'.used);
  }

  /** The phase of one reader changes and nothing else. */
  lemma SetKeepsInv(w: World, cfg: Config, id: Id, phase: Phase)
    requires Inv(w, cfg) && id in w.hub.peers && !phase.Idle?
    requires Tracks(id, phase, w.hub.peers[id].send, w.clients[id], Sure(w, id), Mates(w.hub, id), w.hub.peers.Keys, w.used)
    ensures Inv(Set(w, id, phase), cfg)
  {
    hide Tracks, HubInvariant.Inv;
    var w' := Set(w, id, phase);
    forall p | p in w'.hub.peers ensures Tracked(w', p) {
      assert Tracked(w, p);
      assert Sure(w', p) == Sure(w, p);
    }
  }

  lemma ConnectKeepsInv(w: World, cfg: Config, id: Id, ip: Ip)
    requires Inv(w, cfg) && id !in w.used
    ensures Inv(Step(w, cfg, Connect(id, ip)), cfg)
  {
    var w' := Step(w, cfg, Connect(id, ip));
    hide Tracked, Inhabited, RoomsCounted, ConnsCounted, Capped;
    if Register(w.hub, cfg, id, ip).1.Accepted? {
      RegisterKeepsInvIffFresh(w.hub, cfg, id, ip);
      assert Tracked(w', id) by { NewcomerTracked(w', id); }
    }
    forall p | p in w'.hub.peers && p != id ensures Tracked(w', p) {
      Untouched(w, w', p);
    }
  }

  lemma NewcomerTracked(w: World, id: Id)
    requires id in w.hub.peers && id in w.phase && id in w.clients
    requires w.phase[id].Idle? && w.clients[id] == C.NEW_VIEW && w.hub.peers[id].send == []
    ensures Tracked(w, id)
  {}

  /** A message that says nothing about membership, queued for one peer. */
  lemma ToldTracked(w: World, w': World, p: Id, m: Message)
    requires p in w.hub.peers && p in w.phase && p in w.clients && Tracked(w, p)
    requires (m.Error? || m.Forward? || m.RelayApproved?) && !w.phase[p].Idle?
    requires p in w'.hub.peers && w'.hub.peers[p] == w.hub.peers[p].(send := w.hub.peers[p].send + [m])
    requires w'.hub.peers.Keys == w.hub.peers.Keys && Mates(w'.hub, p) == Mates(w.hub, p)
    requires w' == w.(hub := w'.hub)
    ensures Tracked(w', p)
  {
    hide Tracks, Mates;
    TracksNeutral(p, w.phase[p], w.hub.peers[p].send, w.clients[p], Sure(w, p), Mates(w.hub, p),
                  w.hub.peers.Keys, w.used, m);
  }

  lemma NotifyEach(peers: map<Id, Peer>, targets: set<Id>, m: Message)
    ensures Notify(peers, targets, m).Keys == peers.Keys
    ensures forall p :: p in peers ==>
      Notify(peers, targets, m)[p] == if p in targets && HasRoom(peers[p]) then peers[p].(send := peers[p].send + [m])
                                      else peers[p]
  {}

  lemma NotifiedTracked(w: World, targets: set<Id>, m: Message, p: Id)
    requires Mirrored(w.hub) && Keyed(w) && p in w.hub.peers && Tracked(w, p)
    requires m.Error? || m.Forward? || m.RelayApproved?
    requires p in targets ==> !w.phase[p].Idle?
    ensures Tracked(w.(hub := w.hub.(peers := Notify(w.hub.peers, targets, m))), p)
  {
    var w' := w.(hub := w.hub.(peers := Notify(w.hub.peers, targets, m)));
    NotifyEach(w.hub.peers, targets, m);
    hide Tracks, Notify, HasRoom, Tracked;
    if w'.hub.peers[p] == w.hub.peers[p] {
      Untouched(w, w', p);
    } else {
      ToldTracked(w, w', p, m);
    }
  }

  lemma NotifyKeyed(w: World, targets: set<Id>, m: Message)
    requires Keyed(w)
    ensures Keyed(w.(hub := w.hub.(peers := Notify(w.hub.peers, targets, m))))
  {
    NotifyEach(w.hub.peers, targets, m);
    hide Notify, HasRoom;
  }

  lemma NeutralKeepsInv(w: World, cfg: Config, targets: set<Id>, m: Message)
    requires Inv(w, cfg) && (m.Error? || m.Forward? || m.RelayApproved?)
    requires forall p :: p in targets && p in w.hub.peers ==> !w.phase[p].Idle?
    ensures Inv(w.(hub := w.hub.(peers := Notify(w.hub.peers, targets, m))), cfg)
  {
    var w' := w.(hub := w.hub.(peers := Notify(w.hub.peers, targets, m)));
    assert Mirrored(w.hub) && w'.hub.peers.Keys == w.hub.peers.Keys;
    NotifyKeepsInv(w.hub, cfg, targets, m);
    hide Notify, HubInvariant.Inv, Mirrored, Tracked;
    NotifyKeyed(w, targets, m);
    forall p | p in w.hub.peers ensures Tracked(w', p) {
      NotifiedTracked(w, targets, m, p);
    }
  }

  lemma DeliveredTracked(w: World, id: Id, p: Id)
    requires Keyed(w) && id in w.hub.peers && w.hub.peers[id].send != []
    requires p in w.hub.peers && Tracked(w, p)
    ensures Tracked(StepDeliver(w, id), p)
  {
    var w' := StepDeliver(w, id);
    assert w'.hub.peers.Keys == w.hub.peers.Keys && Mates(w'.hub, p) == Mates(w.hub, p) && Sure(w', p) == Sure(w, p);
    hide Tracks, Mates, Sure;
    if p == id {
      TracksDelivered(id, w.phase[id], w.hub.peers[id].send, w.clients[id], Sure(w, id), Mates(w.hub, id),
                      w.hub.peers.Keys, w.used);
    }
  }

  lemma DeliverKeyed(w: World, id: Id)
    requires Keyed(w) && id in w.hub.peers && w.hub.peers[id].send != []
    ensures Keyed(StepDeliver(w, id)) && StepDeliver(w, id).hub.peers.Keys == w.hub.peers.Keys
    ensures forall p :: p in w.hub.peers ==>
              StepDeliver(w, id).hub.peers[p].ip == w.hub.peers[p].ip && StepDeliver(w, id).hub.peers[p].room == w.hub.peers[p].room
  {
    hide C.Handle;
  }

  lemma DeliverKeepsInv(w: World, cfg: Config, id: Id)
    requires Inv(w, cfg) && id in w.hub.peers && w.hub.peers[id].send != []
    ensures Inv(StepDeliver(w, id), cfg)
  {
    DeliverKeyed(w, id);
    HubKeptByQueues(w.hub, StepDeliver(w, id).hub, cfg);
    hide Tracked, HubInvariant.Inv;
    forall p | p in w.hub.peers ensures Tracked(StepDeliver(w, id), p) {
      DeliveredTracked(w, id, p);
    }
    hide StepDeliver;
  }

  lemma HubKeptByQueues(s: State, s': State, cfg: Config)
    requires HubInvariant.Inv(s, cfg)
    requires s'.rooms == s.rooms && s'.ipConns == s.ipConns && s'.ipRooms == s.ipRooms
    requires s'.peers.Keys == s.peers.Keys
    requires forall id :: id in s.peers ==> s'.peers[id].ip == s.peers[id].ip && s'.peers[id].room == s.peers[id].room
    ensures HubInvariant.Inv(s', cfg)
  {
    SameBooks(s, s', cfg);
    SameMembers(s, s');
    hide ConnsCounted, RoomsCounted, Mirrored, Inhabited, Capped;
  }

  lemma ListKeepsInv(w: World, cfg: Config, id: Id)
    requires Inv(w, cfg) && id in w.hub.peers && w.phase[id].Listing?
    ensures Inv(Set(w, id, Acking(w.phase[id].room, Mates(w.hub, id))), cfg)
  {
    MatesPresent(w.hub, id);
    assert Tracked(w, id);
    TracksListed(id, w.phase[id].room, w.hub.peers[id].send, w.clients[id], Sure(w, id), Mates(w.hub, id), w.hub.peers.Keys, w.used);
    hide Tracks, HubInvariant.Inv;
    SetKeepsInv(w, cfg, id, Acking(w.phase[id].room, Mates(w.hub, id)));
  }

  lemma AckTracked(w: World, id: Id)
    requires id in w.hub.peers && id in w.phase && id in w.clients && Tracked(w, id)
    requires Mirrored(w.hub) && Keyed(w) && w.phase[id].Acking? && HasRoom(w.hub.peers[id])
    ensures id in StepAck(w, id).hub.peers && Tracked(StepAck(w, id), id)
  {
    hide Tracks;
    MatesPresent(w.hub, id);
    TracksAcked(id, w.phase[id].room, w.phase[id].listed, w.hub.peers[id].send, w.clients[id], Sure(w, id), Mates(w.hub, id),
                w.hub.peers.Keys, w.used, Joined(w.phase[id].room, id, w.hub.peers[id].role, w.phase[id].listed));
    assert Mates(StepAck(w, id).hub, id) == Mates(w.hub, id);
    assert StepAck(w, id).hub.peers.Keys == w.hub.peers.Keys;
  }

  /** Everyone else, when one peer's record, phase or client changes and rooms stay. */
  lemma OthersUntouched(w: World, w': World, id: Id)
    requires Mirrored(w.hub) && Keyed(w) && (forall p :: p in w.hub.peers ==> Tracked(w, p))
    requires w'.hub.rooms == w.hub.rooms && w'.hub.peers.Keys == w.hub.peers.Keys
    requires w'.phase.Keys == w.phase.Keys && w'.clients.Keys == w.clients.Keys
    requires w'.used == w.used && w'.lossy == w.lossy
    requires forall p :: p in w.hub.peers && p != id ==>
      w'.hub.peers[p] == w.hub.peers[p] && w'.phase[p] == w.phase[p] && w'.clients[p] == w.clients[p]
    ensures forall p :: p in w'.hub.peers && p != id ==> Tracked(w', p)
  {
    hide Tracks, Tracked;
    forall p | p in w'.hub.peers && p != id ensures Tracked(w', p) {
      Untouched(w, w', p);
    }
  }

  lemma AckShape(w: World, cfg: Config, id: Id)
    requires Keyed(w) && HubInvariant.Inv(w.hub, cfg) && id in w.hub.peers && w.phase[id].Acking?
    ensures var w' := StepAck(w, id);
            && HubInvariant.Inv(w'.hub, cfg) && Keyed(w')
            && w'.hub.rooms == w.hub.rooms && w'.hub.peers.Keys == w.hub.peers.Keys
            && w'.phase.Keys == w.phase.Keys && w'.clients.Keys == w.clients.Keys
            && w'.used == w.used && w'.lossy == w.lossy
            && forall p :: p in w.hub.peers && p != id ==>
                 w'.hub.peers[p] == w.hub.peers[p] && w'.phase[p] == w.phase[p] && w'.clients[p] == w.clients[p]
  {
    hide HubInvariant.Inv, Mates;
    HubKeptByQueues(w.hub, StepAck(w, id).hub, cfg);
  }

  lemma AckKeepsInv(w: World, cfg: Config, id: Id)
    requires Inv(w, cfg) && id in w.hub.peers && w.phase[id].Acking? && HasRoom(w.hub.peers[id])
    ensures Inv(StepAck(w, id), cfg)
  {
    hide Tracks, Tracked, HasRoom, StepAck, ConnsCounted, RoomsCounted, Inhabited, Capped, Mates;
    AckShape(w, cfg, id);
    AckTracked(w, id);
    OthersUntouched(w, StepAck(w, id), id);
    hide HubInvariant.Inv, Keyed, Mirrored;
  }

  lemma RouteEach(w: World, id: Id, msg: Routed, now: int)
    requires Mirrored(w.hub) && Keyed(w) && id in w.hub.peers
    ensures var s' := Route(w.hub, id, msg, now).0;
            && s'.peers.Keys == w.hub.peers.Keys
            && (forall p :: p in w.hub.peers ==> Mates(s', p) == Mates(w.hub, p))
            && (forall p :: p in w.hub.peers && s'.peers[p] != w.hub.peers[p] ==>
                  && p == msg.to && !w.phase[p].Idle?
                  && s'.peers[p] == w.hub.peers[p].(send := w.hub.peers[p].send
                       + [Forward(msg.kind, id, msg.sdp, msg.candidate, msg.key)]))
  {}

  lemma SignalKeepsInv(w: World, cfg: Config, id: Id, msg: Routed, now: int)
    requires Inv(w, cfg) && id in w.hub.peers
    ensures Inv(w.(hub := Route(w.hub, id, msg, now).0), cfg)
  {
    var w' := w.(hub := Route(w.hub, id, msg, now).0);
    hide Tracks, Tracked, Route, Mates, ConnsCounted, RoomsCounted, Inhabited, Capped;
    RouteKeepsInv(w.hub, cfg, id, msg, now);
    SignalKeyed(w, id, msg, now);
    hide HubInvariant.Inv, Keyed;
    SignalTracked(w, cfg, id, msg, now);
  }

  lemma SignalKeyed(w: World, id: Id, msg: Routed, now: int)
    requires Keyed(w)
    ensures Keyed(w.(hub := Route(w.hub, id, msg, now).0))
  {
    RouteShape(w.hub, id, msg, now);
    hide Route;
  }

  lemma SignalTracked(w: World, cfg: Config, id: Id, msg: Routed, now: int)
    requires Inv(w, cfg) && id in w.hub.peers
    ensures var w' := w.(hub := Route(w.hub, id, msg, now).0);
            w'.hub.peers.Keys == w.hub.peers.Keys && forall p :: p in w'.hub.peers ==> Tracked(w', p)
  {
    var w' := w.(hub := Route(w.hub, id, msg, now).0);
    hide Tracks, Tracked, Route, Mates, ConnsCounted, RoomsCounted, Inhabited, Capped;
    RouteEach(w, id, msg, now);
    forall p | p in w'.hub.peers ensures Tracked(w', p) {
      if w'.hub.peers[p] == w.hub.peers[p] {
        Untouched(w, w', p);
      } else {
        ToldTracked(w, w', p, Forward(msg.kind, id, msg.sdp, msg.candidate, msg.key));
      }
    }
  }

  // ------------------------------------------------------------------- joining

  /** `id` opens a room of its own. */
  lemma CreatedKeepsInv(w: World, cfg: Config, id: Id, code: Code, now: int, phase: Phase)
    requires Inv(w, cfg) && id in w.hub.peers && w.hub.peers[id].room == NO_ROOM
    requires code != NO_ROOM && code !in w.hub.rooms
    requires |w.hub.rooms| < cfg.maxGlobalRooms && Get(w.hub.ipRooms, w.hub.peers[id].ip) < cfg.maxIPRooms
    requires if w.phase[id].Idle? then phase.Listing? else phase == Closing
    ensures Inv(Set(w, id, phase).(hub := Create(w.hub, id, code, now)), cfg)
  {
    CreateKeepsInvIffFree(w.hub, cfg, id, code, now);
    CreatedTracked(w, cfg, id, code, now, phase);
    hide Tracked, HubInvariant.Inv;
  }

  lemma CreatedShape(w: World, id: Id, code: Code, now: int, phase: Phase)
    requires Mirrored(w.hub) && Keyed(w) && id in w.hub.peers && w.hub.peers[id].room == NO_ROOM
    requires code != NO_ROOM && code !in w.hub.rooms && !phase.Idle?
    ensures var w' := Set(w, id, phase).(hub := Create(w.hub, id, code, now));
            && Keyed(w') && w'.hub.peers.Keys == w.hub.peers.Keys
            && Mates(w'.hub, id) == {} && w'.hub.peers[id].send == w.hub.peers[id].send
            && (forall p :: p in w.hub.peers && p != id ==>
                  w'.hub.peers[p] == w.hub.peers[p] && w'.phase[p] == w.phase[p] && Mates(w'.hub, p) == Mates(w.hub, p))
  {}

  lemma CreatedTracked(w: World, cfg: Config, id: Id, code: Code, now: int, phase: Phase)
    requires Inv(w, cfg) && id in w.hub.peers && w.hub.peers[id].room == NO_ROOM
    requires code != NO_ROOM && code !in w.hub.rooms
    requires if w.phase[id].Idle? then phase.Listing? else phase == Closing
    ensures var w' := Set(w, id, phase).(hub := Create(w.hub, id, code, now));
            Keyed(w') && forall p :: p in w'.hub.peers ==> Tracked(w', p)
  {
    var w' := Set(w, id, phase).(hub := Create(w.hub, id, code, now));
    hide Tracks, Tracked, Mates, Create, ConnsCounted, RoomsCounted, Inhabited, Capped;
    CreatedShape(w, id, code, now, phase);
    EntrantTracked(w, w', id);
    forall p | p in w'.hub.peers && p != id ensures Tracked(w', p) {
      Untouched(w, w', p);
    }
  }

  /** What entering a room does to each record. */
  lemma EnterEach(w: World, id: Id, code: Code, now: int)
    requires Mirrored(w.hub) && Keyed(w) && id in w.hub.peers && w.hub.peers[id].room == NO_ROOM && code in w.hub.rooms
    ensures var s' := Enter(w.hub, id, code, now);
            && s'.peers.Keys == w.hub.peers.Keys
            && Mates(s', id) == w.hub.rooms[code].members
            && s'.peers[id].room == code && s'.peers[id].send == w.hub.peers[id].send
            && (forall p :: p in w.hub.peers && p != id && p !in w.hub.rooms[code].members ==>
                  s'.peers[p] == w.hub.peers[p] && Mates(s', p) == Mates(w.hub, p))
            && (forall p :: p in w.hub.rooms[code].members ==>
                  && p in w.hub.peers && p != id && !w.phase[p].Idle?
                  && id !in Mates(w.hub, p) && Mates(s', p) == Mates(w.hub, p) + {id}
                  && s'.peers[p] == Push(w.hub.peers[p], PeerJoined(id)))
  {}

  /** A member of the room `id` enters hears of it, or is marked lossy. */
  lemma MateJoinedTracked(w: World, w': World, p: Id, id: Id)
    requires p in w.hub.peers && p in w.phase && p in w.clients && Tracked(w, p) && Keyed(w)
    requires id in w.hub.peers && p != id && !w.phase[p].Idle? && id !in Mates(w.hub, p)
    requires w'.hub.peers.Keys == w.hub.peers.Keys && w'.used == w.used
    requires p in w'.phase && p in w'.clients && w'.phase[p] == w.phase[p] && w'.clients[p] == w.clients[p]
    requires w'.hub.peers[p] == Push(w.hub.peers[p], PeerJoined(id))
    requires Mates(w'.hub, p) == Mates(w.hub, p) + {id}
    requires p in w'.lossy <==> p in w.lossy || !HasRoom(w.hub.peers[p])
    ensures Tracked(w', p)
  {
    hide Tracks, Mates;
    var ph, q, c, mates := w.phase[p], w.hub.peers[p].send, w.clients[p], Mates(w.hub, p);
    if HasRoom(w.hub.peers[p]) {
      TracksJoined(p, ph, q, c, Sure(w, p), mates, w.hub.peers.Keys, w.used, id);
    } else {
      TracksUnsure(p, ph, q, c, Sure(w, p), mates, w.hub.peers.Keys, w.used,
                   mates + {id}, w'.hub.peers.Keys, w'.used);
    }
  }

  /** The newcomer itself: an empty queue and a client that knows nothing. */
  lemma EntrantTracked(w: World, w': World, id: Id)
    requires id in w.hub.peers && id in w.phase && id in w.clients && Tracked(w, id)
    requires id in w'.hub.peers && id in w'.phase && id in w'.clients
    requires w'.hub.peers[id].send == w.hub.peers[id].send && w'.clients[id] == w.clients[id]
    requires if w.phase[id].Idle? then w'.phase[id].Listing? else w'.phase[id] == Closing
    ensures Tracked(w', id)
  {}

  ghost function Entered(w: World, id: Id, code: Code, now: int, phase: Phase): World
    requires id in w.hub.peers && code in w.hub.rooms
  {
    Set(w, id, phase).(hub := Enter(w.hub, id, code, now), lossy := w.lossy + Full(w.hub, w.hub.rooms[code].members))
  }

  lemma EnteredShape(w: World, id: Id, code: Code, now: int, phase: Phase)
    requires Keyed(w) && Mirrored(w.hub) && id in w.hub.peers && code in w.hub.rooms
    ensures var w' := Entered(w, id, code, now, phase);
            && w'.hub == Enter(w.hub, id, code, now) && w'.used == w.used
            && w'.phase.Keys == w.phase.Keys && w'.clients == w.clients && w'.phase[id] == phase
            && (forall p :: p in w.phase && p != id ==> w'.phase[p] == w.phase[p])
            && (forall p :: p in w'.lossy <==>
                  p in w.lossy || (p in w.hub.rooms[code].members && !HasRoom(w.hub.peers[p])))
  {
    hide Enter;
  }

  lemma EnteredTracked(w: World, cfg: Config, id: Id, code: Code, now: int, phase: Phase)
    requires Inv(w, cfg) && id in w.hub.peers && w.hub.peers[id].room == NO_ROOM && code in w.hub.rooms
    requires if w.phase[id].Idle? then phase.Listing? else phase == Closing
    ensures var w' := Entered(w, id, code, now, phase);
            Keyed(w') && forall p :: p in w'.hub.peers ==> Tracked(w', p)
  {
    var w' := Entered(w, id, code, now, phase);
    hide Tracks, Tracked, Mates, Enter, Entered, Push, HasRoom, ConnsCounted, RoomsCounted, Inhabited, Capped;
    EnteredKeyed(w, id, code, now, phase);
    EnteredShape(w, id, code, now, phase);
    EnterEach(w, id, code, now);
    forall p | p in w'.hub.peers ensures Tracked(w', p) {
      if p == id {
        EntrantTracked(w, w', id);
      } else if p in w.hub.rooms[code].members {
        MateJoinedTracked(w, w', p, id);
      } else {
        Untouched(w, w', p);
      }
    }
  }

  lemma EnteredKeyed(w: World, id: Id, code: Code, now: int, phase: Phase)
    requires Keyed(w) && Mirrored(w.hub) && id in w.hub.peers && w.hub.peers[id].room == NO_ROOM && code in w.hub.rooms
    requires !phase.Idle?
    ensures Keyed(Entered(w, id, code, now, phase))
  {
    EnterEach(w, id, code, now);
    hide Mates;
  }

  lemma EnteredKeepsInv(w: World, cfg: Config, id: Id, code: Code, now: int, phase: Phase)
    requires Inv(w, cfg) && id in w.hub.peers && w.hub.peers[id].room == NO_ROOM && code in w.hub.rooms
    requires |w.hub.rooms[code].members| < w.hub.rooms[code].maxMembers
    requires if w.phase[id].Idle? then phase.Listing? else phase == Closing
    ensures Inv(Entered(w, id, code, now, phase), cfg)
  {
    hide Tracked, Keyed, HubInvariant.Inv;
    EnteredTracked(w, cfg, id, code, now, phase);
    assert HubInvariant.Inv(Enter(w.hub, id, code, now), cfg) by { EnterKeepsHub(w.hub, cfg, id, code, now); }
  }

  lemma EnterKeepsHub(s: State, cfg: Config, id: Id, code: Code, now: int)
    requires HubInvariant.Inv(s, cfg) && id in s.peers && s.peers[id].room == NO_ROOM && code in s.rooms
    requires |s.rooms[code].members| < s.rooms[code].maxMembers
    ensures HubInvariant.Inv(Enter(s, id, code, now), cfg)
  {
    EnterKeepsInv(s, cfg, id, code, now);
  }

  lemma JoinedRoom(s: State, cfg: Config, id: Id, requested: Code, asHost: bool, tries: seq<Code>, now: int)
    requires id in s.peers
    ensures id in JoinOrCreate(s, cfg, id, requested, asHost, tries, now).0.peers
  {}

  lemma JoinKeepsInv(w: World, cfg: Config, id: Id, requested: Code, asHost: bool, tries: seq<Code>, now: int)
    requires Inv(w, cfg) && Enabled(w, Join(id, requested, asHost, tries, now))
    ensures Inv(StepJoin(w, cfg, id, requested, asHost, tries, now), cfg)
  {
    hide Inv, HubInvariant.Inv, Create, Enter;
    var reply := JoinOrCreate(w.hub, cfg, id, requested, asHost, tries, now).1;
    if w.hub.peers[id].room != NO_ROOM || reply.Rejected? {
      ClosingKeepsInv(w, cfg, id);
    } else {
      JoinedRoom(w.hub, cfg, id, requested, asHost, tries, now);
      var entered := JoinOrCreate(w.hub, cfg, id, requested, asHost, tries, now).0;
      var phase := if w.phase[id].Idle? then Listing(entered.peers[id].room) else Closing;
      if requested == NO_ROOM {
        PickedCodeIsFree(w.hub.rooms.Keys, tries, 0);
        CreatedKeepsInv(w, cfg, id, PickCode(w.hub.rooms.Keys, tries, 0).value, now, phase);
        assert w.lossy + Full(w.hub, {}) == w.lossy;
      } else if asHost {
        CreatedKeepsInv(w, cfg, id, requested, now, phase);
        assert w.lossy + Full(w.hub, {}) == w.lossy;
      } else {
        EnteredKeepsInv(w, cfg, id, requested, now, phase);
      }
    }
  }

  lemma ClosingKeepsInv(w: World, cfg: Config, id: Id)
    requires Inv(w, cfg) && id in w.hub.peers
    ensures Inv(Set(w, id, Closing), cfg)
  {
    SetKeepsInv(w, cfg, id, Closing);
  }

  // ------------------------------------------------------------------- leaving

  /** What a departure does to each remaining record. */
  lemma LeftEach(w: World, id: Id, now: int)
    requires Mirrored(w.hub) && Keyed(w) && id in w.hub.peers
    ensures var s' := Unregister(w.hub, id, now);
            && s'.peers.Keys == w.hub.peers.Keys - {id}
            && (forall p :: p in s'.peers && id !in Mates(w.hub, p) ==>
                  s'.peers[p] == w.hub.peers[p] && Mates(s', p) == Mates(w.hub, p))
            && (forall p :: p in s'.peers && id in Mates(w.hub, p) ==>
                  && p in Mates(w.hub, id) && !w.phase[p].Idle?
                  && Mates(s', p) == Mates(w.hub, p) - {id}
                  && s'.peers[p] == Push(w.hub.peers[p], PeerLeft(id)))
  {
    var code := w.hub.peers[id].room;
    if code != NO_ROOM {
      var left := w.hub.rooms[code].members - {id};
      var t := w.hub.(peers := w.hub.peers - {id}, ipConns := Dec(w.hub.ipConns, w.hub.peers[id].ip));
      var s' := Leave(t, id, code, now);
      assert s' == Unregister(w.hub, id, now);
      assert s'.peers == Notify(t.peers, left, PeerLeft(id));
      assert s'.rooms == if left == {} then w.hub.rooms - {code}
                         else w.hub.rooms[code := w.hub.rooms[code].(members := left, lastActive := now)];
      hide Leave, Unregister, Push;
    }
  }

  /** A mate of the departed hears of it, or is marked lossy. */
  lemma MateLeftTracked(w: World, w': World, p: Id, id: Id)
    requires p in w.hub.peers && p in w.phase && p in w.clients && Tracked(w, p) && Keyed(w)
    requires id in w.hub.peers && p != id && !w.phase[p].Idle? && id in Mates(w.hub, p)
    requires p in w'.hub.peers && w'.hub.peers.Keys == w.hub.peers.Keys - {id} && w'.used == w.used
    requires p in w'.phase && p in w'.clients && w'.phase[p] == w.phase[p] && w'.clients[p] == w.clients[p]
    requires w'.hub.peers[p] == Push(w.hub.peers[p], PeerLeft(id))
    requires Mates(w'.hub, p) == Mates(w.hub, p) - {id}
    requires p in w'.lossy <==> p in w.lossy || !HasRoom(w.hub.peers[p])
    ensures Tracked(w', p)
  {
    hide Tracks, Mates;
    var ph, q, c, mates := w.phase[p], w.hub.peers[p].send, w.clients[p], Mates(w.hub, p);
    if HasRoom(w.hub.peers[p]) {
      TracksLeft(p, ph, q, c, Sure(w, p), mates, w.hub.peers.Keys, w.used, id);
    } else {
      TracksUnsure(p, ph, q, c, Sure(w, p), mates, w.hub.peers.Keys, w.used,
                   mates - {id}, w'.hub.peers.Keys, w'.used);
    }
  }

  lemma LeftShape(w: World, id: Id, now: int)
    requires Keyed(w) && Mirrored(w.hub) && id in w.hub.peers
    ensures var w' := StepDisconnect(w, id, now);
            && w'.hub == Unregister(w.hub, id, now) && w'.used == w.used
            && (forall p :: p in w.hub.peers && p != id ==>
                  && p in w'.phase && w'.phase[p] == w.phase[p] && p in w'.clients && w'.clients[p] == w.clients[p]
                  && (p in w'.lossy <==> p in w.lossy || (p in Mates(w.hub, id) && !HasRoom(w.hub.peers[p]))))
  {
    hide Unregister, Mates;
    MatesPresent(w.hub, id);
  }

  lemma LeftKeyed(w: World, id: Id, now: int)
    requires Keyed(w) && Mirrored(w.hub) && id in w.hub.peers
    ensures Keyed(StepDisconnect(w, id, now))
  {
    LeftEach(w, id, now);
    hide Unregister, Mates;
  }

  lemma MatesSymmetric(s: State, p: Id, q: Id)
    requires Mirrored(s) && p in s.peers && q in s.peers
    ensures q in Mates(s, p) <==> p in Mates(s, q)
  {}

  lemma LeftTracked(w: World, cfg: Config, id: Id, now: int)
    requires Inv(w, cfg) && id in w.hub.peers
    ensures var w' := StepDisconnect(w, id, now);
            Keyed(w') && forall p :: p in w'.hub.peers ==> Tracked(w', p)
  {
    var w' := StepDisconnect(w, id, now);
    hide Tracks, Tracked, Mates, Unregister, StepDisconnect, Push, HasRoom, ConnsCounted, RoomsCounted, Inhabited, Capped;
    LeftKeyed(w, id, now);
    LeftShape(w, id, now);
    LeftEach(w, id, now);
    forall p | p in w'.hub.peers ensures Tracked(w', p) {
      MatesSymmetric(w.hub, p, id);
      if id in Mates(w.hub, p) {
        MateLeftTracked(w, w', p, id);
      } else {
        Untouched(w, w', p);
      }
    }
  }

  lemma DisconnectKeepsInv(w: World, cfg: Config, id: Id, now: int)
    requires Inv(w, cfg) && id in w.hub.peers
    ensures Inv(StepDisconnect(w, id, now), cfg)
  {
    LeftTracked(w, cfg, id, now);
    UnregisterKeepsInv(w.hub, cfg, id, now);
    hide Tracked, Keyed, HubInvariant.Inv, Unregister;
  }

  // ------------------------------------------------------------------- reaping

  lemma ReapEach(w: World, cfg: Config, now: int)
    requires Mirrored(w.hub) && Keyed(w)
    ensures var s' := Reap(w.hub, cfg, now);
            && s'.peers.Keys == w.hub.peers.Keys
            && (forall p :: p in w.hub.peers ==>
                  || (s'.peers[p] == w.hub.peers[p] && Mates(s', p) == Mates(w.hub, p))
                  || (s'.peers[p] == Evict(w.hub.peers[p]) && !w.phase[p].Idle?))
  {
    hide Evict;
  }

  lemma EvictedTracked(w: World, w': World, p: Id)
    requires p in w.hub.peers && p in w.phase && p in w.clients && Tracked(w, p) && !w.phase[p].Idle?
    requires w' == w.(hub := w'.hub) && w'.hub.peers.Keys == w.hub.peers.Keys
    requires w'.hub.peers[p] == Evict(w.hub.peers[p])
    ensures Tracked(w', p)
  {
    hide Tracks, Mates;
    var ph, q, c, mates := w.phase[p], w.hub.peers[p].send, w.clients[p], Mates(w.hub, p);
    var expired := Error("room expired due to inactivity");
    TracksNeutral(p, ph, q, c, Sure(w, p), mates, w.hub.peers.Keys, w.used, expired);
    TracksUnsure(p, ph, w'.hub.peers[p].send, c, Sure(w, p), mates, w.hub.peers.Keys, w.used,
                 Mates(w'.hub, p), w'.hub.peers.Keys, w'.used);
  }

  lemma ReapTracked(w: World, cfg: Config, now: int)
    requires Inv(w, cfg)
    ensures var w' := w.(hub := Reap(w.hub, cfg, now));
            Keyed(w') && forall p :: p in w'.hub.peers ==> Tracked(w', p)
  {
    var w' := w.(hub := Reap(w.hub, cfg, now));
    ReapEach(w, cfg, now);
    hide Tracks, Tracked, Mates, Reap, ConnsCounted, RoomsCounted, Inhabited, Capped;
    forall p | p in w'.hub.peers ensures Tracked(w', p) {
      if w'.hub.peers[p] == w.hub.peers[p] && Mates(w'.hub, p) == Mates(w.hub, p) {
        Untouched(w, w', p);
      } else {
        EvictedTracked(w, w', p);
      }
    }
  }

  lemma ReapIdleKeepsInv(w: World, cfg: Config, now: int)
    requires Inv(w, cfg)
    ensures Inv(w.(hub := Reap(w.hub, cfg, now)), cfg)
  {
    ReapTracked(w, cfg, now);
    ReapKeepsInv(w.hub, cfg, now);
    hide Tracked, Keyed, HubInvariant.Inv, Reap;
  }

  // --------------------------------------------------------------------- runs

  lemma ReaderKeepsInv(w: World, cfg: Config, e: Event)
    requires Inv(w, cfg) && Enabled(w, e) && (e.List? || e.Ack? || e.Signal? || e.RelayAsk? || e.Tell?)
    ensures Inv(Step(w, cfg, e), cfg)
  {
    hide Inv, Set, StepJoin, StepAck, StepDisconnect, StepDeliver, Register, Route, Reap;
    match e
    case List(id) => ListKeepsInv(w, cfg, id);
    case Ack(id) => AckKeepsInv(w, cfg, id);
    case Signal(id, msg, now) =>
      ClosingKeepsInv(w, cfg, id);
      SignalKeepsInv(w, cfg, id, msg, now);
    case RelayAsk(id) => ClosingKeepsInv(w, cfg, id);
    case Tell(id, m) => NeutralKeepsInv(w, cfg, {id}, m);
  }

  lemma StepKeepsInv(w: World, cfg: Config, e: Event)
    requires Inv(w, cfg)
    ensures Inv(Step(w, cfg, e), cfg)
  {
    hide Inv, Set, StepJoin, StepAck, StepDisconnect, StepDeliver, Register, Route, Reap;
    if Enabled(w, e) {
      match e
      case Connect(id, ip) =>
        hide Step;
        ConnectKeepsInv(w, cfg, id, ip);
      case Join(id, requested, asHost, tries, now) => JoinKeepsInv(w, cfg, id, requested, asHost, tries, now);
      case Disconnect(id, now) => DisconnectKeepsInv(w, cfg, id, now);
      case ReapIdle(now) => ReapIdleKeepsInv(w, cfg, now);
      case Deliver(id) => DeliverKeepsInv(w, cfg, id);
      case _ =>
        hide Step;
        ReaderKeepsInv(w, cfg, e);
    }
  }

  /** Every reachable state, under any interleaving. */
  lemma {:induction false} AlwaysInv(cfg: Config, es: seq<Event>)
    ensures Inv(Run(cfg, es), cfg)
  {
    if es == [] {
      EmptyInv(cfg);
      hide HubInvariant.Inv;
    } else {
      AlwaysInv(cfg, es[..|es| - 1]);
      StepKeepsInv(Run(cfg, es[..|es| - 1]), cfg, es[|es| - 1]);
    }
  }
}
