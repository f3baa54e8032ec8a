/** What the hub stores and how each operation changes it (server/hub.go,
    server/room.go), as functions on values.  `Hub.dfy` proves the mutating
    methods against these functions. */
module HubState {
  import opened Common

  /** Peer ids, room codes, addresses and relay tokens are only stored and
      compared, so they are numbers here: a peer id is 16 random bytes sent in fixed-width
      lower-case hex, whose string order is the order of the numbers. */
  type Id = nat
  type Code = nat
  type Ip = nat
  type Token = nat

  /** The empty room code. */
  const NO_ROOM: Code := 0

  /** server -> client messages.  The member list of `Joined` is a set: the
      server lists a Go map, whose order is arbitrary. */
  datatype Message =
    | Joined(room: Code, self: Id, role: string, peers: set<Id>)
    | PeerJoined(id: Id)
    | PeerLeft(id: Id)
    | Error(reason: string)
    | Forward(kind: string, from: Id, sdp: string, candidate: string, key: string)
    | RelayApproved(room: Code, token: Token, to: Id, from: Id, key: string)

  /** client -> server messages that are routed (`offer`, `answer`, `ice`, `relay-key`). */
  datatype Routed = Routed(kind: string, room: Code, to: Id, sdp: string, candidate: string, key: string)

  datatype Config = Config(
    maxGlobalConns: nat, maxIPConns: nat, maxGlobalRooms: nat, maxIPRooms: nat, roomTTL: int)

  const QUEUE_CAPACITY: nat := 256
  const MAX_MEMBERS: nat := 5
  const CODE_TRIES: nat := 5

  datatype Peer = Peer(ip: Ip, role: string, room: Code, send: seq<Message>)

  datatype Room = Room(
    members: set<Id>, hostId: Id, hostIP: Ip, createdAt: int, lastActive: int, maxMembers: nat)

  datatype State = State(
    peers: map<Id, Peer>, rooms: map<Code, Room>, ipConns: map<Ip, int>, ipRooms: map<Ip, int>)

  datatype Reply = Accepted | Rejected(reason: string)

  const EMPTY: State := State(map[], map[], map[], map[])

  // ------------------------------------------------------------------ counters

  /** Reading a Go map: a missing key counts as zero. */
  function Get(m: map<Ip, int>, k: Ip): int {
    if k in m then m[k] else 0
  }

  function Inc(m: map<Ip, int>, k: Ip): map<Ip, int> {
    m[k := Get(m, k) + 1]
  }

  function Dec(m: map<Ip, int>, k: Ip): map<Ip, int> {
    if Get(m, k) - 1 <= 0 then m - {k} else m[k := Get(m, k) - 1]
  }

  // -------------------------------------------------------------------- queues

  predicate HasRoom(p: Peer) {
    |p.send| < QUEUE_CAPACITY
  }

  /** A non-blocking send: dropped when the queue is full. */
  function Push(p: Peer, m: Message): Peer {
    if HasRoom(p) then p.(send := p.send + [m]) else p
  }

  function Notify(peers: map<Id, Peer>, targets: set<Id>, m: Message): map<Id, Peer> {
    map id | id in peers :: if id in targets then Push(peers[id], m) else peers[id]
  }

  // ---------------------------------------------------------------- operations

  function Register(s: State, cfg: Config, id: Id, ip: Ip): (State, Reply) {
    if |s.peers| >= cfg.maxGlobalConns then (s, Rejected("global connection cap reached"))
    else if Get(s.ipConns, ip) >= cfg.maxIPConns then (s, Rejected("per-IP connection cap reached"))
    else (s.(peers := s.peers[id := Peer(ip, "", NO_ROOM, [])], ipConns := Inc(s.ipConns, ip)), Accepted)
  }

  function DeleteRoom(s: State, code: Code): State
    requires code in s.rooms
  {
    s.(rooms := s.rooms - {code}, ipRooms := Dec(s.ipRooms, s.rooms[code].hostIP))
  }

  /** `id` leaves the room `code`, which still lists it. */
  function Leave(s: State, id: Id, code: Code, now: int): State
    requires code in s.rooms
  {
    var room := s.rooms[code].(members := s.rooms[code].members - {id}, lastActive := now);
    var s' := s.(rooms := s.rooms[code := room], peers := Notify(s.peers, room.members, PeerLeft(id)));
    if room.members == {} then DeleteRoom(s', code) else s'
  }

  function Unregister(s: State, id: Id, now: int): State {
    if id !in s.peers then s
    else
      var p := s.peers[id];
      var s' := s.(peers := s.peers - {id}, ipConns := Dec(s.ipConns, p.ip));
      if p.room == NO_ROOM || p.room !in s'.rooms then s' else Leave(s', id, p.room, now)
  }

  /** The code the generation loop settles on: the first free try, the fifth
      when all are taken, none when the generator fails first.  `tries` are the
      generator's successive outputs. */
  function PickCode(rooms: set<Code>, tries: seq<Code>, i: nat): Option<Code>
    requires i < CODE_TRIES
    decreases CODE_TRIES - i
  {
    if i >= |tries| then None
    else if tries[i] !in rooms || i == CODE_TRIES - 1 then Some(tries[i])
    else PickCode(rooms, tries, i + 1)
  }

  function Create(s: State, id: Id, code: Code, now: int): State
    requires id in s.peers
  {
    var p := s.peers[id];
    s.(peers := s.peers[id := p.(room := code, role := "host")],
       rooms := s.rooms[code := Room({id}, id, p.ip, now, now, MAX_MEMBERS)],
       ipRooms := Inc(s.ipRooms, p.ip))
  }

  function Enter(s: State, id: Id, code: Code, now: int): State
    requires id in s.peers && code in s.rooms
  {
    var room := s.rooms[code].(members := s.rooms[code].members + {id}, lastActive := now);
    var peers := s.peers[id := s.peers[id].(room := code, role := "guest")];
    s.(peers := Notify(peers, room.members - {id}, PeerJoined(id)), rooms := s.rooms[code := room])
  }

  function JoinOrCreate(s: State, cfg: Config, id: Id, requested: Code, asHost: bool,
                        tries: seq<Code>, now: int): (State, Reply)
  {
    if id !in s.peers then (s, Rejected("peer not registered"))
    else if s.peers[id].room != NO_ROOM then (s, Rejected("peer already in a room"))
    else if requested == NO_ROOM || asHost then
      if |s.rooms| >= cfg.maxGlobalRooms then (s, Rejected("global room cap reached"))
      else if Get(s.ipRooms, s.peers[id].ip) >= cfg.maxIPRooms then (s, Rejected("per-IP room cap reached"))
      else if requested != NO_ROOM then
        if requested in s.rooms then (s, Rejected("code-taken")) else (Create(s, id, requested, now), Accepted)
      else
        match PickCode(s.rooms.Keys, tries, 0)
        case None => (s, Rejected("failed to generate room code"))
        case Some(code) => (Create(s, id, code, now), Accepted)
    else if requested !in s.rooms then (s, Rejected("room not found"))
    else if |s.rooms[requested].members| >= s.rooms[requested].maxMembers then (s, Rejected("room is full"))
    else (Enter(s, id, requested, now), Accepted)
  }

  function Route(s: State, from: Id, msg: Routed, now: int): (State, Reply) {
    if from !in s.peers then (s, Rejected("sender not registered"))
    else
      var code := s.peers[from].room;
      if code == NO_ROOM then (s, Rejected("sender not in a room"))
      else if msg.room != NO_ROOM && msg.room != code then (s, Rejected("room mismatch"))
      else if code !in s.rooms then (s, Rejected("room not found"))
      else
        var s' := s.(rooms := s.rooms[code := s.rooms[code].(lastActive := now)]);
        if msg.to !in s.rooms[code].members || msg.to !in s.peers then
          (s', Rejected("recipient not in the same room"))
        else if !HasRoom(s.peers[msg.to]) then (s', Rejected("recipient channel full"))
        else
          var forward := Forward(msg.kind, from, msg.sdp, msg.candidate, msg.key);
          (s'.(peers := s.peers[msg.to := Push(s.peers[msg.to], forward)]), Accepted)
  }

  function Expired(s: State, cfg: Config, now: int): set<Code> {
    set code | code in s.rooms && now - s.rooms[code].lastActive > cfg.roomTTL
  }

  function HostedBy(rooms: map<Code, Room>, codes: set<Code>, ip: Ip): set<Code> {
    set code | code in codes && code in rooms && rooms[code].hostIP == ip
  }

  /** The counters after the rooms `codes` are deleted, in whatever order. */
  function DecAll(ipRooms: map<Ip, int>, rooms: map<Code, Room>, codes: set<Code>): map<Ip, int> {
    map ip | ip in ipRooms
             && (HostedBy(rooms, codes, ip) == {} || ipRooms[ip] > |HostedBy(rooms, codes, ip)|)
      :: ipRooms[ip] - |HostedBy(rooms, codes, ip)|
  }

  /** A peer of an expired room is put out of it and told so. */
  function Evict(p: Peer): Peer {
    Push(p.(room := NO_ROOM), Error("room expired due to inactivity"))
  }

  function EvictAll(peers: map<Id, Peer>, rooms: map<Code, Room>, codes: set<Code>): map<Id, Peer> {
    map id | id in peers ::
      if exists code :: code in codes && code in rooms && id in rooms[code].members
      then Evict(peers[id]) else peers[id]
  }

  function Reap(s: State, cfg: Config, now: int): State {
    var gone := Expired(s, cfg, now);
    s.(peers := EvictAll(s.peers, s.rooms, gone), rooms := s.rooms - gone,
       ipRooms := DecAll(s.ipRooms, s.rooms, gone))
  }

  /** The room the request is about, when both ends are in it. */
  function RelayRoom(s: State, from: Id, to: Id): Option<Code> {
    if from !in s.peers || s.peers[from].room == NO_ROOM || s.peers[from].room !in s.rooms then None
    else if to !in s.rooms[s.peers[from].room].members || to !in s.peers then None
    else Some(s.peers[from].room)
  }
}
