/** The hub's bookkeeping: the four maps agree with one another in every
    reachable state, and exactly where the code relies on fresh ids and codes. */
module HubInvariant {
  import opened HubState

  function PeersAt(peers: map<Id, Peer>, ip: Ip): set<Id> {
    set id | id in peers && peers[id].ip == ip
  }

  function RoomsAt(rooms: map<Code, Room>, ip: Ip): set<Code> {
    set code | code in rooms && rooms[code].hostIP == ip
  }

  /** `ipConns` counts the peers of each IP and keeps no zero entry. */
  ghost predicate ConnsCounted(s: State) {
    && (forall ip :: Get(s.ipConns, ip) == |PeersAt(s.peers, ip)|)
    && (forall ip :: ip in s.ipConns ==> s.ipConns[ip] > 0)
  }

  /** `ipRooms` counts the rooms by the IP of their creator, with no zero entry. */
  ghost predicate RoomsCounted(s: State) {
    && (forall ip :: Get(s.ipRooms, ip) == |RoomsAt(s.rooms, ip)|)
    && (forall ip :: ip in s.ipRooms ==> s.ipRooms[ip] > 0)
  }

  /** A peer's `RoomCode` and the rooms' member tables say the same. */
  ghost predicate Mirrored(s: State) {
    && NO_ROOM !in s.rooms
    && (forall code, id {:trigger id in s.rooms[code].members} :: code in s.rooms && id in s.rooms[code].members ==>
          id in s.peers && s.peers[id].room == code)
    && (forall id :: id in s.peers && s.peers[id].room != NO_ROOM ==>
          s.peers[id].room in s.rooms && id in s.rooms[s.peers[id].room].members)
  }

  ghost predicate Inhabited(s: State) {
    forall code :: code in s.rooms ==>
      s.rooms[code].members != {} && |s.rooms[code].members| <= s.rooms[code].maxMembers
      && s.rooms[code].maxMembers == MAX_MEMBERS
  }

  ghost predicate Capped(s: State, cfg: Config) {
    && |s.peers| <= cfg.maxGlobalConns && |s.rooms| <= cfg.maxGlobalRooms
    && (forall ip :: Get(s.ipConns, ip) <= cfg.maxIPConns)
    && (forall ip :: Get(s.ipRooms, ip) <= cfg.maxIPRooms)
  }

  ghost predicate Inv(s: State, cfg: Config) {
    ConnsCounted(s) && RoomsCounted(s) && Mirrored(s) && Inhabited(s) && Capped(s, cfg)
  }

  lemma EmptyInv(cfg: Config)
    ensures Inv(EMPTY, cfg)
  {
    forall ip ensures PeersAt(map[], ip) == {} && RoomsAt(map[], ip) == {} {}
  }

  lemma NoPeersNoRooms(s: State)
    requires Mirrored(s) && Inhabited(s)
    ensures s.peers == map[] ==> s.rooms == map[]
  {
    if s.rooms != map[] {
      var code :| code in s.rooms;
      var id :| id in s.rooms[code].members;
      assert id in s.peers;
    }
  }

  lemma NoPeersNoConns(s: State)
    requires ConnsCounted(s) && s.peers == map[]
    ensures s.ipConns == map[]
  {
    forall ip: Ip ensures ip !in s.ipConns {
      assert PeersAt(s.peers, ip) == {};
      assert Get(s.ipConns, ip) == 0;
    }
  }

  lemma NoRoomsNoCounts(s: State)
    requires RoomsCounted(s) && s.rooms == map[]
    ensures s.ipRooms == map[]
  {
    forall ip: Ip ensures ip !in s.ipRooms {
      assert RoomsAt(s.rooms, ip) == {};
      assert Get(s.ipRooms, ip) == 0;
    }
  }

  /** Nothing is left behind: once no peer is registered, no room, no connection
      count and no room count remains. */
  lemma NothingLeaks(s: State, cfg: Config)
    requires Inv(s, cfg) && s.peers == map[]
    ensures s == EMPTY
  {
    hide ConnsCounted, RoomsCounted, Mirrored, Inhabited, Capped;
    NoPeersNoRooms(s);
    NoPeersNoConns(s);
    NoRoomsNoCounts(s);
  }

  // ------------------------------------------------------------ counting steps

  lemma PeerAdded(peers: map<Id, Peer>, id: Id, p: Peer)
    requires id !in peers
    ensures forall ip :: |PeersAt(peers[id := p], ip)| == |PeersAt(peers, ip)| + if ip == p.ip then 1 else 0
  {
    forall ip ensures |PeersAt(peers[id := p], ip)| == |PeersAt(peers, ip)| + if ip == p.ip then 1 else 0 {
      assert PeersAt(peers[id := p], ip) == PeersAt(peers, ip) + if ip == p.ip then {id} else {};
    }
  }

  lemma PeerDropped(peers: map<Id, Peer>, id: Id)
    requires id in peers
    ensures forall ip :: |PeersAt(peers - {id}, ip)| == |PeersAt(peers, ip)| - if ip == peers[id].ip then 1 else 0
  {
    forall ip ensures |PeersAt(peers - {id}, ip)| == |PeersAt(peers, ip)| - if ip == peers[id].ip then 1 else 0 {
      assert PeersAt(peers - {id}, ip) == PeersAt(peers, ip) - if ip == peers[id].ip then {id} else {};
    }
  }

  lemma RoomAdded(rooms: map<Code, Room>, code: Code, r: Room)
    requires code !in rooms
    ensures forall ip :: |RoomsAt(rooms[code := r], ip)| == |RoomsAt(rooms, ip)| + if ip == r.hostIP then 1 else 0
  {
    forall ip ensures |RoomsAt(rooms[code := r], ip)| == |RoomsAt(rooms, ip)| + if ip == r.hostIP then 1 else 0 {
      assert RoomsAt(rooms[code := r], ip) == RoomsAt(rooms, ip) + if ip == r.hostIP then {code} else {};
    }
  }

  lemma RoomDropped(rooms: map<Code, Room>, code: Code)
    requires code in rooms
    ensures forall ip :: |RoomsAt(rooms - {code}, ip)| == |RoomsAt(rooms, ip)| - if ip == rooms[code].hostIP then 1 else 0
  {
    forall ip
      ensures |RoomsAt(rooms - {code}, ip)| == |RoomsAt(rooms, ip)| - if ip == rooms[code].hostIP then 1 else 0
    {
      assert RoomsAt(rooms - {code}, ip) == RoomsAt(rooms, ip) - if ip == rooms[code].hostIP then {code} else {};
    }
  }

  /** The books depend only on who is there, where from, and in which room. */
  lemma SameBooks(a: State, b: State, cfg: Config)
    requires ConnsCounted(a) && RoomsCounted(a) && Capped(a, cfg)
    requires a.ipConns == b.ipConns && a.ipRooms == b.ipRooms
    requires a.peers.Keys == b.peers.Keys && a.rooms.Keys == b.rooms.Keys
    requires forall id :: id in a.peers ==> a.peers[id].ip == b.peers[id].ip
    requires forall code :: code in a.rooms ==> a.rooms[code].hostIP == b.rooms[code].hostIP
    ensures ConnsCounted(b) && RoomsCounted(b) && Capped(b, cfg)
  {
    assert |a.peers| == |a.peers.Keys| && |b.peers| == |b.peers.Keys|;
    assert |a.rooms| == |a.rooms.Keys| && |b.rooms| == |b.rooms.Keys|;
    assert forall ip :: PeersAt(a.peers, ip) == PeersAt(b.peers, ip);
    assert forall ip :: RoomsAt(a.rooms, ip) == RoomsAt(b.rooms, ip);
    hide PeersAt, RoomsAt, Get;
  }

  // ------------------------------------------------------- what each step keeps

  /** Queues carry no bookkeeping. */
  lemma NotifyKeepsInv(s: State, cfg: Config, targets: set<Id>, m: Message)
    requires Inv(s, cfg)
    ensures Inv(s.(peers := Notify(s.peers, targets, m)), cfg)
  {
    hide ConnsCounted, RoomsCounted, Capped;
    SameBooks(s, s.(peers := Notify(s.peers, targets, m)), cfg);
  }

  lemma OneMoreConn(s: State, cfg: Config, s': State, id: Id, p: Peer)
    requires ConnsCounted(s) && Capped(s, cfg) && id !in s.peers
    requires |s.peers| < cfg.maxGlobalConns && Get(s.ipConns, p.ip) < cfg.maxIPConns
    requires s' == s.(peers := s.peers[id := p], ipConns := Inc(s.ipConns, p.ip))
    ensures ConnsCounted(s') && Capped(s', cfg)
  {
    PeerAdded(s.peers, id, p);
    assert |s'.peers| == |s.peers| + 1;
    forall ip: Ip ensures Get(s'.ipConns, ip) == |PeersAt(s'.peers, ip)| && Get(s'.ipConns, ip) <= cfg.maxIPConns {
      assert Get(s.ipConns, ip) == |PeersAt(s.peers, ip)| && Get(s.ipConns, ip) <= cfg.maxIPConns;
    }
  }

  lemma OneLessAt(s: State, id: Id, ip: Ip)
    requires ConnsCounted(s) && id in s.peers
    ensures Get(Dec(s.ipConns, s.peers[id].ip), ip) == |PeersAt(s.peers - {id}, ip)| <= |PeersAt(s.peers, ip)|
  {
    PeerDropped(s.peers, id);
    assert Get(s.ipConns, ip) == |PeersAt(s.peers, ip)|;
    assert id in PeersAt(s.peers, s.peers[id].ip);
    hide ConnsCounted;
  }

  lemma OneLessCounted(s: State, s': State, id: Id)
    requires ConnsCounted(s) && id in s.peers
    requires s'.peers == s.peers - {id} && s'.ipConns == Dec(s.ipConns, s.peers[id].ip)
    ensures ConnsCounted(s')
  {
    assert forall ip :: ip in s'.ipConns ==> s'.ipConns[ip] > 0;
    forall ip: Ip ensures Get(s'.ipConns, ip) == |PeersAt(s'.peers, ip)| {
      OneLessAt(s, id, ip);
    }
    hide PeersAt, Dec;
  }

  lemma OneLessCapped(s: State, cfg: Config, s': State, id: Id)
    requires Capped(s, cfg) && ConnsCounted(s) && ConnsCounted(s') && id in s.peers
    requires s'.peers == s.peers - {id} && s'.rooms == s.rooms && s'.ipRooms == s.ipRooms
    ensures Capped(s', cfg)
  {
    assert |s'.peers.Keys| <= |s.peers.Keys| by { Cardinalities(s'.peers.Keys, s.peers.Keys); }
    assert |s'.peers| == |s'.peers.Keys| && |s.peers| == |s.peers.Keys|;
    forall ip: Ip ensures Get(s'.ipConns, ip) <= cfg.maxIPConns {
      assert Get(s'.ipConns, ip) == |PeersAt(s'.peers, ip)| && Get(s.ipConns, ip) == |PeersAt(s.peers, ip)|;
      assert Get(s.ipConns, ip) <= cfg.maxIPConns;
      Cardinalities(PeersAt(s'.peers, ip), PeersAt(s.peers, ip));
    }
    hide ConnsCounted;
  }

  lemma OneLessConn(s: State, cfg: Config, s': State, id: Id)
    requires ConnsCounted(s) && Capped(s, cfg) && id in s.peers
    requires s' == s.(peers := s.peers - {id}, ipConns := Dec(s.ipConns, s.peers[id].ip))
    ensures ConnsCounted(s') && Capped(s', cfg)
  {
    hide ConnsCounted, Capped, Dec;
    OneLessCounted(s, s', id);
    OneLessCapped(s, cfg, s', id);
  }

  lemma OneMoreRoom(s: State, cfg: Config, s': State, code: Code, r: Room)
    requires RoomsCounted(s) && Capped(s, cfg) && code !in s.rooms
    requires |s.rooms| < cfg.maxGlobalRooms && Get(s.ipRooms, r.hostIP) < cfg.maxIPRooms
    requires s' == s.(rooms := s.rooms[code := r], ipRooms := Inc(s.ipRooms, r.hostIP))
    ensures RoomsCounted(s') && Capped(s', cfg)
  {
    RoomAdded(s.rooms, code, r);
    assert |s'.rooms| == |s.rooms| + 1;
    forall ip: Ip ensures Get(s'.ipRooms, ip) == |RoomsAt(s'.rooms, ip)| && Get(s'.ipRooms, ip) <= cfg.maxIPRooms {
      assert Get(s.ipRooms, ip) == |RoomsAt(s.rooms, ip)| && Get(s.ipRooms, ip) <= cfg.maxIPRooms;
    }
  }

  lemma OneLessHosted(s: State, code: Code, ip: Ip)
    requires RoomsCounted(s) && code in s.rooms
    ensures Get(Dec(s.ipRooms, s.rooms[code].hostIP), ip) == |RoomsAt(s.rooms - {code}, ip)| <= |RoomsAt(s.rooms, ip)|
  {
    RoomDropped(s.rooms, code);
    assert Get(s.ipRooms, ip) == |RoomsAt(s.rooms, ip)|;
    assert code in RoomsAt(s.rooms, s.rooms[code].hostIP);
    hide RoomsCounted;
  }

  lemma OneLessRoomCounted(s: State, s': State, code: Code)
    requires RoomsCounted(s) && code in s.rooms
    requires s'.rooms == s.rooms - {code} && s'.ipRooms == Dec(s.ipRooms, s.rooms[code].hostIP)
    ensures RoomsCounted(s')
  {
    assert forall ip :: ip in s'.ipRooms ==> s'.ipRooms[ip] > 0;
    forall ip: Ip ensures Get(s'.ipRooms, ip) == |RoomsAt(s'.rooms, ip)| {
      OneLessHosted(s, code, ip);
    }
    hide RoomsAt, Dec;
  }

  lemma OneLessRoomCapped(s: State, cfg: Config, s': State, code: Code)
    requires Capped(s, cfg) && RoomsCounted(s) && RoomsCounted(s') && code in s.rooms
    requires s'.rooms == s.rooms - {code} && s'.peers == s.peers && s'.ipConns == s.ipConns
    ensures Capped(s', cfg)
  {
    assert |s'.rooms.Keys| <= |s.rooms.Keys| by { Cardinalities(s'.rooms.Keys, s.rooms.Keys); }
    assert |s'.rooms| == |s'.rooms.Keys| && |s.rooms| == |s.rooms.Keys|;
    forall ip: Ip ensures Get(s'.ipRooms, ip) <= cfg.maxIPRooms {
      assert Get(s'.ipRooms, ip) == |RoomsAt(s'.rooms, ip)| && Get(s.ipRooms, ip) == |RoomsAt(s.rooms, ip)|;
      assert Get(s.ipRooms, ip) <= cfg.maxIPRooms;
      Cardinalities(RoomsAt(s'.rooms, ip), RoomsAt(s.rooms, ip));
    }
    hide RoomsCounted;
  }

  lemma OneLessRoom(s: State, cfg: Config, s': State, code: Code)
    requires RoomsCounted(s) && Capped(s, cfg) && code in s.rooms
    requires s' == s.(rooms := s.rooms - {code}, ipRooms := Dec(s.ipRooms, s.rooms[code].hostIP))
    ensures RoomsCounted(s') && Capped(s', cfg)
  {
    hide RoomsCounted, Capped, Dec;
    OneLessRoomCounted(s, s', code);
    OneLessRoomCapped(s, cfg, s', code);
  }

  lemma FreshPeerKeepsTheRest(s: State, id: Id, p: Peer, ipConns: map<Ip, int>)
    requires RoomsCounted(s) && Mirrored(s) && Inhabited(s) && id !in s.peers && p.room == NO_ROOM
    ensures var s' := s.(peers := s.peers[id := p], ipConns := ipConns);
            RoomsCounted(s') && Mirrored(s') && Inhabited(s')
  {}

  lemma ReusedIdMiscounts(s: State, id: Id, p: Peer)
    requires ConnsCounted(s) && id in s.peers
    ensures !ConnsCounted(s.(peers := s.peers[id := p], ipConns := Inc(s.ipConns, p.ip)))
  {
    var s' := s.(peers := s.peers[id := p], ipConns := Inc(s.ipConns, p.ip));
    var was := s.peers[id].ip;
    if was == p.ip {
      assert PeersAt(s'.peers, was) == PeersAt(s.peers, was);
    } else {
      assert id in PeersAt(s.peers, was);
      assert PeersAt(s'.peers, was) == PeersAt(s.peers, was) - {id};
    }
    assert Get(s.ipConns, was) == |PeersAt(s.peers, was)|;
    assert Get(s'.ipConns, was) != |PeersAt(s'.peers, was)|;
  }

  /** Registration keeps the books exactly when a peer it accepts has a fresh id. */
  lemma RegisterKeepsInvIffFresh(s: State, cfg: Config, id: Id, ip: Ip)
    requires Inv(s, cfg) && Register(s, cfg, id, ip).1 == Accepted
    ensures Inv(Register(s, cfg, id, ip).0, cfg) <==> id !in s.peers
  {
    hide ConnsCounted, RoomsCounted, Mirrored, Inhabited, Capped;
    var p := Peer(ip, "", NO_ROOM, []);
    if id !in s.peers {
      OneMoreConn(s, cfg, Register(s, cfg, id, ip).0, id, p);
      FreshPeerKeepsTheRest(s, id, p, Inc(s.ipConns, ip));
    } else {
      ReusedIdMiscounts(s, id, p);
    }
  }

  // -------------------------------------------------------------- unregistering

  lemma NotifyShape(peers: map<Id, Peer>, targets: set<Id>, m: Message)
    ensures var told := Notify(peers, targets, m);
            && told.Keys == peers.Keys
            && forall id :: id in peers ==> told[id].(send := []) == peers[id].(send := [])
  {}

  /** The hub after a departure, but for queues and clocks. */
  lemma LeaveShape(s: State, t: State, id: Id, code: Code, now: int)
    requires code in s.rooms && t.peers == s.peers - {id} && t.rooms == s.rooms
    ensures var u, left := Leave(t, id, code, now), s.rooms[code].members - {id};
            && u.peers == Notify(t.peers, left, PeerLeft(id))
            && u.rooms == if left == {} then s.rooms - {code}
                          else s.rooms[code := s.rooms[code].(members := left, lastActive := now)]
  {
    hide Notify, Dec;
  }

  lemma LeaveMirrored(s: State, t: State, id: Id, now: int)
    requires Mirrored(s) && Inhabited(s) && id in s.peers && s.peers[id].room != NO_ROOM
    requires t.peers == s.peers - {id} && t.rooms == s.rooms
    ensures var u := Leave(t, id, s.peers[id].room, now);
            Mirrored(u) && Inhabited(u) && u.peers.Keys == t.peers.Keys
  {
    var code := s.peers[id].room;
    var left := s.rooms[code].members - {id};
    assert id in s.rooms[code].members && |left| < |s.rooms[code].members|;
    hide Leave, Notify, Mirrored, Inhabited;
    NotifyShape(t.peers, left, PeerLeft(id));
    LeaveShape(s, t, id, code, now);
    LeftMirrored(s, Leave(t, id, code, now), id, code, left);
  }

  /** Whom the rooms list, and whose rooms list them, after a departure. */
  lemma LeftListed(s: State, u: State, id: Id, code: Code, left: set<Id>)
    requires Mirrored(s) && Inhabited(s) && id in s.peers && code == s.peers[id].room != NO_ROOM
    requires left == s.rooms[code].members - {id} && |left| < |s.rooms[code].members|
    requires u.peers.Keys == s.peers.Keys - {id}
    requires forall i :: i in u.peers ==> u.peers[i].room == s.peers[i].room
    requires u.rooms.Keys == if left == {} then s.rooms.Keys - {code} else s.rooms.Keys
    requires forall c :: c in u.rooms ==>
      u.rooms[c].members == (if c == code then left else s.rooms[c].members) && u.rooms[c].maxMembers == s.rooms[c].maxMembers
    ensures NO_ROOM !in u.rooms
    ensures forall c, i {:trigger i in u.rooms[c].members} :: c in u.rooms && i in u.rooms[c].members ==>
              i in u.peers && u.peers[i].room == c
  {
    hide Inhabited;
    forall c, i | c in u.rooms && i in u.rooms[c].members ensures i in u.peers && u.peers[i].room == c {
      assert c in s.rooms && i in s.rooms[c].members;
    }
  }

  lemma LeftHoused(s: State, u: State, id: Id, code: Code, left: set<Id>)
    requires Mirrored(s) && Inhabited(s) && id in s.peers && code == s.peers[id].room != NO_ROOM
    requires left == s.rooms[code].members - {id} && |left| < |s.rooms[code].members|
    requires u.peers.Keys == s.peers.Keys - {id}
    requires forall i :: i in u.peers ==> u.peers[i].room == s.peers[i].room
    requires u.rooms.Keys == if left == {} then s.rooms.Keys - {code} else s.rooms.Keys
    requires forall c :: c in u.rooms ==>
      u.rooms[c].members == (if c == code then left else s.rooms[c].members) && u.rooms[c].maxMembers == s.rooms[c].maxMembers
    ensures forall i :: i in u.peers && u.peers[i].room != NO_ROOM ==>
              u.peers[i].room in u.rooms && i in u.rooms[u.peers[i].room].members
  {
    hide Inhabited;
    forall i | i in u.peers && u.peers[i].room != NO_ROOM
      ensures u.peers[i].room in u.rooms && i in u.rooms[u.peers[i].room].members
    {
      assert i in s.rooms[s.peers[i].room].members;
    }
  }

  lemma LeftInhabited(s: State, u: State, id: Id, code: Code, left: set<Id>)
    requires Mirrored(s) && Inhabited(s) && id in s.peers && code == s.peers[id].room != NO_ROOM
    requires left == s.rooms[code].members - {id} && |left| < |s.rooms[code].members|
    requires u.peers.Keys == s.peers.Keys - {id}
    requires forall i :: i in u.peers ==> u.peers[i].room == s.peers[i].room
    requires u.rooms.Keys == if left == {} then s.rooms.Keys - {code} else s.rooms.Keys
    requires forall c :: c in u.rooms ==>
      u.rooms[c].members == (if c == code then left else s.rooms[c].members) && u.rooms[c].maxMembers == s.rooms[c].maxMembers
    ensures Inhabited(u)
  {
    hide Mirrored;
  }

  lemma LeftMirrored(s: State, u: State, id: Id, code: Code, left: set<Id>)
    requires Mirrored(s) && Inhabited(s) && id in s.peers && code == s.peers[id].room != NO_ROOM
    requires left == s.rooms[code].members - {id} && |left| < |s.rooms[code].members|
    requires u.peers.Keys == s.peers.Keys - {id}
    requires forall i :: i in u.peers ==> u.peers[i].room == s.peers[i].room
    requires u.rooms.Keys == if left == {} then s.rooms.Keys - {code} else s.rooms.Keys
    requires forall c :: c in u.rooms ==>
      u.rooms[c].members == (if c == code then left else s.rooms[c].members) && u.rooms[c].maxMembers == s.rooms[c].maxMembers
    ensures Mirrored(u) && Inhabited(u)
  {
    LeftListed(s, u, id, code, left);
    LeftHoused(s, u, id, code, left);
    LeftInhabited(s, u, id, code, left);
    hide Inhabited;
  }

  lemma LeaveBooks(t: State, cfg: Config, id: Id, code: Code, now: int)
    requires ConnsCounted(t) && RoomsCounted(t) && Capped(t, cfg) && code in t.rooms
    ensures var u := Leave(t, id, code, now);
            ConnsCounted(u) && RoomsCounted(u) && Capped(u, cfg)
  {
    hide Get;
    var room := t.rooms[code].(members := t.rooms[code].members - {id}, lastActive := now);
    var u := t.(rooms := t.rooms[code := room], peers := Notify(t.peers, room.members, PeerLeft(id)));
    SameBooks(t, u, cfg);
    if room.members == {} { OneLessRoom(u, cfg, DeleteRoom(u, code), code); }
  }

  lemma LonerMirrored(s: State, t: State, id: Id)
    requires Mirrored(s) && Inhabited(s) && id in s.peers && s.peers[id].room == NO_ROOM
    requires t.peers == s.peers - {id} && t.rooms == s.rooms
    ensures Mirrored(t) && Inhabited(t)
  {}

  /** A registered peer's connection ends. */
  lemma UnregisterKeepsInv(s: State, cfg: Config, id: Id, now: int)
    requires Inv(s, cfg)
    ensures Inv(Unregister(s, id, now), cfg)
    ensures Unregister(s, id, now).peers.Keys == s.peers.Keys - {id}
  {
    if id in s.peers {
      var t := s.(peers := s.peers - {id}, ipConns := Dec(s.ipConns, s.peers[id].ip));
      assert RoomsCounted(t) && (s.peers[id].room != NO_ROOM ==> s.peers[id].room in s.rooms);
      hide ConnsCounted, RoomsCounted, Mirrored, Inhabited, Capped, Leave;
      OneLessConn(s, cfg, t, id);
      if s.peers[id].room != NO_ROOM {
        LeaveMirrored(s, t, id, now);
        LeaveBooks(t, cfg, id, s.peers[id].room, now);
      } else {
        LonerMirrored(s, t, id);
      }
    }
  }

  // ------------------------------------------------------------------- joining

  lemma CreateMirrored(s: State, id: Id, code: Code, now: int)
    requires Mirrored(s) && Inhabited(s) && id in s.peers && s.peers[id].room == NO_ROOM && code != NO_ROOM
    ensures var s' := Create(s, id, code, now);
            if code in s.rooms then !Mirrored(s') else Mirrored(s') && Inhabited(s')
  {
    var s' := Create(s, id, code, now);
    if code in s.rooms {
      // whoever was in the overwritten room still names it
      var other :| other in s.rooms[code].members;
      assert s'.peers[other].room == code && other !in s'.rooms[code].members;
    }
  }

  lemma CreateBooks(s: State, cfg: Config, id: Id, code: Code, now: int)
    requires ConnsCounted(s) && RoomsCounted(s) && Capped(s, cfg) && id in s.peers && code !in s.rooms
    requires |s.rooms| < cfg.maxGlobalRooms && Get(s.ipRooms, s.peers[id].ip) < cfg.maxIPRooms
    ensures var s' := Create(s, id, code, now);
            ConnsCounted(s') && RoomsCounted(s') && Capped(s', cfg)
  {
    var s' := Create(s, id, code, now);
    var t := s.(peers := s'.peers);
    SameBooks(s, t, cfg);
    OneMoreRoom(t, cfg, s', code, s'.rooms[code]);
  }

  /** Creating a room keeps the books exactly when the code is not in use. */
  lemma CreateKeepsInvIffFree(s: State, cfg: Config, id: Id, code: Code, now: int)
    requires Inv(s, cfg) && id in s.peers && s.peers[id].room == NO_ROOM && code != NO_ROOM
    requires |s.rooms| < cfg.maxGlobalRooms && Get(s.ipRooms, s.peers[id].ip) < cfg.maxIPRooms
    ensures Inv(Create(s, id, code, now), cfg) <==> code !in s.rooms
  {
    hide ConnsCounted, RoomsCounted, Mirrored, Inhabited, Capped, Create;
    CreateMirrored(s, id, code, now);
    if code !in s.rooms { CreateBooks(s, cfg, id, code, now); }
  }

  lemma EnterMirrored(s: State, id: Id, code: Code, now: int)
    requires Mirrored(s) && Inhabited(s) && id in s.peers && s.peers[id].room == NO_ROOM && code in s.rooms
    requires |s.rooms[code].members| < s.rooms[code].maxMembers
    ensures Mirrored(Enter(s, id, code, now)) && Inhabited(Enter(s, id, code, now))
  {
    assert id !in s.rooms[code].members;
  }

  lemma EnterKeepsInv(s: State, cfg: Config, id: Id, code: Code, now: int)
    requires Inv(s, cfg) && id in s.peers && s.peers[id].room == NO_ROOM && code in s.rooms
    requires |s.rooms[code].members| < s.rooms[code].maxMembers
    ensures Inv(Enter(s, id, code, now), cfg)
  {
    hide ConnsCounted, RoomsCounted, Mirrored, Inhabited, Capped;
    EnterMirrored(s, id, code, now);
    SameBooks(s, Enter(s, id, code, now), cfg);
  }

  /** The loop takes a code in use only when every one of its five tries is. */
  lemma {:induction false} PickedCodeIsFree(rooms: set<Code>, tries: seq<Code>, i: nat)
    requires i < CODE_TRIES
    ensures var picked := PickCode(rooms, tries, i);
            && (picked.Some? ==> picked.value in tries)
            && (picked.Some? && picked.value in rooms <==>
                  |tries| >= 5 && forall j :: i <= j < 5 ==> tries[j] in rooms)
    decreases CODE_TRIES - i
  {
    if i < |tries| && tries[i] in rooms && i < CODE_TRIES - 1 {
      PickedCodeIsFree(rooms, tries, i + 1);
    }
  }

  /** Every generated code is already in use. */
  ghost predicate Exhausted(s: State, tries: seq<Code>) {
    |tries| >= 5 && forall j :: 0 <= j < 5 ==> tries[j] in s.rooms
  }

  /** The peer may open a room: it has none, and both caps leave space. */
  predicate MayOpen(s: State, cfg: Config, id: Id) {
    && id in s.peers && s.peers[id].room == NO_ROOM
    && |s.rooms| < cfg.maxGlobalRooms && Get(s.ipRooms, s.peers[id].ip) < cfg.maxIPRooms
  }

  /** A join is accepted or refused; either way the books balance afterwards, except
      exactly when a peer that may open a room asks for a generated code and the
      generator's five tries are all in use. */
  lemma JoinKeepsInvIffCodeFree(s: State, cfg: Config, id: Id, requested: Code, asHost: bool, tries: seq<Code>, now: int)
    requires Inv(s, cfg) && NO_ROOM !in tries
    ensures var (s', reply) := JoinOrCreate(s, cfg, id, requested, asHost, tries, now);
            && (reply.Rejected? ==> s' == s)
            && (Inv(s', cfg) <==> !(requested == NO_ROOM && MayOpen(s, cfg, id) && Exhausted(s, tries)))
  {
    hide ConnsCounted, RoomsCounted, Mirrored, Capped;
    var (s', reply) := JoinOrCreate(s, cfg, id, requested, asHost, tries, now);
    PickedCodeIsFree(s.rooms.Keys, tries, 0);
    if reply == Accepted {
      if requested == NO_ROOM {
        CreateKeepsInvIffFree(s, cfg, id, PickCode(s.rooms.Keys, tries, 0).value, now);
      } else if asHost {
        CreateKeepsInvIffFree(s, cfg, id, requested, now);
      } else {
        EnterKeepsInv(s, cfg, id, requested, now);
      }
    }
  }

  // ------------------------------------------------------------------- routing

  /** Same members, same rooms: queues, roles and clocks are not in the books. */
  lemma SameMembers(a: State, b: State)
    requires Mirrored(a) && Inhabited(a) && a.peers.Keys == b.peers.Keys && a.rooms.Keys == b.rooms.Keys
    requires forall id :: id in a.peers ==> a.peers[id].room == b.peers[id].room
    requires forall code :: code in a.rooms ==>
      a.rooms[code].members == b.rooms[code].members && a.rooms[code].maxMembers == b.rooms[code].maxMembers
    ensures Mirrored(b) && Inhabited(b)
  {}

  lemma RouteShape(s: State, from: Id, msg: Routed, now: int)
    ensures var s' := Route(s, from, msg, now).0;
            && s'.ipConns == s.ipConns && s'.ipRooms == s.ipRooms
            && s'.peers.Keys == s.peers.Keys && s'.rooms.Keys == s.rooms.Keys
            && (forall id :: id in s.peers ==>
                  s'.peers[id].ip == s.peers[id].ip && s'.peers[id].room == s.peers[id].room)
            && (forall c :: c in s.rooms ==>
                  && s'.rooms[c].members == s.rooms[c].members
                  && s'.rooms[c].hostIP == s.rooms[c].hostIP
                  && s'.rooms[c].maxMembers == s.rooms[c].maxMembers)
  {
    var s' := Route(s, from, msg, now).0;
    assert s'.rooms == s.rooms || (from in s.peers && s.peers[from].room in s.rooms
      && s'.rooms == s.rooms[s.peers[from].room := s.rooms[s.peers[from].room].(lastActive := now)]);
    assert s'.peers == s.peers || (msg.to in s.peers && exists m :: s'.peers == s.peers[msg.to := Push(s.peers[msg.to], m)]);
    hide Route;
  }

  lemma RouteKeepsInv(s: State, cfg: Config, from: Id, msg: Routed, now: int)
    requires Inv(s, cfg)
    ensures Inv(Route(s, from, msg, now).0, cfg)
  {
    hide ConnsCounted, RoomsCounted, Mirrored, Inhabited, Capped, Route;
    RouteShape(s, from, msg, now);
    SameBooks(s, Route(s, from, msg, now).0, cfg);
    SameMembers(s, Route(s, from, msg, now).0);
  }

  // ------------------------------------------------------------------- reaping

  lemma RoomsSplit(rooms: map<Code, Room>, gone: set<Code>, ip: Ip)
    requires gone <= rooms.Keys
    ensures |RoomsAt(rooms, ip)| == |RoomsAt(rooms - gone, ip)| + |HostedBy(rooms, gone, ip)|
  {
    assert RoomsAt(rooms, ip) == RoomsAt(rooms - gone, ip) + HostedBy(rooms, gone, ip);
  }

  lemma ReapBooks(s: State, cfg: Config, now: int)
    requires RoomsCounted(s) && Capped(s, cfg)
    ensures RoomsCounted(Reap(s, cfg, now))
    ensures forall ip :: Get(Reap(s, cfg, now).ipRooms, ip) <= cfg.maxIPRooms
    ensures |Reap(s, cfg, now).rooms| <= |s.rooms|
  {
    var gone := Expired(s, cfg, now);
    var s' := Reap(s, cfg, now);
    assert s'.rooms.Keys <= s.rooms.Keys;
    Cardinalities(s'.rooms.Keys, s.rooms.Keys);
    forall ip: Ip ensures Get(s'.ipRooms, ip) == |RoomsAt(s'.rooms, ip)| && Get(s'.ipRooms, ip) <= cfg.maxIPRooms {
      RoomsSplit(s.rooms, gone, ip);
      assert Get(s.ipRooms, ip) == |RoomsAt(s.rooms, ip)| && Get(s.ipRooms, ip) <= cfg.maxIPRooms;
    }
  }

  lemma {:induction false} Cardinalities<T>(a: set<T>, b: set<T>)
    requires a <= b
    ensures |a| <= |b|
  {
    if a != {} {
      var x :| x in a;
      Cardinalities(a - {x}, b - {x});
    }
  }

  lemma EvictShape(peers: map<Id, Peer>, rooms: map<Code, Room>, codes: set<Code>)
    ensures EvictAll(peers, rooms, codes).Keys == peers.Keys
    ensures forall id :: id in peers ==> EvictAll(peers, rooms, codes)[id].ip == peers[id].ip
  {}

  lemma SamePeersAt(a: map<Id, Peer>, b: map<Id, Peer>)
    requires a.Keys == b.Keys && forall id :: id in a ==> a[id].ip == b[id].ip
    ensures forall ip :: PeersAt(a, ip) == PeersAt(b, ip)
  {}

  lemma ReapConns(s: State, cfg: Config, now: int)
    requires ConnsCounted(s)
    ensures ConnsCounted(Reap(s, cfg, now))
    ensures Reap(s, cfg, now).peers.Keys == s.peers.Keys
  {
    var peers := Reap(s, cfg, now).peers;
    EvictShape(s.peers, s.rooms, Expired(s, cfg, now));
    hide EvictAll;
    SamePeersAt(peers, s.peers);
    hide PeersAt, Get;
  }

  lemma ReapMirrored(s: State, cfg: Config, now: int)
    requires Mirrored(s) && Inhabited(s)
    ensures Mirrored(Reap(s, cfg, now)) && Inhabited(Reap(s, cfg, now))
    ensures var s' := Reap(s, cfg, now);
            forall id :: id in s.peers ==>
              s'.peers[id].room == if s.peers[id].room in s'.rooms then s.peers[id].room else NO_ROOM
  {
    var gone := Expired(s, cfg, now);
    var s' := Reap(s, cfg, now);
    forall id | id in s.peers
      ensures s'.peers[id].room == if s.peers[id].room in gone then NO_ROOM else s.peers[id].room
    {
      var code := s.peers[id].room;
      if code in gone { assert id in s.rooms[code].members; }
    }
  }

  /** Reaping deletes the idle rooms and puts their members out. */
  lemma ReapKeepsInv(s: State, cfg: Config, now: int)
    requires Inv(s, cfg)
    ensures Inv(Reap(s, cfg, now), cfg)
  {
    ReapBooks(s, cfg, now);
    ReapConns(s, cfg, now);
    ReapMirrored(s, cfg, now);
    var s' := Reap(s, cfg, now);
    assert |s'.peers| == |s'.peers.Keys| && |s.peers| == |s.peers.Keys|;
    assert s'.ipConns == s.ipConns;
    hide ConnsCounted, RoomsCounted, Mirrored, Inhabited, Reap;
  }
}
