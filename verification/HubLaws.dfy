/** What each hub operation means to the peers, when the books balance
    (server/hub.go). */
module HubLaws {
  import opened HubState
  import opened HubInvariant

  /** Both are registered and in one room (a peer may write to itself). */
  predicate Together(s: State, p: Id, q: Id) {
    p in s.peers && q in s.peers && s.peers[p].room == s.peers[q].room != NO_ROOM
  }

  /** Nobody but `targets` notices, and of those each is told `m` once, unless its
      queue is full. */
  ghost predicate ExactlyTold(before: map<Id, Peer>, after: map<Id, Peer>, targets: set<Id>, m: Message) {
    && after.Keys == before.Keys
    && forall p :: p in before ==>
         after[p].send == if p in targets && |before[p].send| < 256 then before[p].send + [m] else before[p].send
  }

  /** A message is forwarded if and only if sender and recipient share a room, the
      room it names is that one or none, and the recipient's queue has room; then
      exactly the recipient gets it, from its true sender.  Otherwise no peer
      changes. */
  lemma RoutedIffTogether(s: State, cfg: Config, from: Id, msg: Routed, now: int)
    requires Inv(s, cfg)
    ensures var (s', reply) := Route(s, from, msg, now);
            && (reply == Accepted <==>
                  Together(s, from, msg.to) && (msg.room == NO_ROOM || msg.room == s.peers[from].room)
                  && |s.peers[msg.to].send| < 256)
            && (reply == Accepted ==>
                  ExactlyTold(s.peers, s'.peers, {msg.to}, Forward(msg.kind, from, msg.sdp, msg.candidate, msg.key)))
            && (reply != Accepted ==> s'.peers == s.peers)
  {
    hide ConnsCounted, RoomsCounted, Inhabited, Capped;
  }

  /** A departure tells exactly the room's other members; the room goes with its
      last member. */
  lemma LeavingTellsTheRest(s: State, cfg: Config, id: Id, now: int)
    requires Inv(s, cfg) && id in s.peers
    ensures var s' := Unregister(s, id, now);
            var mates := set p | p in s.peers && p != id && Together(s, id, p);
            && ExactlyTold(s.peers - {id}, s'.peers, mates, PeerLeft(id))
            && s'.rooms.Keys == if s.peers[id].room != NO_ROOM && mates == {} then s.rooms.Keys - {s.peers[id].room}
                                else s.rooms.Keys
  {
    hide ConnsCounted, RoomsCounted, Inhabited, Capped;
    var code := s.peers[id].room;
    if code != NO_ROOM {
      assert s.rooms[code].members - {id} == set p | p in s.peers && p != id && Together(s, id, p);
    }
  }

  lemma ReapedPeers(s: State, cfg: Config, p: Id, now: int)
    requires Mirrored(s) && p in s.peers
    ensures p in Reap(s, cfg, now).peers
    ensures Reap(s, cfg, now).peers[p] == if s.peers[p].room in Expired(s, cfg, now) then Evict(s.peers[p]) else s.peers[p]
  {
    hide DecAll, Evict;
  }

  /** A peer in no room any more, and told why unless its queue is full. */
  function PutOut(p: Peer, reason: string): Peer {
    p.(room := 0, send := p.send + if |p.send| < 256 then [Error(reason)] else [])
  }

  lemma EvictedIsPutOut(p: Peer)
    ensures Evict(p) == PutOut(p, "room expired due to inactivity")
  {}

  lemma NothingToReap(s: State, cfg: Config, now: int)
    requires Expired(s, cfg, now) == {}
    requires forall ip :: ip in s.ipRooms ==> s.ipRooms[ip] > 0
    ensures Reap(s, cfg, now) == s
  {
    assert forall ip :: HostedBy(s.rooms, {}, ip) == {};
    assert EvictAll(s.peers, s.rooms, {}) == s.peers;
    assert DecAll(s.ipRooms, s.rooms, {}) == s.ipRooms;
  }

  /** A second reaping at the same time does nothing. */
  lemma ReapedTwice(s: State, cfg: Config, now: int)
    requires Inv(s, cfg)
    ensures Reap(Reap(s, cfg, now), cfg, now) == Reap(s, cfg, now)
  {
    var s' := Reap(s, cfg, now);
    ReapKeepsInv(s, cfg, now);
    assert Expired(s', cfg, now) == {};
    assert forall ip :: ip in s'.ipRooms ==> s'.ipRooms[ip] > 0;
    hide Reap;
    NothingToReap(s', cfg, now);
  }

  /** Exactly the rooms idle for longer than the TTL are gone; exactly their members
      are out of a room and told so; a second reaping at the same time does
      nothing. */
  lemma ReapsExactlyTheIdle(s: State, cfg: Config, now: int)
    requires Inv(s, cfg)
    ensures var s' := Reap(s, cfg, now);
            && (forall code :: code in s'.rooms <==> code in s.rooms && now - s.rooms[code].lastActive <= cfg.roomTTL)
            && (forall code :: code in s'.rooms ==> s'.rooms[code] == s.rooms[code])
            && s'.peers.Keys == s.peers.Keys
            && (forall p :: p in s.peers ==>
                  s'.peers[p] == if s.peers[p].room in s.rooms && now - s.rooms[s.peers[p].room].lastActive > cfg.roomTTL
                                 then PutOut(s.peers[p], "room expired due to inactivity") else s.peers[p])
            && Reap(s', cfg, now) == s'
  {
    ReapedTwice(s, cfg, now);
    forall p | p in s.peers
      ensures Reap(s, cfg, now).peers[p]
              == if s.peers[p].room in s.rooms && now - s.rooms[s.peers[p].room].lastActive > cfg.roomTTL
                 then PutOut(s.peers[p], "room expired due to inactivity") else s.peers[p]
    {
      ReapedPeers(s, cfg, p, now);
      EvictedIsPutOut(s.peers[p]);
    }
    hide Inv, ConnsCounted, RoomsCounted, Mirrored, Inhabited, Capped, EvictAll, DecAll, Evict, PutOut;
  }

  // ------------------------------------------------------------ what is undone

  lemma CountedAndUncounted(m: map<Ip, int>, ip: Ip)
    requires ip in m ==> m[ip] > 0
    ensures Dec(Inc(m, ip), ip) == m
  {}

  /** An accepted registration is undone by the departure. */
  lemma RegistrationIsUndone(s: State, cfg: Config, id: Id, ip: Ip, now: int)
    requires Inv(s, cfg) && id !in s.peers && Register(s, cfg, id, ip).1 == Accepted
    ensures Unregister(Register(s, cfg, id, ip).0, id, now) == s
  {
    CountedAndUncounted(s.ipConns, ip);
    hide ConnsCounted, RoomsCounted, Mirrored, Inhabited, Capped, Inc, Dec, Leave;
    var s' := Register(s, cfg, id, ip).0;
    assert s'.peers - {id} == s.peers;
  }

  lemma LonerLeaves(t: State, id: Id, code: Code, now: int)
    requires code in t.rooms && t.rooms[code].members == {id}
    ensures Leave(t, id, code, now) == t.(rooms := t.rooms - {code}, ipRooms := Dec(t.ipRooms, t.rooms[code].hostIP))
  {
    hide Dec;
    assert Notify(t.peers, {}, PeerLeft(id)) == t.peers;
    var room := t.rooms[code].(members := {}, lastActive := now);
    assert t.rooms[code].members - {id} == {};
    assert t.rooms[code := room] - {code} == t.rooms - {code};
  }

  /** Opening a room leaves nothing behind when its only member goes. */
  lemma CreationIsUndone(s: State, cfg: Config, id: Id, code: Code, now: int, later: int)
    requires Inv(s, cfg) && id in s.peers && s.peers[id].room == NO_ROOM && code != NO_ROOM && code !in s.rooms
    ensures Unregister(Create(s, id, code, now), id, later) == Unregister(s, id, later)
  {
    var c, ip := Create(s, id, code, now), s.peers[id].ip;
    CountedAndUncounted(s.ipRooms, ip);
    hide ConnsCounted, RoomsCounted, Mirrored, Inhabited, Capped, Inc, Dec, Leave;
    Created(s, id, code, now);
    var t := c.(peers := c.peers - {id}, ipConns := Dec(c.ipConns, ip));
    LonerLeaves(t, id, code, later);
    hide Create;
  }

  lemma Created(s: State, id: Id, code: Code, now: int)
    requires id in s.peers && code !in s.rooms
    ensures var c := Create(s, id, code, now);
            && id in c.peers && c.peers[id].ip == s.peers[id].ip && c.peers[id].room == code
            && c.peers - {id} == s.peers - {id} && c.ipConns == s.ipConns && c.ipRooms == Inc(s.ipRooms, s.peers[id].ip)
            && code in c.rooms && c.rooms[code].members == {id} && c.rooms[code].hostIP == s.peers[id].ip
            && c.rooms - {code} == s.rooms
  {
    hide Inc;
  }

}
