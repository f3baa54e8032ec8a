/** The hub as the server keeps it: four tables updated in place under one lock
    (server/hub.go).  Each method is one critical section and is proved to be
    the step of the same name in `HubState`, whose invariants and runs are the
    subject of `HubInvariant` and `Roster`. */
module Hub {
  import opened Common
  import opened HubState

  class Hub {
    const config: Config
    var rooms: map<Code, Room>
    var peers: map<Id, Peer>
    var ipConns: map<Ip, int>
    var ipRooms: map<Ip, int>

    constructor (config: Config)
      ensures this.config == config && View() == EMPTY
    {
      this.config := config;
      rooms, peers, ipConns, ipRooms := map[], map[], map[], map[];
    }

    ghost function View(): State
      reads this
    {
      State(peers, rooms, ipConns, ipRooms)
    }

    method RegisterPeer(id: Id, ip: Ip) returns (reply: Reply)
      modifies this
      ensures (View(), reply) == Register(old(View()), config, id, ip)
    {
      if |peers| >= config.maxGlobalConns {
        return Rejected("global connection cap reached");
      }
      if Get(ipConns, ip) >= config.maxIPConns {
        return Rejected("per-IP connection cap reached");
      }
      peers := peers[id := Peer(ip, "", NO_ROOM, [])];
      ipConns := ipConns[ip := Get(ipConns, ip) + 1];
      return Accepted;
    }

    /** One non-blocking send to each registered peer of `targets`. */
    method Broadcast(targets: set<Id>, m: Message)
      modifies this`peers
      ensures peers == Notify(old(peers), targets, m)
    {
      var rest := targets;
      while rest != {}
        invariant rest <= targets
        invariant peers == Notify(old(peers), targets - rest, m)
        decreases rest
      {
        var id :| id in rest;
        if id in peers && |peers[id].send| < QUEUE_CAPACITY {
          peers := peers[id := peers[id].(send := peers[id].send + [m])];
        }
        rest := rest - {id};
      }
      assert targets - rest == targets;
    }

    method DeleteRoomInternal(code: Code)
      requires code in rooms
      modifies this`rooms, this`ipRooms
      ensures View() == DeleteRoom(old(View()), code)
    {
      var ip := rooms[code].hostIP;
      rooms := rooms - {code};
      ipRooms := ipRooms[ip := Get(ipRooms, ip) - 1];
      if ipRooms[ip] <= 0 {
        ipRooms := ipRooms - {ip};
      }
      assert ipRooms == Dec(old(ipRooms), ip);
    }

    method UnregisterPeer(id: Id, now: int)
      modifies this
      ensures View() == Unregister(old(View()), id, now)
    {
      if id !in peers {
        return;
      }
      var peer := peers[id];
      peers := peers - {id};
      ipConns := ipConns[peer.ip := Get(ipConns, peer.ip) - 1];
      if ipConns[peer.ip] <= 0 {
        ipConns := ipConns - {peer.ip};
      }
      assert ipConns == Dec(old(ipConns), peer.ip);
      if peer.room != NO_ROOM && peer.room in rooms {
        var room := rooms[peer.room];
        room := room.(members := room.members - {id}, lastActive := now);
        rooms := rooms[peer.room := room];
        Broadcast(room.members, PeerLeft(id));
        if |room.members| == 0 {
          DeleteRoomInternal(peer.room);
        }
      }
    }

    /** The code-generation loop of `JoinOrCreateRoom`. */
    method GenerateCode(tries: seq<Code>) returns (code: Option<Code>)
      ensures code == PickCode(rooms.Keys, tries, 0)
    {
      code := None;
      var i := 0;
      while i < CODE_TRIES
        invariant 0 <= i <= CODE_TRIES
        invariant i < CODE_TRIES ==> PickCode(rooms.Keys, tries, 0) == PickCode(rooms.Keys, tries, i)
        invariant i == CODE_TRIES ==> code == PickCode(rooms.Keys, tries, 0)
      {
        if i >= |tries| {
          return None;
        }
        code := Some(tries[i]);
        if tries[i] !in rooms {
          return;
        }
        i := i + 1;
      }
    }

    method JoinOrCreateRoom(id: Id, requested: Code, asHost: bool, tries: seq<Code>, now: int) returns (reply: Reply)
      modifies this
      ensures (View(), reply) == JoinOrCreate(old(View()), config, id, requested, asHost, tries, now)
    {
      if id !in peers {
        return Rejected("peer not registered");
      }
      if peers[id].room != NO_ROOM {
        return Rejected("peer already in a room");
      }
      if requested == NO_ROOM || asHost {
        if |rooms| >= config.maxGlobalRooms {
          return Rejected("global room cap reached");
        }
        if Get(ipRooms, peers[id].ip) >= config.maxIPRooms {
          return Rejected("per-IP room cap reached");
        }
        var code := requested;
        if requested != NO_ROOM {
          if requested in rooms {
            return Rejected("code-taken");
          }
        } else {
          var generated := GenerateCode(tries);
          if generated == None {
            return Rejected("failed to generate room code");
          }
          code := generated.value;
        }
        var room := Room({id}, id, peers[id].ip, now, now, MAX_MEMBERS);
        peers := peers[id := peers[id].(room := code, role := "host")];
        rooms := rooms[code := room];
        ipRooms := ipRooms[peers[id].ip := Get(ipRooms, peers[id].ip) + 1];
        return Accepted;
      }
      if requested !in rooms {
        return Rejected("room not found");
      }
      var room := rooms[requested];
      if |room.members| >= room.maxMembers {
        return Rejected("room is full");
      }
      peers := peers[id := peers[id].(room := requested, role := "guest")];
      room := room.(members := room.members + {id}, lastActive := now);
      rooms := rooms[requested := room];
      Broadcast(room.members - {id}, PeerJoined(id));
      return Accepted;
    }

    method RouteMessage(from: Id, msg: Routed, now: int) returns (reply: Reply)
      modifies this
      ensures (View(), reply) == Route(old(View()), from, msg, now)
    {
      if from !in peers {
        return Rejected("sender not registered");
      }
      var code := peers[from].room;
      if code == NO_ROOM {
        return Rejected("sender not in a room");
      }
      if msg.room != NO_ROOM && msg.room != code {
        return Rejected("room mismatch");
      }
      if code !in rooms {
        return Rejected("room not found");
      }
      rooms := rooms[code := rooms[code].(lastActive := now)];
      if msg.to !in rooms[code].members || msg.to !in peers {
        return Rejected("recipient not in the same room");
      }
      if |peers[msg.to].send| >= QUEUE_CAPACITY {
        return Rejected("recipient channel full");
      }
      var forward := Forward(msg.kind, from, msg.sdp, msg.candidate, msg.key);
      peers := peers[msg.to := peers[msg.to].(send := peers[msg.to].send + [forward])];
      return Accepted;
    }

    /** Puts the members of one expired room out of it. */
    method EvictMembers(members: set<Id>)
      modifies this`peers
      ensures peers == map id | id in old(peers) :: if id in members then Evict(old(peers)[id]) else old(peers)[id]
    {
      var rest := members;
      while rest != {}
        invariant rest <= members
        invariant peers == map id | id in old(peers) ::
                    if id in members && id !in rest then Evict(old(peers)[id]) else old(peers)[id]
        decreases rest
      {
        var id :| id in rest;
        if id in peers {
          var peer := peers[id].(room := NO_ROOM);
          if |peer.send| < QUEUE_CAPACITY {
            peer := peer.(send := peer.send + [Error("room expired due to inactivity")]);
          }
          peers := peers[id := peer];
        }
        rest := rest - {id};
      }
    }

    /** Deletes one expired room after the rooms `done` of `s`. */
    method ReapRoom(code: Code, ghost s: State, ghost done: set<Code>)
      requires code in s.rooms && code !in done && done <= s.rooms.Keys
      requires forall a, b :: a in s.rooms && b in s.rooms && a != b ==> s.rooms[a].members !! s.rooms[b].members
      requires View() == Reaped(s, done)
      modifies this
      ensures View() == Reaped(s, done + {code})
    {
      EvictedOneMore(s, done, code);
      CountedOneLess(s, done, code);
      EvictMembers(rooms[code].members);
      DeleteRoomInternal(code);
      assert rooms == s.rooms - (done + {code});
    }

    /** Deletes every room idle for longer than the TTL.  A peer is in at most
        one room (`HubInvariant.Mirrored`). */
    method ReapRooms(now: int)
      requires forall a, b :: a in rooms && b in rooms && a != b ==> rooms[a].members !! rooms[b].members
      modifies this
      ensures View() == Reap(old(View()), config, now)
    {
      hide EvictAll, DecAll;
      ghost var s := View();
      ghost var done: set<Code> := {};
      NothingReaped(s);
      var rest := rooms.Keys;
      while rest != {}
        invariant rest <= s.rooms.Keys && done !! rest
        invariant done == Expired(s, config, now) - rest
        invariant View() == Reaped(s, done)
        decreases rest
      {
        var code :| code in rest;
        if now - rooms[code].lastActive > config.roomTTL {
          ReapRoom(code, s, done);
          done := done + {code};
        }
        rest := rest - {code};
      }
      assert done == Expired(s, config, now);
    }
  }

  /** `s` with the rooms `codes` reaped. */
  ghost function Reaped(s: State, codes: set<Code>): State {
    s.(peers := EvictAll(s.peers, s.rooms, codes), rooms := s.rooms - codes,
       ipRooms := DecAll(s.ipRooms, s.rooms, codes))
  }

  lemma NothingReaped(s: State)
    ensures Reaped(s, {}) == s
  {
    assert forall ip :: HostedBy(s.rooms, {}, ip) == {};
    assert EvictAll(s.peers, s.rooms, {}) == s.peers;
    assert DecAll(s.ipRooms, s.rooms, {}) == s.ipRooms;
  }

  lemma EvictedOneMore(s: State, done: set<Code>, code: Code)
    requires code in s.rooms && code !in done && done <= s.rooms.Keys
    requires forall a, b :: a in s.rooms && b in s.rooms && a != b ==> s.rooms[a].members !! s.rooms[b].members
    ensures var was := EvictAll(s.peers, s.rooms, done);
            EvictAll(s.peers, s.rooms, done + {code})
            == map id | id in was :: if id in s.rooms[code].members then Evict(was[id]) else was[id]
  {
    var was := EvictAll(s.peers, s.rooms, done);
    hide Evict;
    forall id | id in s.peers && id in s.rooms[code].members
      ensures was[id] == s.peers[id]
    {}
  }

  lemma CountedOneLess(s: State, done: set<Code>, code: Code)
    requires code in s.rooms && code !in done
    ensures DecAll(s.ipRooms, s.rooms, done + {code}) == Dec(DecAll(s.ipRooms, s.rooms, done), s.rooms[code].hostIP)
  {
    var host, before, after := s.rooms[code].hostIP, HostedBy(s.rooms, done, s.rooms[code].hostIP), HostedBy(s.rooms, done + {code}, s.rooms[code].hostIP);
    assert after == before + {code} && code !in before && |after| == |before| + 1;
    forall ip: Ip | ip != host ensures HostedBy(s.rooms, done + {code}, ip) == HostedBy(s.rooms, done, ip) {}
    hide HostedBy;
  }
}
