/** How rooms come, stay and go over whole runs, in terms of what the members do
    (server/hub.go, server/ws.go). */
module RoomLife {
  import opened Common
  import opened HubState
  import opened HubInvariant
  import opened Roster

  predicate In(w: World, p: Id, c: Code) {
    p in w.hub.peers && w.hub.peers[p].room == c
  }

  /** Event `e` is an activity in room `c`: someone enters or opens it, a member
      leaves, or a member sends a message that names it or no room. */
  predicate Stirs(w: World, cfg: Config, e: Event, c: Code) {
    && Enabled(w, e)
    && match e
       case Join(id, _, _, _, _) => !In(w, id, c) && In(Step(w, cfg, e), id, c)
       case Disconnect(id, _) => In(w, id, c)
       case Signal(id, msg, _) => In(w, id, c) && (msg.room == NO_ROOM || msg.room == c)
       case _ => false
  }

  /** Event `i` is the last activity in `c`. */
  ghost predicate LastStir(cfg: Config, es: seq<Event>, c: Code, i: nat) {
    && i < |es| && Stirs(Run(cfg, es[..i]), cfg, es[i], c)
    && forall j {:trigger es[j]} :: i < j < |es| ==> !Stirs(Run(cfg, es[..j]), cfg, es[j], c)
  }

  lemma LastStirSnoc(cfg: Config, es: seq<Event>, c: Code, i: nat)
    requires es != []
    ensures var es0, e := es[..|es| - 1], es[|es| - 1];
            LastStir(cfg, es, c, i) <==>
            if i == |es| - 1 then Stirs(Run(cfg, es0), cfg, e, c)
            else LastStir(cfg, es0, c, i) && !Stirs(Run(cfg, es0), cfg, e, c)
  {
    hide Run, Stirs;
    var es0 := es[..|es| - 1];
    assert forall j {:trigger es0[j]} :: 0 <= j < |es0| ==> es0[..j] == es[..j] && es0[j] == es[j];
    assert forall j {:trigger es[j]} :: 0 <= j < |es0| ==> es0[..j] == es[..j] && es0[j] == es[j];
  }

  // ------------------------------------------------------------------ one step

  lemma JoinStirs(s: State, cfg: Config, id: Id, requested: Code, asHost: bool, tries: seq<Code>, now: int)
    requires id in s.peers
    ensures var (s', reply) := JoinOrCreate(s, cfg, id, requested, asHost, tries, now);
            && id in s'.peers
            && if reply.Rejected? then s' == s
               else
                 var c := s'.peers[id].room;
                 && s.peers[id].room == NO_ROOM && c in s'.rooms && s'.rooms[c].lastActive == now
                 && s'.rooms - {c} == s.rooms - {c}
  {
    hide PickCode, Inc;
  }

  lemma RouteStirs(s: State, from: Id, msg: Routed, now: int)
    requires Mirrored(s) && from in s.peers && s.peers[from].room != NO_ROOM
    ensures var c := s.peers[from].room;
            Route(s, from, msg, now).0.rooms
            == if msg.room == NO_ROOM || msg.room == c then s.rooms[c := s.rooms[c].(lastActive := now)] else s.rooms
  {}

  lemma LeavingStirs(s: State, id: Id, now: int)
    requires Mirrored(s) && id in s.peers
    ensures var c, s' := s.peers[id].room, Unregister(s, id, now);
            if c == NO_ROOM then s'.rooms == s.rooms
            else if s.rooms[c].members == {id} then s'.rooms == s.rooms - {c}
            else s'.rooms == s.rooms[c := s.rooms[c].(members := s.rooms[c].members - {id}, lastActive := now)]
  {
    var c := s.peers[id].room;
    if c != NO_ROOM {
      assert s.rooms[c].members == {id} <==> s.rooms[c].members - {id} == {};
      LeaveShape(s, s.(peers := s.peers - {id}, ipConns := Dec(s.ipConns, s.peers[id].ip)), id, c, now);
    }
    hide Leave, Dec;
  }

  lemma OnlyMember(w: World, c: Code, id: Id)
    requires Mirrored(w.hub) && In(w, id, c) && c != NO_ROOM
    ensures w.hub.rooms[c].members == {id} <==> forall q :: In(w, q, c) ==> q == id
  {
    assert forall q :: q in w.hub.rooms[c].members <==> In(w, q, c);
  }

  /** What one event does to one room. */
  ghost predicate RoomMoves(w: World, cfg: Config, e: Event, c: Code) {
    var rooms, rooms' := w.hub.rooms, Step(w, cfg, e).hub.rooms;
    && (c in rooms' && Stirs(w, cfg, e, c) ==> rooms'[c].lastActive == e.now)
    && (c in rooms' && !Stirs(w, cfg, e, c) ==> c in rooms && rooms'[c].lastActive == rooms[c].lastActive)
    && (c in rooms && c !in rooms' <==> c in rooms && Ends(w, cfg, e, c, rooms[c].lastActive))
  }

  /** The last member of `c` leaves, or the room is reaped, idle since `since` for longer
      than the limit. */
  ghost predicate Ends(w: World, cfg: Config, e: Event, c: Code, since: int) {
    || (e.Disconnect? && In(w, e.id, c) && forall q :: In(w, q, c) ==> q == e.id)
    || (e.ReapIdle? && e.now - since > cfg.roomTTL)
  }

  lemma JoinMoves(w: World, cfg: Config, e: Event, c: Code)
    requires e.Join? && Enabled(w, e) && c != NO_ROOM
    ensures RoomMoves(w, cfg, e, c)
  {
    JoinStirs(w.hub, cfg, e.id, e.requested, e.asHost, e.tries, e.now);
    hide JoinOrCreate;
  }

  lemma SignalMoves(w: World, cfg: Config, e: Event, c: Code)
    requires e.Signal? && Enabled(w, e) && c != NO_ROOM && Mirrored(w.hub)
    ensures RoomMoves(w, cfg, e, c)
  {
    if w.hub.peers[e.id].room != NO_ROOM { RouteStirs(w.hub, e.id, e.msg, e.now); }
    hide Route;
  }

  lemma DisconnectMoves(w: World, cfg: Config, e: Event, c: Code)
    requires e.Disconnect? && Enabled(w, e) && c != NO_ROOM && Mirrored(w.hub)
    ensures RoomMoves(w, cfg, e, c)
  {
    LeavingStirs(w.hub, e.id, e.now);
    if In(w, e.id, c) { OnlyMember(w, c, e.id); }
    hide Unregister;
  }

  lemma ReapMoves(w: World, cfg: Config, e: Event, c: Code)
    requires e.ReapIdle? && c != NO_ROOM
    ensures RoomMoves(w, cfg, e, c)
  {
    hide EvictAll, DecAll;
  }

  /** No other event touches a room. */
  lemma OthersKeepRooms(w: World, cfg: Config, e: Event)
    requires !(e.Join? || e.Signal? || e.Disconnect? || e.ReapIdle?)
    ensures Step(w, cfg, e).hub.rooms == w.hub.rooms
  {}

  lemma RoomAfter(w: World, cfg: Config, e: Event, c: Code)
    requires Mirrored(w.hub) && c != NO_ROOM
    ensures RoomMoves(w, cfg, e, c)
  {
    if !Enabled(w, e) {
      hide Mirrored;
    } else if e.Join? {
      JoinMoves(w, cfg, e, c);
    } else if e.Signal? {
      SignalMoves(w, cfg, e, c);
    } else if e.Disconnect? {
      DisconnectMoves(w, cfg, e, c);
    } else if e.ReapIdle? {
      ReapMoves(w, cfg, e, c);
    } else {
      OthersKeepRooms(w, cfg, e);
      hide Step, Enabled, Mirrored;
    }
  }

  // --------------------------------------------------------------------- runs

  lemma RunInv(cfg: Config, es: seq<Event>)
    ensures Mirrored(Run(cfg, es).hub) && NO_ROOM !in Run(cfg, es).hub.rooms
  {
    AlwaysInv(cfg, es);
    hide Run, ConnsCounted, RoomsCounted, Inhabited, Capped, Tracked, Keyed;
  }

  /** In every run a room's activity stamp is the time of the last activity in it. */
  lemma {:induction false} StampIsLastStir(cfg: Config, es: seq<Event>, c: Code) returns (i: nat)
    requires c in Run(cfg, es).hub.rooms
    ensures LastStir(cfg, es, c, i) && (es[i].Join? || es[i].Disconnect? || es[i].Signal?)
    ensures Run(cfg, es).hub.rooms[c].lastActive == es[i].now
  {
    assert es != [];
    var es0, e := es[..|es| - 1], es[|es| - 1];
    RunInv(cfg, es);
    RunInv(cfg, es0);
    RoomAfter(Run(cfg, es0), cfg, e, c);
    assert Run(cfg, es) == Step(Run(cfg, es0), cfg, e);
    hide Run, Step, Mirrored, LastStir;
    if Stirs(Run(cfg, es0), cfg, e, c) {
      i := |es0|;
    } else {
      hide Stirs;
      i := StampIsLastStir(cfg, es0, c);
    }
    LastStirSnoc(cfg, es, c, i);
  }

  lemma LastStirIsOne(cfg: Config, es: seq<Event>, c: Code, i: nat, k: nat)
    requires LastStir(cfg, es, c, i) && LastStir(cfg, es, c, k)
    ensures i == k
  {
    hide Run, Stirs;
  }

  /** Whatever happens next, a room goes if and only if its last member leaves, or it is
      reaped more than the limit after the last activity in it. */
  lemma RoomGoesIff(cfg: Config, es: seq<Event>, e: Event, c: Code, i: nat)
    requires c in Run(cfg, es).hub.rooms && LastStir(cfg, es, c, i)
    ensures i < |es| && (es[i].Join? || es[i].Disconnect? || es[i].Signal?)
    ensures c !in Run(cfg, es + [e]).hub.rooms <==> Ends(Run(cfg, es), cfg, e, c, es[i].now)
  {
    assert (es + [e])[..|es|] == es;
    var k := StampIsLastStir(cfg, es, c);
    LastStirIsOne(cfg, es, c, i, k);
    RunInv(cfg, es);
    RoomAfter(Run(cfg, es), cfg, e, c);
    hide Run, Step, LastStir, Mirrored, Stirs, Ends;
  }
}
