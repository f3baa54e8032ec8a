/** The browser's view of its room, rebuilt from the server's messages in the
    order they arrive (web/src/signaling.ts, web/src/go-transport.ts, web/src/peer.ts). */
module Client {
  import opened Common
  import opened HubState

  /** `roster`: peers announced and not withdrawn; `offers`: the calls made to
      `initiateConnection`, by peer. */
  datatype View = View(self: Option<Id>, roster: set<Id>, offers: multiset<Id>)

  /** The peers a client offers to: those with larger ids. */
  function Above(self: Id, peers: set<Id>): set<Id> {
    set p | p in peers && self < p
  }

  lemma AboveOneMore(self: Id, peers: set<Id>, id: Id)
    requires id !in peers
    ensures multiset(Above(self, peers + {id}))
            == multiset(Above(self, peers)) + if self < id then multiset{id} else multiset{}
  {
    assert Above(self, peers + {id}) == Above(self, peers) + if self < id then {id} else {};
  }

  const NEW_VIEW: View := View(None, {}, multiset{})

  function Handle(c: View, m: Message): View {
    match m
    case Joined(_, self, _, peers) =>
      View(Some(self), c.roster + peers, c.offers + multiset(Above(self, peers)))
    case PeerJoined(id) =>
      c.(roster := c.roster + {id},
         offers := if c.self.Some? && c.self.value < id then c.offers + multiset{id} else c.offers)
    case PeerLeft(id) => c.(roster := c.roster - {id})
    case _ => c
  }

  /** The view once every message of `queue` has been handled, in order. */
  function Drain(c: View, queue: seq<Message>): View
    decreases |queue|
  {
    if queue == [] then c else Drain(Handle(c, queue[0]), queue[1..])
  }

  lemma {:induction false} DrainSnoc(c: View, queue: seq<Message>, m: Message)
    ensures Drain(c, queue + [m]) == Handle(Drain(c, queue), m)
    decreases |queue|
  {
    if queue == [] {
      assert Drain(Handle(c, m), []) == Handle(c, m);
    } else {
      assert (queue + [m])[1..] == queue[1..] + [m];
      DrainSnoc(Handle(c, queue[0]), queue[1..], m);
    }
  }

  class GoClient {
    var selfId: Option<Id>
    var roster: set<Id>
    var offers: multiset<Id>

    constructor ()
      ensures Now() == NEW_VIEW
    {
      selfId, roster, offers := None, {}, multiset{};
    }

    ghost function Now(): View
      reads this
    {
      View(selfId, roster, offers)
    }

    /** The tie-break: only the side with the smaller id initiates. */
    method HandlePeerJoined(id: Id)
      modifies this`offers
      ensures offers == if selfId.Some? && selfId.value < id then old(offers) + multiset{id} else old(offers)
    {
      if selfId.Some? && selfId.value < id {
        offers := offers + multiset{id};
      }
    }

    method HandleJoined(self: Id, peers: set<Id>)
      modifies this
      ensures selfId == Some(self) && roster == old(roster) + peers
      ensures offers == old(offers) + multiset(Above(self, peers))
    {
      selfId := Some(self);
      var rest := peers;
      assert Above(self, peers - rest) == {};
      hide Above;
      while rest != {}
        invariant rest <= peers && selfId == Some(self)
        invariant roster == old(roster) + (peers - rest)
        invariant offers == old(offers) + multiset(Above(self, peers - rest))
        decreases rest
      {
        var id :| id in rest;
        if self < id {
          HandlePeerJoined(id);
        }
        AboveOneMore(self, peers - rest, id);
        assert peers - (rest - {id}) == peers - rest + {id};
        roster := roster + {id};
        rest := rest - {id};
      }
      assert peers - rest == peers;
    }

    method HandleMessage(m: Message)
      modifies this
      ensures Now() == Handle(old(Now()), m)
    {
      match m
      case Joined(_, self, _, peers) =>
        HandleJoined(self, peers);
      case PeerJoined(id) =>
        HandlePeerJoined(id);
        roster := roster + {id};
      case PeerLeft(id) =>
        roster := roster - {id};
      case _ =>
    }
  }
}
