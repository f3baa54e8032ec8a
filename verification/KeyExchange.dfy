/** The relay handshake of the clients: a host asks for a relay session and agrees
    on a key with the guest through the server (web/src/go-transport.ts,
    web/src/crypto.ts).  Key agreement is a parameter. */
module KeyExchange {
  import opened Common

  type Id = nat
  type Token = nat
  type Secret = nat
  type Pub = nat
  type Key = nat

  /** Key agreement.  The key is the x-coordinate of a point of a curve, which a point
      shares with the opposite one. */
  datatype Dh = Dh(pub: Secret -> Pub, shared: (Secret, Pub) -> Key, opposite: Pub -> Pub) {
    /** Both sides get the same key. */
    ghost predicate Lawful() {
      forall a: Secret, b: Secret {:trigger shared(a, pub(b))} :: shared(a, pub(b)) == shared(b, pub(a))
    }

    /** The same point, or opposite ones. */
    predicate Alike(p: Pub, q: Pub) {
      p == q || p == opposite(q)
    }

    /** Two public keys give one key exactly when they are alike. */
    ghost predicate Exact() {
      forall a: Secret, b: Secret, c: Secret {:trigger shared(c, pub(a)), shared(c, pub(b))} ::
        shared(c, pub(a)) == shared(c, pub(b)) <==> Alike(pub(a), pub(b))
    }
  }

  datatype Promise<T> = Pending | Resolved(value: T) | Rejected

  /** One `sendFile` over the relay.  `token` is `requestRelayAuthenticated`,
      `idle` while it waits for a login; `asks` counts its relay requests, and
      `source` is the session whose relay-key settled `key`, for the proofs only. */
  datatype Send = Send(
    to: Id, secret: Secret, token: Promise<Token>, idle: bool, asks: nat,
    key: Promise<Key>, source: Option<Token>, keyTimer: bool, askTimers: set<nat>) {
    predicate Settled() {
      token.Rejected? || key.Rejected? || (token.Resolved? && key.Resolved?)
    }
  }

  /** A host's `pendingRelayKeys`, `pendingRelay` and `pendingHostPubKey`; an entry
      names the send, and the request, whose promise it holds. */
  datatype Host = Host(
    sends: seq<Send>, pendingKeys: map<Id, nat>, pendingRelay: map<Id, Entry>, hostPub: Option<Pub>)

  datatype Entry = Entry(send: nat, number: nat)

  const NEW_HOST: Host := Host([], map[], map[], None)

  ghost predicate Valid(h: Host) {
    && (forall g {:trigger h.pendingKeys[g]} :: g in h.pendingKeys ==>
          h.pendingKeys[g] < |h.sends| && h.sends[h.pendingKeys[g]].to == g && h.sends[h.pendingKeys[g]].key.Pending?)
    && (forall g {:trigger h.pendingRelay[g]} :: g in h.pendingRelay ==>
          var a := h.pendingRelay[g];
          a.send < |h.sends| && h.sends[a.send].to == g && h.sends[a.send].token.Pending?
          && !h.sends[a.send].idle && h.sends[a.send].asks == a.number)
  }

  /** No host step forgets a send or whom it is to, or begins two. */
  ghost predicate SameSends(h: Host, r: Host) {
    |h.sends| <= |r.sends| <= |h.sends| + 1 && forall i :: 0 <= i < |h.sends| ==> r.sends[i].to == h.sends[i].to
  }

  // ------------------------------------------------------------ the host's steps

  /** `prepareKeyExchange`. */
  function Prepare(dh: Dh, h: Host, to: Id, secret: Secret): (r: Host)
    requires Valid(h)
    ensures Valid(r) && SameSends(h, r)
  {
    Host(h.sends + [Send(to, secret, Pending, true, 0, Pending, None, true, {})],
         h.pendingKeys[to := |h.sends|], h.pendingRelay, Some(dh.pub(secret)))
  }

  /** `requestRelay` for send `n`; the request takes the public key along. */
  function Request(h: Host, n: nat): (r: (Host, Option<Pub>))
    requires Valid(h) && n < |h.sends| && h.sends[n].token.Pending? && h.sends[n].idle
    ensures Valid(r.0) && SameSends(h, r.0)
  {
    var s := h.sends[n];
    (h.(sends := h.sends[n := s.(idle := false, asks := s.asks + 1, askTimers := s.askTimers + {s.asks + 1})],
        pendingRelay := h.pendingRelay[s.to := Entry(n, s.asks + 1)], hostPub := None),
     h.hostPub)
  }

  /** `ensureAuth` throws. */
  function NoAuth(h: Host, n: nat): (r: Host)
    requires Valid(h) && n < |h.sends| && h.sends[n].token.Pending? && h.sends[n].idle
    ensures Valid(r) && SameSends(h, r)
  {
    h.(sends := h.sends[n := h.sends[n].(idle := false, token := Rejected)])
  }

  function OnApproved(h: Host, token: Token, to: Id): (r: Host)
    requires Valid(h)
    ensures Valid(r) && SameSends(h, r)
  {
    if to !in h.pendingRelay then h
    else
      var n := h.pendingRelay[to].send;
      h.(sends := h.sends[n := h.sends[n].(token := Resolved(token))], pendingRelay := h.pendingRelay - {to})
  }

  /** The send whose entry a relay-key finds. */
  function OnRelayKey(h: Host, from: Id): (n: Option<nat>)
    requires Valid(h)
    ensures n.Some? ==> n.value < |h.sends| && h.sends[n.value].to == from
  {
    if from in h.pendingKeys then Some(h.pendingKeys[from]) else None
  }

  /** Its end, after the awaits: send `n` gets the key, or is rejected when the text
      was no public key, if it is still pending; the peer's entry goes, whichever
      send's it is by now. */
  function Settle(dh: Dh, h: Host, from: Id, n: nat, pub: Option<Pub>, source: Token): (r: Host)
    requires Valid(h) && n < |h.sends| && h.sends[n].to == from
    ensures Valid(r) && SameSends(h, r)
  {
    var s := h.sends[n];
    var s' := if !s.key.Pending? then s
              else if pub.None? then s.(key := Rejected)
              else s.(key := Resolved(dh.shared(s.secret, pub.value)), source := Some(source));
    h.(sends := h.sends[n := s'], pendingKeys := h.pendingKeys - {from})
  }

  /** Rejected with login-required: once it logs in again and retries, then it fails. */
  function Refused(s: Send): Send {
    if s.asks == 1 then s.(idle := true) else s.(token := Rejected)
  }

  function OnLoginRequired(h: Host): (r: Host)
    requires Valid(h)
    ensures Valid(r) && SameSends(h, r)
  {
    h.(sends := seq(|h.sends|, i requires 0 <= i < |h.sends| =>
                      if h.sends[i].to in h.pendingRelay && h.pendingRelay[h.sends[i].to].send == i
                      then Refused(h.sends[i]) else h.sends[i]),
       pendingRelay := map[])
  }

  /** The 15 s timer of send `n` looks the peer up, not the send. */
  function KeyTimer(h: Host, n: nat): (r: Host)
    requires Valid(h) && n < |h.sends|
    ensures Valid(r) && SameSends(h, r)
  {
    var s := h.sends[n];
    if !s.keyTimer then h
    else if s.to !in h.pendingKeys then h.(sends := h.sends[n := s.(keyTimer := false)])
    else
      h.(sends := h.sends[n := s.(keyTimer := false, key := if s.key.Pending? then Rejected else s.key)],
         pendingKeys := h.pendingKeys - {s.to})
  }

  /** The 10 s timer of send `n`'s request number `a`, likewise. */
  function RelayTimer(h: Host, n: nat, a: nat): (r: Host)
    requires Valid(h) && n < |h.sends|
    ensures Valid(r) && SameSends(h, r)
  {
    var s := h.sends[n];
    if a !in s.askTimers then h
    else if s.to !in h.pendingRelay then h.(sends := h.sends[n := s.(askTimers := s.askTimers - {a})])
    else
      h.(sends := h.sends[n := s.(askTimers := s.askTimers - {a},
                                  token := if s.token.Pending? && !s.idle && s.asks == a then Rejected else s.token)],
         pendingRelay := h.pendingRelay - {s.to})
  }

  /** The guest's departure drops the pending key and settles nothing. */
  function OnPeerLeft(h: Host, g: Id): (r: Host)
    requires Valid(h)
    ensures Valid(r) && SameSends(h, r)
  {
    h.(pendingKeys := h.pendingKeys - {g})
  }

  class GoTransport {
    const dh: Dh
    var sends: seq<Send>
    var pendingRelayKeys: map<Id, nat>
    var pendingRelay: map<Id, Entry>
    var pendingHostPubKey: Option<Pub>

    function View(): Host
      reads this
    {
      Host(sends, pendingRelayKeys, pendingRelay, pendingHostPubKey)
    }

    constructor (dh: Dh)
      ensures this.dh == dh && View() == NEW_HOST && Valid(View())
    {
      this.dh := dh;
      sends, pendingRelayKeys, pendingRelay, pendingHostPubKey := [], map[], map[], None;
    }

    method PrepareKeyExchange(to: Id, secret: Secret)
      requires Valid(View())
      modifies this
      ensures View() == Prepare(dh, old(View()), to, secret) && Valid(View())
    {
      pendingRelayKeys := pendingRelayKeys[to := |sends|];
      sends := sends + [Send(to, secret, Pending, true, 0, Pending, None, true, {})];
      pendingHostPubKey := Some(dh.pub(secret));
    }

    /** Called for a send that waits for its login and is not answered. */
    method RequestRelay(n: nat) returns (hostPubKey: Option<Pub>)
      requires Valid(View()) && n < |sends| && sends[n].token.Pending? && sends[n].idle
      modifies this
      ensures (View(), hostPubKey) == Request(old(View()), n) && Valid(View())
    {
      hostPubKey := pendingHostPubKey;
      pendingHostPubKey := None;
      var s := sends[n];
      pendingRelay := pendingRelay[s.to := Entry(n, s.asks + 1)];
      sends := sends[n := s.(idle := false, asks := s.asks + 1, askTimers := s.askTimers + {s.asks + 1})];
    }

    method HandleRelayApproved(token: Token, to: Id)
      requires Valid(View())
      modifies this
      ensures View() == OnApproved(old(View()), token, to) && Valid(View())
    {
      if to in pendingRelay {
        var n := pendingRelay[to].send;
        pendingRelay := pendingRelay - {to};
        sends := sends[n := sends[n].(token := Resolved(token))];
      }
    }

    /** `handleRelayKey` up to its first await: the send it will settle. */
    method HandleRelayKey(from: Id) returns (send: Option<nat>)
      requires Valid(View())
      ensures send == OnRelayKey(View(), from)
    {
      if from !in pendingRelayKeys {
        return None;
      }
      return Some(pendingRelayKeys[from]);
    }

    /** ... and after its awaits. */
    method SettleRelayKey(from: Id, n: nat, guestKey: Option<Pub>, source: Token)
      requires Valid(View()) && n < |sends| && sends[n].to == from
      modifies this
      ensures View() == Settle(dh, old(View()), from, n, guestKey, source) && Valid(View())
    {
      if sends[n].key.Pending? {
        if guestKey.None? {
          sends := sends[n := sends[n].(key := Rejected)];
        } else {
          var sharedKey := dh.shared(sends[n].secret, guestKey.value);
          sends := sends[n := sends[n].(key := Resolved(sharedKey), source := Some(source))];
        }
      }
      pendingRelayKeys := pendingRelayKeys - {from};
    }

    /** `rejectPendingRelays`, with what each rejected request then does. */
    method RejectPendingRelays()
      requires Valid(View())
      modifies this
      ensures View() == OnLoginRequired(old(View())) && Valid(View())
    {
      ghost var h := View();
      var peers := pendingRelay.Keys;
      while peers != {}
        invariant peers <= h.pendingRelay.Keys && |sends| == |h.sends|
        invariant pendingRelay == h.pendingRelay && pendingRelayKeys == h.pendingKeys && pendingHostPubKey == h.hostPub
        invariant forall i :: 0 <= i < |sends| ==>
                    sends[i] == if h.sends[i].to in h.pendingRelay && h.sends[i].to !in peers
                                   && h.pendingRelay[h.sends[i].to].send == i
                                then Refused(h.sends[i]) else h.sends[i]
        decreases peers
      {
        var g :| g in peers;
        var n := pendingRelay[g].send;
        sends := sends[n := Refused(sends[n])];
        peers := peers - {g};
      }
      pendingRelay := map[];
      assert sends == OnLoginRequired(h).sends;
    }

    method OnKeyTimer(n: nat)
      requires Valid(View()) && n < |sends|
      modifies this
      ensures View() == KeyTimer(old(View()), n) && Valid(View())
    {
      var s := sends[n];
      if !s.keyTimer {
        return;
      }
      sends := sends[n := s.(keyTimer := false)];
      if s.to in pendingRelayKeys {
        pendingRelayKeys := pendingRelayKeys - {s.to};
        if s.key.Pending? {
          sends := sends[n := sends[n].(key := Rejected)];
        }
      }
    }

    method OnRelayTimer(n: nat, a: nat)
      requires Valid(View()) && n < |sends|
      modifies this
      ensures View() == RelayTimer(old(View()), n, a) && Valid(View())
    {
      var s := sends[n];
      if a !in s.askTimers {
        return;
      }
      sends := sends[n := s.(askTimers := s.askTimers - {a})];
      if s.to in pendingRelay {
        pendingRelay := pendingRelay - {s.to};
        if s.token.Pending? && !s.idle && s.asks == a {
          sends := sends[n := sends[n].(token := Rejected)];
        }
      }
    }

    method HandlePeerLeft(g: Id)
      requires Valid(View())
      modifies this
      ensures View() == OnPeerLeft(old(View()), g) && Valid(View())
    {
      pendingRelayKeys := pendingRelayKeys - {g};
    }
  }

  // -------------------------------------------------------------- the handshake

  /** A message on its way between the host, the server and a guest; `guestPub` is
      missing when the text is no public key, and `token` says which session it
      answers, for the proofs only.  `Deriving` is a relay-key that the host is
      making its key from, for send `send`. */
  datatype Message =
    | RelayRequest(to: Id, pub: Option<Pub>)
    | LoginRequired
    | HostApproved(to: Id, token: Token)
    | GuestApproved(to: Id, token: Token, pub: Option<Pub>)
    | RelayKey(from: Id, guestPub: Option<Pub>, token: Token)
    | Deriving(from: Id, guestPub: Option<Pub>, token: Token, send: nat)

  /** What a guest holds for a session: its secret, the host key it was given and
      the key it derived. */
  datatype GuestKey = GuestKey(secret: Secret, hostPub: Pub, key: Key)

  /** `flight` holds the messages under way, `issued` the tokens handed out. */
  datatype World = World(
    host: Host, flight: map<nat, Message>, next: nat, issued: set<Token>, guests: map<Token, GuestKey>)

  datatype Verdict = Approve(token: Token) | Deny | Ignore

  /** `Deliver` hands over any message under way, with the server's verdict on a
      request and the guest's fresh secret for an approval; `BadKey` is a roommate
      that sends a relay-key with a text that is no public key. */
  datatype Event =
    | Begin(to: Id, secret: Secret)
    | Ask(n: nat)
    | AuthFails(n: nat)
    | KeyTimeout(n: nat)
    | RelayTimeout(n: nat, a: nat)
    | PeerLeft(g: Id)
    | BadKey(g: Id)
    | Deliver(i: nat, verdict: Verdict, secret: Secret)

  /** One send at a time; only what can happen happens; tokens are fresh. */
  predicate Enabled(w: World, e: Event) {
    match e
    case Begin(to, _) => w.host.sends == [] || w.host.sends[|w.host.sends| - 1].Settled()
    case Ask(n) => n < |w.host.sends| && w.host.sends[n].token.Pending? && w.host.sends[n].idle
    case AuthFails(n) => n < |w.host.sends| && w.host.sends[n].token.Pending? && w.host.sends[n].idle
    case KeyTimeout(n) => n < |w.host.sends|
    case RelayTimeout(n, a) => n < |w.host.sends|
    case PeerLeft(_) => true
    case BadKey(_) => true
    case Deliver(i, verdict, _) => i in w.flight && (verdict.Approve? ==> verdict.token !in w.issued)
  }

  function Put(w: World, m: Message): World {
    w.(flight := w.flight[w.next := m], next := w.next + 1)
  }

  /** A derivation under way is for a send to the peer it answers. */
  predicate Apt(h: Host, m: Message) {
    m.Deriving? ==> m.send < |h.sends| && h.sends[m.send].to == m.from
  }

  ghost predicate Sound(w: World) {
    Valid(w.host) && forall i {:trigger w.flight[i]} :: i in w.flight ==> Apt(w.host, w.flight[i])
  }

  function Taken(dh: Dh, w: World, m: Message, verdict: Verdict, secret: Secret): (w': World)
    requires Sound(w) && Apt(w.host, m)
    ensures Sound(w') && SameSends(w.host, w'.host)
  {
    match m
    case RelayRequest(to, pub) =>
      (match verdict
       case Approve(token) =>
         Put(Put(w.(issued := w.issued + {token}), HostApproved(to, token)), GuestApproved(to, token, pub))
       case Deny => Put(w, LoginRequired)
       case Ignore => w)
    case LoginRequired => w.(host := OnLoginRequired(w.host))
    case HostApproved(to, token) => w.(host := OnApproved(w.host, token, to))
    case GuestApproved(to, token, pub) =>
      if pub.None? then w
      else
        Put(w.(guests := w.guests[token := GuestKey(secret, pub.value, dh.shared(secret, pub.value))]),
            RelayKey(to, Some(dh.pub(secret)), token))
    case RelayKey(from, guestPub, token) =>
      (match OnRelayKey(w.host, from)
       case None => w
       case Some(n) => Put(w, Deriving(from, guestPub, token, n)))
    case Deriving(from, guestPub, token, n) => w.(host := Settle(dh, w.host, from, n, guestPub, token))
  }

  function Step(dh: Dh, w: World, e: Event): (w': World)
    requires Sound(w)
    ensures Sound(w') && SameSends(w.host, w'.host)
  {
    if !Enabled(w, e) then w
    else
      match e
      case Begin(to, secret) => w.(host := Prepare(dh, w.host, to, secret))
      case Ask(n) =>
        var (h, pub) := Request(w.host, n);
        Put(w.(host := h), RelayRequest(w.host.sends[n].to, pub))
      case AuthFails(n) => w.(host := NoAuth(w.host, n))
      case KeyTimeout(n) => w.(host := KeyTimer(w.host, n))
      case RelayTimeout(n, a) => w.(host := RelayTimer(w.host, n, a))
      case PeerLeft(g) => w.(host := OnPeerLeft(w.host, g))
      case BadKey(g) => Put(w, RelayKey(g, None, 0))
      case Deliver(i, verdict, secret) =>
        Taken(dh, w.(flight := w.flight - {i}), w.flight[i], verdict, secret)
  }

  const NEW_WORLD: World := World(NEW_HOST, map[], 0, {}, map[])

  // ---------------------------------------------------- what holds of every run

  /** A relay-key, until its key is made, answers a session whose guest has its key,
      unless it is no key. */
  predicate Answers(m: Message, sessions: set<Token>) {
    (m.RelayKey? || m.Deriving?) && m.guestPub.Some? ==> m.token in sessions
  }

  /** Message numbers are fresh. */
  ghost predicate Numbered(w: World) {
    forall i {:trigger w.flight[i]} :: i in w.flight ==> i < w.next
  }

  /** A session's guest is told of it once, before it has a key. */
  ghost predicate ToldOnce(w: World) {
    && (forall i {:trigger w.flight[i]} :: i in w.flight && w.flight[i].GuestApproved? ==>
          w.flight[i].token in w.issued && w.flight[i].token !in w.guests)
    && (forall i, k {:trigger w.flight[i], w.flight[k]} ::
          (i in w.flight && k in w.flight && w.flight[i].GuestApproved? && w.flight[k].GuestApproved?
           && w.flight[i].token == w.flight[k].token) ==> i == k)
    && (forall t {:trigger t in w.guests} :: t in w.guests ==> t in w.issued)
  }

  ghost predicate AllAnswer(w: World) {
    forall i {:trigger w.flight[i]} :: i in w.flight ==> Answers(w.flight[i], w.guests.Keys)
  }

  ghost predicate Tidy(w: World) {
    Sound(w) && Numbered(w) && ToldOnce(w) && AllAnswer(w)
  }

  lemma StepKeepsNumbers(dh: Dh, w: World, e: Event)
    requires Sound(w) && Numbered(w)
    ensures Numbered(Step(dh, w, e))
  {
    hide Valid, Apt, Prepare, OnPeerLeft, OnApproved, Settle, KeyTimer, RelayTimer, NoAuth, OnLoginRequired;
  }

  lemma StepKeepsToldOnce(dh: Dh, w: World, e: Event)
    requires Sound(w) && Numbered(w) && ToldOnce(w)
    ensures ToldOnce(Step(dh, w, e))
  {
    hide Sound, SameSends, Valid, Apt, Prepare, OnPeerLeft, OnApproved, OnRelayKey, Settle, KeyTimer, RelayTimer, NoAuth, OnLoginRequired, Request;
    if !e.Deliver? {
      hide Taken;
    }
  }

  lemma StepKeepsAnswers(dh: Dh, w: World, e: Event)
    requires Sound(w) && AllAnswer(w)
    ensures AllAnswer(Step(dh, w, e))
  {
    hide Valid, Apt, Prepare, OnPeerLeft, OnApproved, Settle, KeyTimer, RelayTimer, NoAuth, OnLoginRequired;
  }

  lemma StepKeepsTidy(dh: Dh, w: World, e: Event)
    requires Tidy(w)
    ensures Tidy(Step(dh, w, e))
  {
    hide Step, Sound, Numbered, ToldOnce, AllAnswer;
    StepKeepsNumbers(dh, w, e);
    StepKeepsToldOnce(dh, w, e);
    StepKeepsAnswers(dh, w, e);
  }
}
