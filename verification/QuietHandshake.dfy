/** A relay send that starts with nothing left over from earlier ones
    (web/src/go-transport.ts). */
module QuietHandshake {
  import opened Common
  import opened KeyExchange
  import opened KeyAgreement

  /** Speaks of guest `g`; a relay-key that is no key says nothing. */
  predicate About(m: Message, g: Id) {
    match m
    case RelayRequest(to, _) => to == g
    case LoginRequired => false
    case HostApproved(to, _) => to == g
    case GuestApproved(to, _, _) => to == g
    case RelayKey(from, pub, _) => from == g && pub.Some?
    case Deriving(from, pub, _, _) => from == g && pub.Some?
  }

  /** Nothing is left over: no request or refusal under way, no message about this
      guest, no earlier send waiting for a login or an answer. */
  ghost predicate Quiet(w: World, to: Id) {
    && (forall i {:trigger w.flight[i]} :: i in w.flight ==>
          !w.flight[i].RelayRequest? && !w.flight[i].LoginRequired? && !About(w.flight[i], to))
    && w.host.pendingRelay == map[]
    && (forall i :: 0 <= i < |w.host.sends| && w.host.sends[i].token.Pending? ==> !w.host.sends[i].idle)
  }

  /** Send `n` is the last, and the only one that may still ask. */
  ghost predicate Alone(h: Host, n: nat) {
    && n == |h.sends| - 1
    && (forall i :: 0 <= i < n && h.sends[i].token.Pending? ==> !h.sends[i].idle)
    && (forall g {:trigger h.pendingRelay[g]} :: g in h.pendingRelay ==> g == h.sends[n].to && h.pendingRelay[g].send == n)
  }

  /** Not asked yet. */
  ghost predicate Waiting(dh: Dh, w: World, n: nat)
    requires n < |w.host.sends|
  {
    var s := w.host.sends[n];
    && s.asks == 0 && !s.key.Resolved? && !s.token.Resolved? && w.host.hostPub == Some(dh.pub(s.secret))
    && w.host.pendingRelay == map[]
    && (forall i {:trigger w.flight[i]} :: i in w.flight ==>
          !w.flight[i].RelayRequest? && !w.flight[i].LoginRequired? && !About(w.flight[i], s.to))
  }

  /** The request is under way with the public key, as message `r`. */
  ghost predicate Asking(dh: Dh, w: World, n: nat, r: nat)
    requires n < |w.host.sends|
  {
    var s := w.host.sends[n];
    && s.asks == 1 && !s.idle && !s.key.Resolved? && !s.token.Resolved? && w.host.hostPub == None
    && r in w.flight && w.flight[r] == RelayRequest(s.to, Some(dh.pub(s.secret)))
    && (forall i {:trigger w.flight[i]} :: i in w.flight && i != r ==>
          !w.flight[i].RelayRequest? && !w.flight[i].LoginRequired? && !About(w.flight[i], s.to))
  }

  /** Session `t` was approved, and everything about the guest is about it. */
  ghost predicate Approved(dh: Dh, w: World, n: nat, t: Token)
    requires n < |w.host.sends|
  {
    var s := w.host.sends[n];
    && s.asks == 1 && !s.idle && w.host.hostPub == None && t in w.issued
    && (s.token.Resolved? ==> s.token.value == t)
    && (s.key.Resolved? ==> s.source == Some(t) && t in w.guests && s.key.value == w.guests[t].key)
    && (t in w.guests ==> w.guests[t].key == dh.shared(w.guests[t].secret, dh.pub(s.secret)))
    && (forall i {:trigger w.flight[i]} :: i in w.flight ==> OfSession(dh, w.flight[i], s, t, w.guests))
  }

  /** The message is of no other session of this send's guest, and asks for none. */
  ghost predicate OfSession(dh: Dh, m: Message, s: Send, t: Token, guests: map<Token, GuestKey>) {
    && !m.RelayRequest? && !m.LoginRequired?
    && (m.HostApproved? && m.to == s.to ==> m.token == t)
    && (m.GuestApproved? && (m.to == s.to || m.token == t) ==> m == GuestApproved(s.to, t, Some(dh.pub(s.secret))))
    && ((m.RelayKey? || m.Deriving?) && About(m, s.to) ==>
          m.token == t && t in guests && m.guestPub == Some(dh.pub(guests[t].secret)))
  }

  /** No key of this send's is or will be under way: it was refused or ignored. */
  ghost predicate Keyless(w: World, n: nat)
    requires n < |w.host.sends|
  {
    var s := w.host.sends[n];
    && !s.key.Resolved? && w.host.hostPub == None
    && (forall i {:trigger w.flight[i]} :: i in w.flight ==>
          var m := w.flight[i];
          && (m.RelayRequest? ==> m.pub == None)
          && (m.GuestApproved? && m.to == s.to ==> m.pub == None)
          && (m.RelayKey? || m.Deriving? ==> !About(m, s.to)))
  }

  ghost predicate Inv(dh: Dh, w: World, n: nat) {
    && Alone(w.host, n)
    && (Waiting(dh, w, n) || (exists r: nat :: Asking(dh, w, n, r)) || (exists t: Token :: Approved(dh, w, n, t))
        || Keyless(w, n))
  }

  // --------------------------------------------- what each host step can change

  /** Send `n` stays the last and alone; it asks nothing and publishes nothing. */
  ghost predicate Calm(h: Host, r: Host, n: nat) {
    && Alone(h, n) && Alone(r, n) && r.hostPub == h.hostPub
    && r.pendingRelay.Keys <= h.pendingRelay.Keys
    && var s, s' := h.sends[n], r.sends[n];
       s'.to == s.to && s'.secret == s.secret && s'.asks == s.asks
  }

  ghost predicate KeepsIdle(s: Send, s': Send) { s'.idle ==> s.idle }
  ghost predicate KeepsToken(s: Send, s': Send) { s'.token.Resolved? ==> s'.token == s.token }
  ghost predicate KeepsKey(s: Send, s': Send) { s'.key.Resolved? ==> s'.key == s.key && s'.source == s.source }

  ghost predicate Still(h: Host, r: Host, n: nat) {
    && Calm(h, r, n)
    && KeepsIdle(h.sends[n], r.sends[n]) && KeepsToken(h.sends[n], r.sends[n]) && KeepsKey(h.sends[n], r.sends[n])
  }

  lemma KeyTimerIsStill(h: Host, n: nat, m: nat)
    requires Valid(h) && Alone(h, n) && m < |h.sends|
    ensures Still(h, KeyTimer(h, m), n)
  {
    hide Valid;
  }

  lemma RelayTimerIsStill(h: Host, n: nat, m: nat, a: nat)
    requires Valid(h) && Alone(h, n) && m < |h.sends|
    ensures Still(h, RelayTimer(h, m, a), n)
  {
    hide Valid;
  }

  lemma OthersAreStill(h: Host, n: nat, m: nat, g: Id)
    requires Valid(h) && Alone(h, n)
    ensures Still(h, h, n) && Still(h, OnPeerLeft(h, g), n)
    ensures m < |h.sends| && h.sends[m].token.Pending? && h.sends[m].idle ==> m == n && Still(h, NoAuth(h, m), n)
  {}

  lemma ApprovalIsCalm(h: Host, n: nat, token: Token, to: Id)
    requires Valid(h) && Alone(h, n)
    ensures var r := OnApproved(h, token, to);
            && Calm(h, r, n) && KeepsIdle(h.sends[n], r.sends[n]) && KeepsKey(h.sends[n], r.sends[n])
            && (KeepsToken(h.sends[n], r.sends[n]) || (to == h.sends[n].to && r.sends[n].token == Resolved(token)))
  {}

  lemma SettlingIsCalm(dh: Dh, h: Host, n: nat, from: Id, k: nat, pub: Option<Pub>, source: Token)
    requires Valid(h) && Alone(h, n) && k < |h.sends| && h.sends[k].to == from
    ensures var r := Settle(dh, h, from, k, pub, source);
            && Calm(h, r, n) && KeepsIdle(h.sends[n], r.sends[n]) && KeepsToken(h.sends[n], r.sends[n])
            && (KeepsKey(h.sends[n], r.sends[n])
                || (from == h.sends[n].to && pub.Some? && r.sends[n].source == Some(source)
                    && r.sends[n].key == Resolved(dh.shared(h.sends[n].secret, pub.value))))
  {}

  lemma RefusalIsCalm(h: Host, n: nat)
    requires Valid(h) && Alone(h, n)
    ensures var r := OnLoginRequired(h);
            Calm(h, r, n) && KeepsToken(h.sends[n], r.sends[n]) && KeepsKey(h.sends[n], r.sends[n])
  {}

  /** Only send `n` can ask. */
  lemma AskIsItsOwn(h: Host, n: nat, m: nat)
    requires Valid(h) && Alone(h, n) && m < |h.sends| && h.sends[m].token.Pending? && h.sends[m].idle
    ensures m == n
    ensures var (r, pub) := Request(h, m);
            && Alone(r, n) && r.hostPub == None && pub == h.hostPub
            && var s, s' := h.sends[n], r.sends[n];
               s'.to == s.to && s'.secret == s.secret && s'.asks == s.asks + 1 && !s'.idle
               && KeepsToken(s, s') && KeepsKey(s, s')
  {}

  /** A step that hands over no message and asks nothing. */
  lemma QuietStepIsStill(dh: Dh, w: World, e: Event, n: nat)
    requires Sound(w) && Alone(w.host, n) && !e.Ask?
    requires e.Deliver? ==> e.i !in w.flight || w.flight[e.i].RelayRequest? || w.flight[e.i].GuestApproved? || w.flight[e.i].RelayKey?
    requires |Step(dh, w, e).host.sends| == |w.host.sends|
    ensures Still(w.host, Step(dh, w, e).host, n)
  {
    hide Valid, Alone, Still, KeyTimer, RelayTimer, NoAuth, OnPeerLeft;
    OthersAreStill(w.host, n, 0, 0);
    match e {
      case KeyTimeout(m) => if m < |w.host.sends| { KeyTimerIsStill(w.host, n, m); }
      case RelayTimeout(m, a) => if m < |w.host.sends| { RelayTimerIsStill(w.host, n, m, a); }
      case AuthFails(m) => OthersAreStill(w.host, n, m, 0);
      case PeerLeft(g) => OthersAreStill(w.host, n, 0, g);
      case _ =>
    }
  }

  // ---------------------------------------------------------------- the phases

  lemma BeginIsWaiting(dh: Dh, w: World, to: Id, secret: Secret)
    requires Sound(w) && Quiet(w, to) && Enabled(w, Begin(to, secret))
    ensures Inv(dh, Step(dh, w, Begin(to, secret)), |w.host.sends|)
  {
    assert Waiting(dh, Step(dh, w, Begin(to, secret)), |w.host.sends|);
  }

  /** The message event `e` hands over. */
  predicate Hands(w: World, e: Event, m: Message) {
    e.Deliver? && Enabled(w, e) && w.flight[e.i] == m
  }

  /** What a step can do to the last send. */
  ghost predicate HostMoves(dh: Dh, w: World, r: Host, e: Event, n: nat)
    requires n < |w.host.sends| && n < |r.sends|
  {
    var s, s' := w.host.sends[n], r.sends[n];
    && Alone(r, n) && s'.to == s.to && s'.secret == s.secret
    && (if e == Ask(n) && Enabled(w, e) then s'.asks == s.asks + 1 && !s'.idle && r.hostPub == None
        else s'.asks == s.asks && r.hostPub == w.host.hostPub && r.pendingRelay.Keys <= w.host.pendingRelay.Keys)
    && (KeepsIdle(s, s') || Hands(w, e, LoginRequired))
    && (KeepsToken(s, s') || (s'.token.Resolved? && Hands(w, e, HostApproved(s.to, s'.token.value))))
    && (KeepsKey(s, s')
        || (s'.source.Some? && exists p: Pub, k: nat :: Hands(w, e, Deriving(s.to, Some(p), s'.source.value, k))
                                                        && s'.key == Resolved(dh.shared(s.secret, p))))
  }

  lemma HostDelivered(dh: Dh, w: World, e: Event, n: nat)
    requires Sound(w) && Alone(w.host, n) && e.Deliver? && Enabled(w, e)
    requires w.flight[e.i].HostApproved? || w.flight[e.i].Deriving? || w.flight[e.i].LoginRequired?
    ensures HostMoves(dh, w, Step(dh, w, e).host, e, n)
  {
    var m := w.flight[e.i];
    assert n < |w.host.sends| && Valid(w.host) && Apt(w.host, m);
    hide Sound, SameSends, Valid, Alone, KeyTimer, RelayTimer, NoAuth, OnPeerLeft, OnApproved, OnRelayKey, Settle, OnLoginRequired, Request, Prepare;
    match m {
      case HostApproved(to, token) => ApprovalIsCalm(w.host, n, token, to);
      case Deriving(from, pub, token, k) => SettlingIsCalm(dh, w.host, n, from, k, pub, token);
      case LoginRequired => RefusalIsCalm(w.host, n);
      case _ =>
    }
  }

  lemma HostMoved(dh: Dh, w: World, e: Event, n: nat)
    requires Sound(w) && Alone(w.host, n) && |Step(dh, w, e).host.sends| == |w.host.sends|
    ensures HostMoves(dh, w, Step(dh, w, e).host, e, n)
  {
    assert n < |w.host.sends| && Valid(w.host);
    hide Sound, SameSends, Valid, Alone, KeyTimer, RelayTimer, NoAuth, OnPeerLeft, OnApproved, OnRelayKey, Settle, OnLoginRequired, Request, Prepare;
    if e.Ask? {
      if Enabled(w, e) {
        AskIsItsOwn(w.host, n, e.n);
      }
    } else if e.Deliver? && Enabled(w, e)
              && (w.flight[e.i].HostApproved? || w.flight[e.i].Deriving? || w.flight[e.i].LoginRequired?) {
      hide Step, HostMoves;
      HostDelivered(dh, w, e, n);
    } else if Enabled(w, e) {
      hide Step, Taken;
      QuietStepIsStill(dh, w, e, n);
    } else {
      OthersAreStill(w.host, n, 0, 0);
    }
  }

  /** What a step can put under way. */
  ghost predicate Puts(dh: Dh, w: World, e: Event, m: Message) {
    match m
    case RelayRequest(to, pub) => e.Ask? && Enabled(w, e) && to == w.host.sends[e.n].to && pub == w.host.hostPub
    case LoginRequired => exists to: Id, pub: Option<Pub> :: Hands(w, e, RelayRequest(to, pub)) && e.verdict == Deny
    case HostApproved(to, t) => e.Deliver? && e.verdict == Approve(t) && exists pub: Option<Pub> :: Hands(w, e, RelayRequest(to, pub))
    case GuestApproved(to, t, pub) => Hands(w, e, RelayRequest(to, pub)) && e.verdict == Approve(t)
    case RelayKey(from, pub, t) =>
      (e == BadKey(from) && pub == None)
      || (exists p: Pub :: Hands(w, e, GuestApproved(from, t, Some(p))) && pub == Some(dh.pub(e.secret)))
    case Deriving(from, pub, t, _) => Hands(w, e, RelayKey(from, pub, t))
  }

  /** Whatever is under way was before, or is put there. */
  ghost predicate FlightMoves(dh: Dh, w: World, w': World, e: Event) {
    forall i {:trigger w'.flight[i]} :: i in w'.flight ==>
      || (i in w.flight && w'.flight[i] == w.flight[i] && !(e.Deliver? && Enabled(w, e) && e.i == i))
      || Puts(dh, w, e, w'.flight[i])
  }

  /** Only what is handed over is gone. */
  ghost predicate FlightStays(w: World, w': World, e: Event) {
    forall i {:trigger w.flight[i]} :: i in w.flight && !(e.Deliver? && Enabled(w, e) && e.i == i) ==>
      i in w'.flight && w'.flight[i] == w.flight[i]
  }

  /** A guest makes its key when it is told of a session with a host key. */
  function GuestsAfter(dh: Dh, w: World, e: Event): map<Token, GuestKey> {
    if e.Deliver? && Enabled(w, e) && w.flight[e.i].GuestApproved? && w.flight[e.i].pub.Some? then
      var m := w.flight[e.i];
      w.guests[m.token := GuestKey(e.secret, m.pub.value, dh.shared(e.secret, m.pub.value))]
    else w.guests
  }

  lemma DeliveryMoved(dh: Dh, w: World, e: Event)
    requires Tidy(w) && e.Deliver? && Enabled(w, e)
    ensures FlightMoves(dh, w, Step(dh, w, e), e)
  {
    hide Sound, Tidy, Numbered, KeyTimer, RelayTimer, NoAuth, OnPeerLeft, OnApproved, Settle, OnLoginRequired, Prepare, Valid;
    var m := w.flight[e.i];
    assert Hands(w, e, m);
    if m.GuestApproved? && m.pub.Some? {
      assert Puts(dh, w, e, RelayKey(m.to, Some(dh.pub(e.secret)), m.token)) by {
        assert Hands(w, e, GuestApproved(m.to, m.token, Some(m.pub.value)));
      }
    } else if m.RelayRequest? {
      assert Hands(w, e, RelayRequest(m.to, m.pub));
    } else if m.RelayKey? {
      assert Hands(w, e, RelayKey(m.from, m.guestPub, m.token));
    }
  }

  lemma FlightMoved(dh: Dh, w: World, e: Event)
    requires Tidy(w)
    ensures FlightMoves(dh, w, Step(dh, w, e), e)
  {
    if e.Deliver? && Enabled(w, e) {
      DeliveryMoved(dh, w, e);
    } else {
      hide Sound, Tidy, Numbered, KeyTimer, RelayTimer, NoAuth, OnPeerLeft, OnApproved, Settle, OnLoginRequired, Prepare, Valid;
    }
  }

  lemma TakenLeaves(dh: Dh, w: World, m: Message, verdict: Verdict, secret: Secret, i: nat)
    requires Sound(w) && Apt(w.host, m) && i in w.flight && i < w.next
    ensures i in Taken(dh, w, m, verdict, secret).flight && Taken(dh, w, m, verdict, secret).flight[i] == w.flight[i]
  {
    hide Sound, SameSends, OnApproved, OnRelayKey, Settle, OnLoginRequired, Valid;
  }

  lemma DeliveryLeavesTheRest(dh: Dh, w: World, e: Event)
    requires Tidy(w) && e.Deliver? && Enabled(w, e)
    ensures FlightStays(w, Step(dh, w, e), e)
  {
    assert Numbered(w) && Apt(w.host, w.flight[e.i]);
    var rest := w.(flight := w.flight - {e.i});
    assert Sound(rest);
    assert Step(dh, w, e) == Taken(dh, rest, w.flight[e.i], e.verdict, e.secret);
    hide Step, Taken, Sound, SameSends, Tidy, Apt;
    forall i | i in w.flight && i != e.i
      ensures i in Step(dh, w, e).flight && Step(dh, w, e).flight[i] == w.flight[i]
    {
      assert i in rest.flight && rest.flight[i] == w.flight[i];
      TakenLeaves(dh, rest, w.flight[e.i], e.verdict, e.secret, i);
    }
  }

  lemma RestStays(dh: Dh, w: World, e: Event)
    requires Tidy(w)
    ensures FlightStays(w, Step(dh, w, e), e)
  {
    if e.Deliver? && Enabled(w, e) {
      DeliveryLeavesTheRest(dh, w, e);
    } else {
      assert Numbered(w);
      hide Sound, SameSends, Tidy, KeyTimer, RelayTimer, NoAuth, OnPeerLeft, Prepare, Request, Taken, Valid;
    }
  }

  lemma GuestsMoved(dh: Dh, w: World, e: Event)
    requires Tidy(w)
    ensures Step(dh, w, e).guests == GuestsAfter(dh, w, e) && w.issued <= Step(dh, w, e).issued
  {
    hide Sound, Tidy, Numbered, KeyTimer, RelayTimer, NoAuth, OnPeerLeft, OnApproved, Settle, OnLoginRequired, Prepare, Valid;
  }

  lemma MovesStayAlone(dh: Dh, w: World, r: Host, e: Event, n: nat)
    requires n < |w.host.sends| && n < |r.sends| && HostMoves(dh, w, r, e, n)
    ensures Alone(r, n)
  {}

  ghost predicate Moves(dh: Dh, w: World, w': World, e: Event, n: nat)
    requires n < |w.host.sends| && n < |w'.host.sends|
  {
    && Alone(w.host, n) && HostMoves(dh, w, w'.host, e, n) && FlightMoves(dh, w, w', e) && FlightStays(w, w', e)
    && w'.guests == GuestsAfter(dh, w, e) && w.issued <= w'.issued
  }

  lemma WaitingSteps(dh: Dh, w: World, w': World, e: Event, n: nat)
    requires n < |w.host.sends| && n < |w'.host.sends| && Moves(dh, w, w', e, n)
    requires Waiting(dh, w, n) && !(e.Ask? && Enabled(w, e))
    ensures Waiting(dh, w', n)
  {
    assert w'.host.pendingRelay.Keys == {};
  }

  lemma AskingSteps(dh: Dh, w: World, w': World, e: Event, n: nat, r: nat)
    requires n < |w.host.sends| && n < |w'.host.sends| && Moves(dh, w, w', e, n)
    requires Asking(dh, w, n, r) && (e.Deliver? && Enabled(w, e) ==> e.i != r)
    ensures Asking(dh, w', n, r)
  {}

  /** Another session's key, or this one's for the first time. */
  lemma GuestsOfSession(dh: Dh, w: World, e: Event, n: nat, t: Token)
    requires n < |w.host.sends| && Approved(dh, w, n, t) && ToldOnce(w)
    ensures t in w.guests ==> t in GuestsAfter(dh, w, e) && GuestsAfter(dh, w, e)[t] == w.guests[t]
    ensures t in GuestsAfter(dh, w, e) ==>
              GuestsAfter(dh, w, e)[t].key
              == dh.shared(GuestsAfter(dh, w, e)[t].secret, dh.pub(w.host.sends[n].secret))
  {}

  lemma PutsOfSession(dh: Dh, w: World, e: Event, n: nat, t: Token, m: Message)
    requires n < |w.host.sends| && Alone(w.host, n) && Approved(dh, w, n, t) && ToldOnce(w) && Puts(dh, w, e, m)
    ensures OfSession(dh, m, w.host.sends[n], t, GuestsAfter(dh, w, e))
  {
    GuestsOfSession(dh, w, e, n, t);
  }

  lemma ApprovedSteps(dh: Dh, w: World, w': World, e: Event, n: nat, t: Token)
    requires n < |w.host.sends| && n < |w'.host.sends| && Moves(dh, w, w', e, n)
    requires Approved(dh, w, n, t) && ToldOnce(w) && dh.Lawful()
    ensures Approved(dh, w', n, t)
  {
    GuestsOfSession(dh, w, e, n, t);
    forall i | i in w'.flight ensures OfSession(dh, w'.flight[i], w'.host.sends[n], t, w'.guests) {
      if Puts(dh, w, e, w'.flight[i]) {
        PutsOfSession(dh, w, e, n, t, w'.flight[i]);
      } else {
        assert OfSession(dh, w.flight[i], w.host.sends[n], t, w.guests);
      }
      hide Puts, FlightStays, Alone, GuestsAfter;
    }
    hide FlightMoves, FlightStays, GuestsAfter;
  }

  lemma KeylessSteps(dh: Dh, w: World, w': World, e: Event, n: nat)
    requires n < |w.host.sends| && n < |w'.host.sends| && Moves(dh, w, w', e, n)
    requires Keyless(w, n)
    ensures Keyless(w', n)
  {}

  lemma WaitingAsks(dh: Dh, w: World, n: nat)
    requires Tidy(w) && Alone(w.host, n) && Waiting(dh, w, n) && Enabled(w, Ask(n))
    ensures Asking(dh, Step(dh, w, Ask(n)), n, w.next)
  {
    assert Numbered(w);
    hide Sound, Tidy, ToldOnce, AllAnswer;
    AskIsItsOwn(w.host, n, n);
  }

  lemma RequestServed(dh: Dh, w: World, e: Event, n: nat)
    requires Tidy(w) && Alone(w.host, n) && e.Deliver? && Asking(dh, w, n, e.i) && Enabled(w, e)
    ensures if e.verdict.Approve? then Approved(dh, Step(dh, w, e), n, e.verdict.token) else Keyless(Step(dh, w, e), n)
  {
    assert ToldOnce(w) && Step(dh, w, e).host == w.host;
    hide Sound, Tidy, Numbered, AllAnswer;
  }

  lemma StepKeepsInv(dh: Dh, w: World, e: Event, n: nat)
    requires Tidy(w) && Inv(dh, w, n) && dh.Lawful()
    requires |Step(dh, w, e).host.sends| == |w.host.sends|
    ensures Inv(dh, Step(dh, w, e), n)
  {
    assert n < |w.host.sends|;
    HostMoved(dh, w, e, n);
    FlightMoved(dh, w, e);
    RestStays(dh, w, e);
    GuestsMoved(dh, w, e);
    hide Sound, Numbered, ToldOnce, AllAnswer, HostMoves, FlightMoves, FlightStays, GuestsAfter;
    hide Alone, Waiting, Asking, Approved, Keyless, Step, Dh.Lawful;
    assert Alone(Step(dh, w, e).host, n) by { MovesStayAlone(dh, w, Step(dh, w, e).host, e, n); }
    if Waiting(dh, w, n) {
      if e.Ask? && Enabled(w, e) {
        AskIsItsOwn(w.host, n, e.n);
        WaitingAsks(dh, w, n);
      } else {
        WaitingSteps(dh, w, Step(dh, w, e), e, n);
      }
    } else if Keyless(w, n) {
      KeylessSteps(dh, w, Step(dh, w, e), e, n);
    } else if r: nat :| Asking(dh, w, n, r) {
      if e.Deliver? && e.i == r && Enabled(w, e) {
        RequestServed(dh, w, e, n);
      } else {
        AskingSteps(dh, w, Step(dh, w, e), e, n, r);
      }
    } else {
      var t: Token :| Approved(dh, w, n, t);
      ApprovedSteps(dh, w, Step(dh, w, e), e, n, t);
    }
  }

  lemma SendsOnlyGrow(dh: Dh, w: World, e: Event)
    requires Sound(w)
    ensures |w.host.sends| <= |Step(dh, w, e).host.sends| <= |w.host.sends| + 1
  {
    hide Sound, Step;
  }

  /** `es[b]` begins a send when nothing is left over, and none has begun since. */
  ghost predicate QuietSince(dh: Dh, es: seq<Event>, b: nat) {
    && b < |es| && es[b].Begin? && Enabled(Run(dh, es[..b]), es[b]) && Quiet(Run(dh, es[..b]), es[b].to)
    && |Run(dh, es).host.sends| == |Run(dh, es[..b]).host.sends| + 1
  }

  lemma {:induction false} SendsSince(dh: Dh, es: seq<Event>, b: nat)
    requires b <= |es|
    ensures |Run(dh, es[..b]).host.sends| <= |Run(dh, es).host.sends|
  {
    if b == |es| {
      assert es[..b] == es;
    } else {
      var init := es[..|es| - 1];
      assert es[..b] == init[..b];
      SendsSince(dh, init, b);
      SendsOnlyGrow(dh, Run(dh, init), es[|es| - 1]);
    }
  }

  lemma SendsAfter(dh: Dh, es: seq<Event>, b: nat)
    requires b < |es| && es[b].Begin? && Enabled(Run(dh, es[..b]), es[b])
    ensures |Run(dh, es[..b + 1]).host.sends| == |Run(dh, es[..b]).host.sends| + 1
  {
    var w := Run(dh, es[..b]);
    assert es[..b + 1] == es[..b] + [es[b]];
    RunStep(dh, es[..b], es[b]);
    hide Run, Sound, Valid, SameSends;
  }

  lemma QuietBefore(dh: Dh, es: seq<Event>, b: nat)
    requires QuietSince(dh, es, b) && b < |es| - 1
    ensures QuietSince(dh, es[..|es| - 1], b)
    ensures |Run(dh, es[..|es| - 1]).host.sends| == |Run(dh, es).host.sends|
  {
    hide Run, Step, Quiet, Valid, Sound, SameSends, Enabled;
    var init, e := es[..|es| - 1], es[|es| - 1];
    assert init[..b] == es[..b] && init[..b + 1] == es[..b + 1] && es == init + [e];
    SendsAfter(dh, es, b);
    SendsSince(dh, init, b + 1);
    RunStep(dh, init, e);
    SendsOnlyGrow(dh, Run(dh, init), e);
  }

  lemma {:induction false} QuietInv(dh: Dh, es: seq<Event>, b: nat)
    requires dh.Lawful() && QuietSince(dh, es, b)
    ensures Inv(dh, Run(dh, es), |Run(dh, es).host.sends| - 1)
  {
    var init, e := es[..|es| - 1], es[|es| - 1];
    var w := Run(dh, init);
    assert Run(dh, es) == Step(dh, w, e);
    hide Run, Step, Inv, Valid, Sound, SameSends, Quiet, Dh.Lawful, Numbered, ToldOnce, AllAnswer, Enabled;
    AlwaysTidy(dh, init);
    if b == |es| - 1 {
      BeginIsWaiting(dh, w, e.to, e.secret);
    } else {
      hide QuietSince;
      QuietBefore(dh, es, b);
      QuietInv(dh, init, b);
      StepKeepsInv(dh, w, e, |w.host.sends| - 1);
    }
  }

  /** A send begun with nothing left over: whenever its shared key resolves, the
      guest of a session holds the same key, and if its token resolves too, it is
      the token of that session. */
  lemma QuietSendsAgree(dh: Dh, es: seq<Event>, b: nat)
    requires dh.Lawful() && QuietSince(dh, es, b)
    ensures var w := Run(dh, es);
            var s := w.host.sends[|w.host.sends| - 1];
            s.key.Resolved? ==>
              && s.source.Some? && s.source.value in w.guests && w.guests[s.source.value].key == s.key.value
              && (s.token.Resolved? ==> s.token.value == s.source.value)
  {
    var w := Run(dh, es);
    QuietInv(dh, es, b);
    var n := |w.host.sends| - 1;
    assert Inv(dh, w, n);
    hide Run, QuietSince, Valid;
    if w.host.sends[n].key.Resolved? {
      var t: Token :| Approved(dh, w, n, t);
    }
  }

  /** The retry after login-required cannot succeed: it carries no public key, so
      a send that asked twice never gets a shared key. */
  lemma RetriesGetNoKey(dh: Dh, es: seq<Event>, b: nat)
    requires dh.Lawful() && QuietSince(dh, es, b)
    ensures var h := Run(dh, es).host; h.sends[|h.sends| - 1].asks >= 2 ==> !h.sends[|h.sends| - 1].key.Resolved?
  {
    QuietInv(dh, es, b);
    hide Run, QuietSince, Valid;
  }

  // ----------------------------------------------------------- a late relay-key

  function Sum(): Dh {
    Dh((a: Secret) => a, (a: Secret, p: Pub) => a + p, (p: Pub) => p)
  }

  /** A relay-key still under way when the next send to that guest begins settles
      the next send. */
  lemma LateKeySettlesTheNextSend(dh: Dh, w: World, i: nat, to: Id, secret: Secret)
    requires Tidy(w) && i in w.flight && w.flight[i].RelayKey? && w.flight[i].from == to && w.flight[i].guestPub.Some?
    requires Enabled(w, Begin(to, secret))
    ensures var w1 := Step(dh, w, Begin(to, secret));
            var w2 := Step(dh, w1, Deliver(i, Ignore, 0));
            var w' := Step(dh, w2, Deliver(w.next, Ignore, 0));
            var n := |w.host.sends|;
            && |w'.host.sends| == n + 1 && w'.guests == w.guests
            && w'.host.sends[n].key == Resolved(dh.shared(secret, w.flight[i].guestPub.value))
            && w'.host.sends[n].source == Some(w.flight[i].token)
  {
    var m := w.flight[i];
    var w1 := Step(dh, w, Begin(to, secret));
    assert OnRelayKey(w1.host, to) == Some(|w.host.sends|) && w1.flight == w.flight && w1.next == w.next;
    hide Sound, Valid, SameSends, OnRelayKey;
    var w2 := Step(dh, w1, Deliver(i, Ignore, 0));
    assert w2.flight[w.next] == Deriving(to, m.guestPub, m.token, |w.host.sends|) && w2.host == w1.host;
  }

  /** A send that is approved, whose guest answers, and whose key times out first. */
  const UNANSWERED: seq<Event> := ANSWERS + [KeyTimeout(0)]
  const ANSWERS: seq<Event> := ASKS + [Deliver(0, Approve(7), 0)] + [Deliver(2, Ignore, 20)]
  const ASKS: seq<Event> := [] + [Begin(1, 10)] + [Ask(0)]

  /** The world after the request, and after the guest's answer. */
  const ASKED: World := World(
    Host([Send(1, 10, Pending, false, 1, Pending, None, true, {1})], map[1 := 0], map[1 := Entry(0, 1)], None),
    map[0 := RelayRequest(1, Some(10))], 1, {}, map[])

  const ANSWERED: World := World(
    ASKED.host, map[1 := HostApproved(1, 7), 3 := RelayKey(1, Some(20), 7)], 4, {7}, map[7 := GuestKey(20, 10, 30)])

  const BEGUN: World := World(
    Host([Send(1, 10, Pending, true, 0, Pending, None, true, {})], map[1 := 0], map[], Some(10)), map[], 0, {}, map[])

  lemma BegunRun()
    ensures Step(Sum(), NEW_WORLD, Begin(1, 10)) == BEGUN
  {
    var h := Prepare(Sum(), NEW_HOST, 1, 10);
    assert h.sends == BEGUN.host.sends && h.pendingKeys == map[1 := 0];
    hide Sound, Valid, SameSends, Prepare;
  }

  lemma AskedRun()
    ensures Step(Sum(), Step(Sum(), NEW_WORLD, Begin(1, 10)), Ask(0)) == ASKED
  {
    BegunRun();
    var (h, pub) := Request(BEGUN.host, 0);
    assert {} + {1} == {1};
    assert h.sends == ASKED.host.sends && h.pendingRelay == ASKED.host.pendingRelay && h == ASKED.host && pub == Some(10);
    hide Sound, Valid, SameSends, Request, Prepare;
  }

  const SERVED: World := World(
    ASKED.host, map[1 := HostApproved(1, 7), 2 := GuestApproved(1, 7, Some(10))], 3, {7}, map[])

  lemma ServedRun()
    ensures Step(Sum(), ASKED, Deliver(0, Approve(7), 0)) == SERVED
  {
    AskedRun();
    assert ASKED.flight - {0} == map[];
    hide Sound, Valid, SameSends;
  }

  lemma AnsweredRun()
    ensures Step(Sum(), Step(Sum(), ASKED, Deliver(0, Approve(7), 0)), Deliver(2, Ignore, 20)) == ANSWERED
  {
    ServedRun();
    assert SERVED.flight - {2} == map[1 := HostApproved(1, 7)];
  }

  lemma UnansweredRun()
    ensures var w := Run(Sum(), UNANSWERED);
            && |w.host.sends| == 1 && w.host.sends[0].Settled()
            && 3 in w.flight && w.flight[3] == RelayKey(1, Some(20), 7) && w.next == 4
            && 7 in w.guests && w.guests[7] == GuestKey(20, 10, 30)
  {
    assert Step(Sum(), ANSWERED, KeyTimeout(0)).host.sends[0].Settled();
    assert Run(Sum(), UNANSWERED) == Step(Sum(), ANSWERED, KeyTimeout(0)) by {
      hide Step, Sum, Sound, SameSends, ASKED, ANSWERED;
      assert Run(Sum(), []) == NEW_WORLD;
      hide Run;
      AskedRun();
      AnsweredRun();
      RunTwoSteps(Sum(), [], Begin(1, 10), Ask(0));
      RunTwoSteps(Sum(), ASKS, Deliver(0, Approve(7), 0), Deliver(2, Ignore, 20));
      RunStep(Sum(), ANSWERS, KeyTimeout(0));
    }
  }

  /** The same send when everything arrives in time. */
  const ARRIVES: seq<Event> := ANSWERS + [Deliver(1, Ignore, 0)] + [Deliver(3, Ignore, 0)] + [Deliver(4, Ignore, 0)]

  const DERIVES: World := World(
    Host([Send(1, 10, Resolved(7), false, 1, Pending, None, true, {1})], map[1 := 0], map[], None),
    map[4 := Deriving(1, Some(20), 7, 0)], 5, {7}, map[7 := GuestKey(20, 10, 30)])

  const TOLD: World := World(DERIVES.host, map[3 := RelayKey(1, Some(20), 7)], 4, {7}, DERIVES.guests)

  lemma ToldRun()
    ensures Step(Sum(), ANSWERED, Deliver(1, Ignore, 0)) == TOLD
  {
    assert ANSWERED.flight - {1} == TOLD.flight;
    var h := OnApproved(ASKED.host, 7, 1);
    assert h.sends == DERIVES.host.sends && h.pendingRelay == map[] && h == DERIVES.host;
    hide Sound, Valid, SameSends, OnApproved;
  }

  lemma DerivesRun()
    ensures Step(Sum(), Step(Sum(), ANSWERED, Deliver(1, Ignore, 0)), Deliver(3, Ignore, 0)) == DERIVES
  {
    ToldRun();
    assert TOLD.flight - {3} == map[] && OnRelayKey(TOLD.host, 1) == Some(0);
    hide Sound, Valid, SameSends, OnRelayKey;
  }

  lemma AgreesRun()
    ensures var w := Step(Sum(), DERIVES, Deliver(4, Ignore, 0));
            && |w.host.sends| == 1 && w.guests == DERIVES.guests
            && w.host.sends[0].key == Resolved(30) && w.host.sends[0].token == Resolved(7) && w.host.sends[0].source == Some(7)
  {}

  lemma BeginsQuietly(dh: Dh, es: seq<Event>, to: Id, secret: Secret)
    requires es != [] && es[0] == Begin(to, secret) && |Run(dh, es).host.sends| == 1
    ensures QuietSince(dh, es, 0)
  {
    assert es[..0] == [] && Run(dh, []) == NEW_WORLD;
    hide Run;
  }

  /** It began with nothing left over, and ends with its session's token and its
      guest's key. */
  lemma ArrivesAndAgrees()
    ensures QuietSince(Sum(), ARRIVES, 0)
    ensures var w := Run(Sum(), ARRIVES);
            && |w.host.sends| == 1
            && w.host.sends[0].key == Resolved(30) && w.host.sends[0].token == Resolved(7)
            && w.host.sends[0].source == Some(7) && 7 in w.guests && w.guests[7].key == 30
  {
    var dh := Sum();
    AgreesRun();
    assert Run(dh, ARRIVES) == Step(dh, DERIVES, Deliver(4, Ignore, 0)) by {
      assert Run(dh, []) == NEW_WORLD;
      hide Step, Sum, Sound, SameSends, ASKED, ANSWERED, Run;
      AskedRun();
      AnsweredRun();
      DerivesRun();
      RunTwoSteps(dh, [], Begin(1, 10), Ask(0));
      RunTwoSteps(dh, ASKS, Deliver(0, Approve(7), 0), Deliver(2, Ignore, 20));
      RunTwoSteps(dh, ANSWERS, Deliver(1, Ignore, 0), Deliver(3, Ignore, 0));
      RunStep(dh, ANSWERS + [Deliver(1, Ignore, 0)] + [Deliver(3, Ignore, 0)], Deliver(4, Ignore, 0));
    }
    hide Step, Sum, Sound, SameSends, ASKED, ANSWERED, Run, QuietSince;
    BeginsQuietly(dh, ARRIVES, 1, 10);
  }

  /** So the second send ends up with a key that its guest does not hold. */
  lemma LateKeyMismatch()
    ensures Sum().Lawful() && Sum().Exact()
    ensures var w := Run(Sum(), UNANSWERED + [Begin(1, 11)] + [Deliver(3, Ignore, 0)] + [Deliver(4, Ignore, 0)]);
            && |w.host.sends| == 2 && w.host.sends[1].key == Resolved(31) && w.host.sends[1].source == Some(7)
            && 7 in w.guests && w.guests[7].key == 30
  {
    var dh, es := Sum(), UNANSWERED;
    assert dh.Lawful() && dh.Exact() && dh.shared(11, 20) == 31;
    hide Step, Run, UNANSWERED, Sound, SameSends, Numbered, ToldOnce, AllAnswer, Sum, Dh.Lawful, Dh.Exact, Send.Settled;
    UnansweredRun();
    AlwaysTidy(dh, es);
    RunStep(dh, es, Begin(1, 11));
    RunTwoSteps(dh, es + [Begin(1, 11)], Deliver(3, Ignore, 0), Deliver(4, Ignore, 0));
    LateKeySettlesTheNextSend(dh, Run(dh, es), 3, 1, 11);
  }
}
