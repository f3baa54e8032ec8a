/** When host and guest of a relay session hold the same key
    (web/src/go-transport.ts). */
module KeyAgreement {
  import opened Common
  import opened KeyExchange

  function Run(dh: Dh, es: seq<Event>): (w: World)
    ensures Sound(w)
  {
    if es == [] then NEW_WORLD else Step(dh, Run(dh, es[..|es| - 1]), es[|es| - 1])
  }

  lemma RunStep(dh: Dh, es: seq<Event>, e: Event)
    ensures Run(dh, es + [e]) == Step(dh, Run(dh, es), e)
  {
    assert (es + [e])[..|es|] == es;
  }

  lemma RunTwoSteps(dh: Dh, es: seq<Event>, e: Event, e': Event)
    ensures Run(dh, es + [e] + [e']) == Step(dh, Step(dh, Run(dh, es), e), e')
  {
    hide Step, Run, Sound, SameSends;
    RunStep(dh, es, e);
    RunStep(dh, es + [e], e');
  }

  lemma {:induction false} AlwaysTidy(dh: Dh, es: seq<Event>)
    ensures Tidy(Run(dh, es))
  {
    if es != [] {
      AlwaysTidy(dh, es[..|es| - 1]);
      StepKeepsTidy(dh, Run(dh, es[..|es| - 1]), es[|es| - 1]);
    }
  }

  // ------------------------------------------------------ the exact condition

  /** A settled key was made from this send's secret and the public key of the
      guest of session `source`. */
  ghost predicate Made(dh: Dh, guests: map<Token, GuestKey>, s: Send) {
    s.key.Resolved? ==>
      && s.source.Some? && s.source.value in guests
      && s.key.value == dh.shared(s.secret, dh.pub(guests[s.source.value].secret))
  }

  ghost predicate AllMade(dh: Dh, w: World) {
    forall i :: 0 <= i < |w.host.sends| ==> Made(dh, w.guests, w.host.sends[i])
  }

  ghost predicate IsPub(dh: Dh, p: Option<Pub>) {
    p.Some? ==> exists a: Secret :: dh.pub(a) == p.value
  }

  /** Every guest key was made from the host key it was given. */
  ghost predicate GuestsDerived(dh: Dh, w: World) {
    forall t {:trigger w.guests[t]} :: t in w.guests ==>
      w.guests[t].key == dh.shared(w.guests[t].secret, w.guests[t].hostPub) && IsPub(dh, Some(w.guests[t].hostPub))
  }

  /** A relay-key that is a key is the public key of the session's guest. */
  ghost predicate Genuine(dh: Dh, m: Message, guests: map<Token, GuestKey>) {
    (m.RelayKey? || m.Deriving?) && m.guestPub.Some? ==>
      m.token in guests && m.guestPub.value == dh.pub(guests[m.token].secret)
  }

  /** What the host publishes, and what is under way of it, are public keys. */
  ghost predicate PubsSent(dh: Dh, w: World) {
    && IsPub(dh, w.host.hostPub)
    && (forall i {:trigger w.flight[i]} :: i in w.flight && (w.flight[i].RelayRequest? || w.flight[i].GuestApproved?) ==>
          IsPub(dh, w.flight[i].pub))
  }

  ghost predicate AllGenuine(dh: Dh, w: World) {
    forall i {:trigger w.flight[i]} :: i in w.flight ==> Genuine(dh, w.flight[i], w.guests)
  }

  ghost predicate Derived(dh: Dh, w: World) {
    GuestsDerived(dh, w) && PubsSent(dh, w) && AllGenuine(dh, w)
  }

  /** `h` and `r` hold the same keys, but for some that were rejected or begun. */
  ghost predicate SameKeys(h: Host, r: Host) {
    && |h.sends| <= |r.sends|
    && (forall i :: 0 <= i < |r.sends| && r.sends[i].key.Resolved? ==> i < |h.sends|)
    && (forall i :: 0 <= i < |h.sends| && r.sends[i].key.Resolved? ==>
          r.sends[i].key == h.sends[i].key && r.sends[i].source == h.sends[i].source && r.sends[i].secret == h.sends[i].secret)
  }

  lemma TimersSameKeys(h: Host, n: nat, a: nat)
    requires Valid(h) && n < |h.sends|
    ensures SameKeys(h, KeyTimer(h, n)) && SameKeys(h, RelayTimer(h, n, a))
  {
    hide Valid;
  }

  lemma RequestsSameKeys(dh: Dh, h: Host, n: nat, to: Id, secret: Secret)
    requires Valid(h)
    ensures SameKeys(h, h) && SameKeys(h, Prepare(dh, h, to, secret))
    ensures n < |h.sends| && h.sends[n].token.Pending? && h.sends[n].idle ==>
              SameKeys(h, Request(h, n).0) && SameKeys(h, NoAuth(h, n))
  {}

  lemma AnswersSameKeys(h: Host, token: Token, to: Id)
    requires Valid(h)
    ensures SameKeys(h, OnApproved(h, token, to)) && SameKeys(h, OnLoginRequired(h)) && SameKeys(h, OnPeerLeft(h, to))
  {}

  lemma StepSameKeys(dh: Dh, w: World, e: Event)
    requires Sound(w)
    requires e.Deliver? && e.i in w.flight ==> !w.flight[e.i].Deriving?
    ensures SameKeys(w.host, Step(dh, w, e).host)
  {
    hide Valid, Prepare, OnPeerLeft, OnApproved, Settle, KeyTimer, RelayTimer, NoAuth, OnLoginRequired, Request, SameKeys;
    RequestsSameKeys(dh, w.host, 0, 0, 0);
    match e {
      case Begin(to, secret) => RequestsSameKeys(dh, w.host, 0, to, secret);
      case Ask(n) => RequestsSameKeys(dh, w.host, n, 0, 0);
      case AuthFails(n) => RequestsSameKeys(dh, w.host, n, 0, 0);
      case KeyTimeout(n) => if n < |w.host.sends| { TimersSameKeys(w.host, n, 0); }
      case RelayTimeout(n, a) => if n < |w.host.sends| { TimersSameKeys(w.host, n, a); }
      case PeerLeft(g) => AnswersSameKeys(w.host, 0, g);
      case BadKey(_) =>
      case Deliver(i, verdict, secret) =>
        if i in w.flight {
          if w.flight[i].HostApproved? {
            AnswersSameKeys(w.host, w.flight[i].token, w.flight[i].to);
          } else {
            AnswersSameKeys(w.host, 0, 0);
          }
        }
    }
  }

  lemma StepKeepsHostPub(dh: Dh, w: World, e: Event)
    requires Sound(w) && IsPub(dh, w.host.hostPub)
    ensures IsPub(dh, Step(dh, w, e).host.hostPub)
  {
    hide Valid;
  }

  lemma StepKeepsGuests(dh: Dh, w: World, e: Event)
    requires Tidy(w) && Derived(dh, w)
    ensures GuestsDerived(dh, Step(dh, w, e))
    ensures forall t {:trigger w.guests[t]} :: t in w.guests ==>
              t in Step(dh, w, e).guests && Step(dh, w, e).guests[t] == w.guests[t]
  {
    hide Sound, SameSends, Valid, Apt, Prepare, OnPeerLeft, OnApproved, OnRelayKey, Settle, KeyTimer, RelayTimer, NoAuth, OnLoginRequired, Request, IsPub;
    if !e.Deliver? {
      hide Taken;
    }
  }

  lemma AskKeepsPubs(dh: Dh, w: World, n: nat)
    requires Tidy(w) && PubsSent(dh, w) && Enabled(w, Ask(n))
    ensures PubsSent(dh, Step(dh, w, Ask(n)))
  {
    var pub := Request(w.host, n).1;
    assert pub == w.host.hostPub && Request(w.host, n).0.hostPub == None;
    hide Sound, SameSends, Valid, IsPub, Taken, Request;
    assert IsPub(dh, pub);
    assert IsPub(dh, None) by { NoPub(dh); }
  }

  lemma NoPub(dh: Dh)
    ensures IsPub(dh, None)
  {}

  lemma StepKeepsPubs(dh: Dh, w: World, e: Event)
    requires Tidy(w) && PubsSent(dh, w)
    ensures PubsSent(dh, Step(dh, w, e))
  {
    if e.Ask? && Enabled(w, e) {
      AskKeepsPubs(dh, w, e.n);
      hide Step;
    } else {
      StepKeepsHostPub(dh, w, e);
      hide Sound, SameSends, Valid, Apt, Prepare, OnPeerLeft, OnApproved, OnRelayKey, Settle, KeyTimer, RelayTimer, NoAuth, OnLoginRequired, Request, IsPub;
    }
  }

  lemma StepKeepsGenuine(dh: Dh, w: World, e: Event)
    requires Tidy(w) && AllGenuine(dh, w)
    ensures AllGenuine(dh, Step(dh, w, e))
  {
    hide Valid, Apt, Prepare, OnPeerLeft, OnApproved, Settle, KeyTimer, RelayTimer, NoAuth, OnLoginRequired, Request;
  }

  lemma StepKeepsDerived(dh: Dh, w: World, e: Event)
    requires Tidy(w) && Derived(dh, w)
    ensures Derived(dh, Step(dh, w, e))
  {
    hide Step, Sound, Tidy, GuestsDerived, PubsSent, AllGenuine;
    StepKeepsGuests(dh, w, e);
    StepKeepsPubs(dh, w, e);
    StepKeepsGenuine(dh, w, e);
  }

  lemma StepKeepsMade(dh: Dh, w: World, e: Event)
    requires Tidy(w) && Derived(dh, w) && AllMade(dh, w)
    ensures AllMade(dh, Step(dh, w, e))
  {
    StepKeepsGuests(dh, w, e);
    if e.Deliver? && e.i in w.flight && w.flight[e.i].Deriving? {
      hide Derived, GuestsDerived, Tidy, Valid;
    } else {
      StepSameKeys(dh, w, e);
      hide Step, Sound, Tidy, Derived;
    }
  }

  lemma {:induction false} AlwaysMade(dh: Dh, es: seq<Event>)
    ensures Derived(dh, Run(dh, es)) && AllMade(dh, Run(dh, es))
  {
    if es != [] {
      AlwaysMade(dh, es[..|es| - 1]);
      AlwaysTidy(dh, es[..|es| - 1]);
      hide Step, Sound, Tidy, Derived, AllMade;
      StepKeepsDerived(dh, Run(dh, es[..|es| - 1]), es[|es| - 1]);
      StepKeepsMade(dh, Run(dh, es[..|es| - 1]), es[|es| - 1]);
    }
  }

  /** In every run, however timers, retries and late messages fall: if the session a
      send's key answers was asked for with this send's own public key, the key is
      the one its guest derived. */
  lemma AgreesIfOwnKeyAnswered(dh: Dh, es: seq<Event>, n: nat)
    requires dh.Lawful() && n < |Run(dh, es).host.sends| && Run(dh, es).host.sends[n].key.Resolved?
    ensures var w := Run(dh, es);
            var s := w.host.sends[n];
            && s.source.Some? && s.source.value in w.guests
            && (w.guests[s.source.value].hostPub == dh.pub(s.secret) ==> s.key.value == w.guests[s.source.value].key)
  {
    AlwaysMade(dh, es);
    assert Made(dh, Run(dh, es).guests, Run(dh, es).host.sends[n]);
    hide Run, Sound, AllMade, PubsSent, AllGenuine;
  }

  /** ... and only then, or if it was asked for with the opposite one. */
  lemma AgreesIffOwnKeyAnswered(dh: Dh, es: seq<Event>, n: nat)
    requires dh.Lawful() && dh.Exact() && n < |Run(dh, es).host.sends| && Run(dh, es).host.sends[n].key.Resolved?
    ensures var w := Run(dh, es);
            var s := w.host.sends[n];
            && s.source.Some? && s.source.value in w.guests
            && (s.key.value == w.guests[s.source.value].key
                <==> dh.Alike(w.guests[s.source.value].hostPub, dh.pub(s.secret)))
  {
    var w := Run(dh, es);
    var s := w.host.sends[n];
    AlwaysMade(dh, es);
    assert Made(dh, w.guests, s);
    hide Run, Sound;
    var g := w.guests[s.source.value];
    assert g.key == dh.shared(g.secret, g.hostPub) && IsPub(dh, Some(g.hostPub));
    hide Derived, AllMade;
    var a: Secret :| dh.pub(a) == g.hostPub;
    assert s.key.value == dh.shared(s.secret, dh.pub(g.secret)) == dh.shared(g.secret, dh.pub(s.secret));
    assert g.key == dh.shared(g.secret, dh.pub(a));
    assert g.key == s.key.value <==> dh.Alike(dh.pub(a), dh.pub(s.secret));
  }

  // ----------------------------------------------------------- asking and retrying

  /** A send asks at most twice, and waits for a login only before an ask. */
  predicate Asks(s: Send) {
    s.asks <= 2 && (s.idle ==> s.token.Pending? && s.asks <= 1) && (s.token.Pending? && !s.idle ==> s.asks >= 1)
  }

  ghost predicate AllAsk(h: Host) {
    forall i :: 0 <= i < |h.sends| ==> Asks(h.sends[i])
  }

  lemma TimersAsk(h: Host, n: nat, a: nat)
    requires Valid(h) && AllAsk(h) && n < |h.sends|
    ensures AllAsk(KeyTimer(h, n)) && AllAsk(RelayTimer(h, n, a))
  {
    hide Valid;
  }

  lemma RequestsAsk(dh: Dh, h: Host, n: nat, to: Id, secret: Secret)
    requires Valid(h) && AllAsk(h)
    ensures AllAsk(Prepare(dh, h, to, secret))
    ensures n < |h.sends| && h.sends[n].token.Pending? && h.sends[n].idle ==> AllAsk(Request(h, n).0) && AllAsk(NoAuth(h, n))
  {
    hide Valid;
  }

  lemma AnswersAsk(dh: Dh, h: Host, token: Token, to: Id, n: nat, pub: Option<Pub>)
    requires Valid(h) && AllAsk(h)
    ensures AllAsk(OnApproved(h, token, to)) && AllAsk(OnLoginRequired(h)) && AllAsk(OnPeerLeft(h, to))
    ensures n < |h.sends| && h.sends[n].to == to ==> AllAsk(Settle(dh, h, to, n, pub, token))
  {}

  lemma StepAsks(dh: Dh, w: World, e: Event)
    requires Sound(w) && AllAsk(w.host)
    ensures AllAsk(Step(dh, w, e).host)
  {
    hide Valid, AllAsk, Prepare, OnPeerLeft, OnApproved, Settle, KeyTimer, RelayTimer, NoAuth, OnLoginRequired, Request;
    match e {
      case Begin(to, secret) => RequestsAsk(dh, w.host, 0, to, secret);
      case Ask(n) => RequestsAsk(dh, w.host, n, 0, 0);
      case AuthFails(n) => RequestsAsk(dh, w.host, n, 0, 0);
      case KeyTimeout(n) => if n < |w.host.sends| { TimersAsk(w.host, n, 0); }
      case RelayTimeout(n, a) => if n < |w.host.sends| { TimersAsk(w.host, n, a); }
      case PeerLeft(g) => AnswersAsk(dh, w.host, 0, g, 0, None);
      case BadKey(_) =>
      case Deliver(i, _, _) =>
        if i in w.flight {
          DeliveryAsks(dh, w, w.flight[i], e);
        }
    }
  }

  lemma DeliveryAsks(dh: Dh, w: World, m: Message, e: Event)
    requires Sound(w) && AllAsk(w.host) && e.Deliver? && e.i in w.flight && m == w.flight[e.i]
    ensures AllAsk(Step(dh, w, e).host)
  {
    hide Valid, AllAsk, OnApproved, Settle, OnLoginRequired;
    match m {
      case HostApproved(to, token) => AnswersAsk(dh, w.host, token, to, 0, None);
      case LoginRequired => AnswersAsk(dh, w.host, 0, 0, 0, None);
      case Deriving(from, pub, token, n) => AnswersAsk(dh, w.host, token, from, n, pub);
      case _ =>
    }
  }

  lemma {:induction false} AlwaysAsks(dh: Dh, es: seq<Event>)
    ensures AllAsk(Run(dh, es).host)
  {
    if es != [] {
      AlwaysAsks(dh, es[..|es| - 1]);
      StepAsks(dh, Run(dh, es[..|es| - 1]), es[|es| - 1]);
    }
  }

  /** In every run a send makes at most two requests.  When login-required arrives, each send
      that has an entry waits for a login again if this was its first request, and is rejected
      if it was its second; the others stay as they are, and no entry is left. */
  lemma RefusedRetriesOnce(dh: Dh, es: seq<Event>, i: nat, verdict: Verdict, secret: Secret, n: nat)
    requires var w := Run(dh, es);
             i in w.flight && w.flight[i].LoginRequired? && Enabled(w, Deliver(i, verdict, secret)) && n < |w.host.sends|
    ensures var h, h' := Run(dh, es).host, Run(dh, es + [Deliver(i, verdict, secret)]).host;
            var s := h.sends[n];
            && s.asks <= 2 && h'.pendingRelay == map[] && |h'.sends| == |h.sends|
            && h'.sends[n] == if !(s.to in h.pendingRelay && h.pendingRelay[s.to].send == n) then s
                              else if s.asks < 2 then s.(idle := true) else s.(token := Rejected)
  {
    RunStep(dh, es, Deliver(i, verdict, secret));
    AlwaysAsks(dh, es);
    hide Run;
  }
}
