/** Promises of the relay handshake that nothing settles: the timers look the peer
    up and not the send, and a guest's departure settles nothing
    (web/src/go-transport.ts). */
module Orphans {
  import opened Common
  import opened KeyExchange
  import opened KeyAgreement
  import Q = QuietHandshake

  // --------------------------------------------------------------- the key promise

  /** The host is making send `n`'s key. */
  ghost predicate UnderWay(w: World, n: nat) {
    exists i {:trigger w.flight[i]} :: i in w.flight && w.flight[i].Deriving? && w.flight[i].send == n
  }

  /** No entry holds the key promise of send `n`. */
  ghost predicate Dropped(h: Host, n: nat) {
    forall g {:trigger h.pendingKeys[g]} :: g in h.pendingKeys ==> h.pendingKeys[g] != n
  }

  /** The promise is pending, its timer is spent, no entry holds it and no
      derivation will settle it. */
  ghost predicate KeyOrphaned(w: World, n: nat) {
    && n < |w.host.sends| && w.host.sends[n].key.Pending? && !w.host.sends[n].keyTimer
    && Dropped(w.host, n) && !UnderWay(w, n)
  }

  /** The timer of a pending key rejects it if and only if the peer has an entry,
      whichever send's; otherwise nothing holds the promise any more. */
  lemma KeyTimerRejectsIffEntry(h: Host, n: nat)
    requires Valid(h) && n < |h.sends| && h.sends[n].keyTimer && h.sends[n].key.Pending?
    ensures var r := KeyTimer(h, n);
            && (r.sends[n].key == Rejected <==> h.sends[n].to in h.pendingKeys)
            && (r.sends[n].key.Pending? <==> h.sends[n].to !in h.pendingKeys)
            && (r.sends[n].key.Pending? ==> !r.sends[n].keyTimer && Dropped(r, n))
  {}

  // --------------------------------------------- when the peer has an entry

  /** The host's two tables: `pendingRelayKeys` and `pendingRelay`. */
  datatype Table = Keys | Requests

  predicate Has(table: Table, h: Host, g: Id) {
    match table
    case Keys => g in h.pendingKeys
    case Requests => g in h.pendingRelay
  }

  /** The event gives guest `g` an entry: a send to it begins, or asks. */
  predicate Sets(table: Table, w: World, e: Event, g: Id) {
    && Enabled(w, e)
    && match table
       case Keys => e.Begin? && e.to == g
       case Requests => e.Ask? && w.host.sends[e.n].to == g
  }

  /** The event takes away whatever entry guest `g` has.  For a key: the guest
      leaves, the timer of any send to it fires, or the host ends a derivation for
      it.  For a request: the timer of any request to it fires, an approval for it
      arrives, or a refusal. */
  predicate Clears(table: Table, w: World, e: Event, g: Id) {
    && Enabled(w, e)
    && match table
       case Keys =>
         || e == PeerLeft(g)
         || (e.KeyTimeout? && w.host.sends[e.n].keyTimer && w.host.sends[e.n].to == g)
         || (e.Deliver? && w.flight[e.i].Deriving? && w.flight[e.i].from == g)
       case Requests =>
         || (e.RelayTimeout? && e.a in w.host.sends[e.n].askTimers && w.host.sends[e.n].to == g)
         || (e.Deliver? && w.flight[e.i].HostApproved? && w.flight[e.i].to == g)
         || (e.Deliver? && w.flight[e.i].LoginRequired?)
  }

  lemma KeyEntryStep(dh: Dh, w: World, e: Event, g: Id)
    requires Sound(w)
    ensures Has(Keys, Step(dh, w, e).host, g) <==>
              Sets(Keys, w, e, g) || (Has(Keys, w.host, g) && !Clears(Keys, w, e, g))
  {
    hide Valid;
  }

  lemma RequestEntryStep(dh: Dh, w: World, e: Event, g: Id)
    requires Sound(w)
    ensures Has(Requests, Step(dh, w, e).host, g) <==>
              Sets(Requests, w, e, g) || (Has(Requests, w.host, g) && !Clears(Requests, w, e, g))
  {
    hide Valid;
  }

  lemma EntryStep(dh: Dh, w: World, table: Table, e: Event, g: Id)
    requires Sound(w)
    ensures Has(table, Step(dh, w, e).host, g) <==>
              Sets(table, w, e, g) || (Has(table, w.host, g) && !Clears(table, w, e, g))
  {
    hide Sound, Step, Sets, Clears, Has;
    KeyEntryStep(dh, w, e, g);
    RequestEntryStep(dh, w, e, g);
    assert table == Keys || table == Requests;
  }

  ghost predicate SetsAt(dh: Dh, table: Table, es: seq<Event>, i: nat, g: Id) {
    i < |es| && Sets(table, Run(dh, es[..i]), es[i], g)
  }

  ghost predicate ClearsAt(dh: Dh, table: Table, es: seq<Event>, i: nat, g: Id) {
    i < |es| && Clears(table, Run(dh, es[..i]), es[i], g)
  }

  /** An entry of `g` was set, and nothing has cleared it since. */
  ghost predicate Watched(dh: Dh, table: Table, es: seq<Event>, g: Id) {
    exists i: nat :: SetsAt(dh, table, es, i, g) && forall k: nat :: i < k < |es| ==> !ClearsAt(dh, table, es, k, g)
  }

  lemma AtPrefix(dh: Dh, table: Table, es: seq<Event>, e: Event, i: nat, g: Id)
    requires i < |es|
    ensures SetsAt(dh, table, es + [e], i, g) <==> SetsAt(dh, table, es, i, g)
    ensures ClearsAt(dh, table, es + [e], i, g) <==> ClearsAt(dh, table, es, i, g)
  {
    assert (es + [e])[..i] == es[..i];
    hide Run, Sets, Clears;
  }

  lemma AtLast(dh: Dh, table: Table, es: seq<Event>, e: Event, g: Id)
    ensures SetsAt(dh, table, es + [e], |es|, g) <==> Sets(table, Run(dh, es), e, g)
    ensures ClearsAt(dh, table, es + [e], |es|, g) <==> Clears(table, Run(dh, es), e, g)
  {
    assert (es + [e])[..|es|] == es;
    hide Run, Sets, Clears;
  }

  lemma SetsInRange(dh: Dh, table: Table, es: seq<Event>, g: Id)
    ensures forall i: nat :: SetsAt(dh, table, es, i, g) ==> i < |es|
  {
    hide Run, Sets;
  }

  lemma WatchedStep(dh: Dh, table: Table, es: seq<Event>, e: Event, g: Id)
    ensures Watched(dh, table, es + [e], g) <==>
              Sets(table, Run(dh, es), e, g) || (Watched(dh, table, es, g) && !Clears(table, Run(dh, es), e, g))
  {
    hide Run, Sets, Clears, SetsAt, ClearsAt;
    AtLast(dh, table, es, e, g);
    forall i: nat | i < |es|
      ensures SetsAt(dh, table, es + [e], i, g) <==> SetsAt(dh, table, es, i, g)
      ensures ClearsAt(dh, table, es + [e], i, g) <==> ClearsAt(dh, table, es, i, g)
    {
      AtPrefix(dh, table, es, e, i, g);
    }
    SetsInRange(dh, table, es, g);
    SetsInRange(dh, table, es + [e], g);
  }

  /** In every run a guest has an entry if and only if it is watched. */
  lemma {:induction false} EntryIffWatched(dh: Dh, table: Table, es: seq<Event>, g: Id)
    ensures Has(table, Run(dh, es).host, g) <==> Watched(dh, table, es, g)
  {
    if es == [] {
      SetsInRange(dh, table, es, g);
    } else {
      hide Run, Step, Watched, Sets, Clears, Sound, SameSends, Has;
      var es0, e := es[..|es| - 1], es[|es| - 1];
      assert es == es0 + [e];
      EntryIffWatched(dh, table, es0, g);
      WatchedStep(dh, table, es0, e, g);
      RunStep(dh, es0, e);
      EntryStep(dh, Run(dh, es0), table, e, g);
    }
  }

  // --------------------------------------------------------- in every run

  /** A spent timer leaves no entry of its send behind. */
  ghost predicate TimersKept(h: Host) {
    forall n :: 0 <= n < |h.sends| && h.sends[n].key.Pending? && !h.sends[n].keyTimer ==> Dropped(h, n)
  }

  lemma TimersKeepTimers(h: Host, n: nat, a: nat)
    requires Valid(h) && TimersKept(h) && n < |h.sends|
    ensures TimersKept(KeyTimer(h, n)) && TimersKept(RelayTimer(h, n, a))
  {}

  lemma RefusalKeepsTimers(h: Host)
    requires Valid(h) && TimersKept(h)
    ensures TimersKept(OnLoginRequired(h))
  {}

  lemma AnswersKeepTimers(dh: Dh, h: Host, x: nat, g: Id, n: nat, pub: Option<Pub>)
    requires Valid(h) && TimersKept(h)
    ensures TimersKept(OnApproved(h, x, g)) && TimersKept(OnPeerLeft(h, g))
    ensures n < |h.sends| && h.sends[n].to == g ==> TimersKept(Settle(dh, h, g, n, pub, x))
  {}

  lemma RequestsKeepTimers(dh: Dh, h: Host, n: nat, to: Id, secret: Secret)
    requires Valid(h) && TimersKept(h)
    ensures TimersKept(Prepare(dh, h, to, secret))
    ensures n < |h.sends| && h.sends[n].token.Pending? && h.sends[n].idle ==>
              TimersKept(Request(h, n).0) && TimersKept(NoAuth(h, n))
  {}

  lemma StepKeepsTimers(dh: Dh, w: World, e: Event)
    requires Sound(w) && TimersKept(w.host)
    ensures TimersKept(Step(dh, w, e).host)
  {
    hide Valid, Prepare, OnPeerLeft, OnApproved, Settle, KeyTimer, RelayTimer, NoAuth, OnLoginRequired, Request, TimersKept;
    if Enabled(w, e) {
      match e {
        case Begin(to, secret) => RequestsKeepTimers(dh, w.host, 0, to, secret);
        case Ask(n) => RequestsKeepTimers(dh, w.host, n, 0, 0);
        case AuthFails(n) => RequestsKeepTimers(dh, w.host, n, 0, 0);
        case KeyTimeout(n) => TimersKeepTimers(w.host, n, 0);
        case RelayTimeout(n, a) => TimersKeepTimers(w.host, n, a);
        case PeerLeft(g) => AnswersKeepTimers(dh, w.host, 0, g, 0, None);
        case BadKey(_) =>
        case Deliver(i, verdict, secret) =>
          match w.flight[i] {
            case HostApproved(to, token) => AnswersKeepTimers(dh, w.host, token, to, 0, None);
            case Deriving(from, pub, token, n) => AnswersKeepTimers(dh, w.host, token, from, n, pub);
            case LoginRequired => RefusalKeepsTimers(w.host);
            case _ =>
          }
      }
    }
  }

  lemma {:induction false} AlwaysTimersKept(dh: Dh, es: seq<Event>)
    ensures TimersKept(Run(dh, es).host)
  {
    if es != [] {
      AlwaysTimersKept(dh, es[..|es| - 1]);
      StepKeepsTimers(dh, Run(dh, es[..|es| - 1]), es[|es| - 1]);
    }
  }

  /** In every run a key promise is orphaned if and only if it is pending, its timer
      is spent and the host is not making its key. */
  lemma OrphanedIff(dh: Dh, es: seq<Event>, n: nat)
    requires n < |Run(dh, es).host.sends|
    ensures var w := Run(dh, es);
            KeyOrphaned(w, n) <==> w.host.sends[n].key.Pending? && !w.host.sends[n].keyTimer && !UnderWay(w, n)
  {
    AlwaysTimersKept(dh, es);
  }

  /** In every run a key timer that fires on a pending promise rejects it if and only
      if some send to the same guest began and nothing has cleared the guest's
      entry since; otherwise it leaves an orphan, unless the host is making the
      key. */
  lemma KeyTimeoutRejectsIffWatched(dh: Dh, es: seq<Event>, n: nat)
    requires n < |Run(dh, es).host.sends|
    requires Run(dh, es).host.sends[n].keyTimer && Run(dh, es).host.sends[n].key.Pending?
    ensures var w, w' := Run(dh, es), Run(dh, es + [KeyTimeout(n)]);
            && (w'.host.sends[n].key == Rejected <==> Watched(dh, Keys, es, w.host.sends[n].to))
            && (KeyOrphaned(w', n) <==> !Watched(dh, Keys, es, w.host.sends[n].to) && !UnderWay(w, n))
  {
    var w := Run(dh, es);
    assert Valid(w.host);
    KeyTimerRejectsIffEntry(w.host, n);
    EntryIffWatched(dh, Keys, es, w.host.sends[n].to);
    RunStep(dh, es, KeyTimeout(n));
    hide Run, Watched, Sound, Valid, KeyTimer;
  }

  lemma TimersLeaveOrphans(h: Host, n: nat, m: nat, a: nat)
    requires Valid(h) && Spent(h, n) && m < |h.sends|
    ensures Spent(KeyTimer(h, m), n) && Spent(RelayTimer(h, m, a), n)
  {
    hide Valid;
  }

  /** The key of send `n` is pending and its timer is spent. */
  predicate Spent(h: Host, n: nat) {
    n < |h.sends| && h.sends[n].key.Pending? && !h.sends[n].keyTimer
  }

  lemma RequestsKeepSpent(dh: Dh, h: Host, n: nat, to: Id, x: nat, m: nat)
    requires Valid(h) && Spent(h, n)
    ensures Spent(Prepare(dh, h, to, x), n) && Spent(OnApproved(h, x, to), n) && Spent(OnPeerLeft(h, to), n)
    ensures m < |h.sends| && h.sends[m].token.Pending? && h.sends[m].idle ==>
              Spent(Request(h, m).0, n) && Spent(NoAuth(h, m), n)
  {}

  lemma RefusalKeepsSpent(h: Host, n: nat)
    requires Valid(h) && Spent(h, n)
    ensures Spent(OnLoginRequired(h), n)
  {}

  lemma SettlingKeepsSpent(dh: Dh, h: Host, n: nat, from: Id, m: nat, pub: Option<Pub>, source: Token)
    requires Valid(h) && Spent(h, n) && m < |h.sends| && h.sends[m].to == from && m != n
    ensures Spent(Settle(dh, h, from, m, pub, source), n)
  {}

  lemma OrphanKeepsItsKey(dh: Dh, w: World, e: Event, n: nat)
    requires Sound(w) && KeyOrphaned(w, n)
    ensures Spent(Step(dh, w, e).host, n)
  {
    assert Spent(w.host, n) && Valid(w.host);
    assert e.Deliver? && e.i in w.flight && w.flight[e.i].Deriving? ==> w.flight[e.i].send != n && Apt(w.host, w.flight[e.i]);
    hide Sound, Valid, KeyOrphaned, UnderWay, Dropped, Spent;
    hide Prepare, OnPeerLeft, OnApproved, Settle, KeyTimer, RelayTimer, NoAuth, OnLoginRequired, Request;
    if Enabled(w, e) {
      match e {
        case Begin(to, secret) => RequestsKeepSpent(dh, w.host, n, to, secret, 0);
        case Ask(m) => RequestsKeepSpent(dh, w.host, n, 0, 0, m);
        case AuthFails(m) => RequestsKeepSpent(dh, w.host, n, 0, 0, m);
        case KeyTimeout(m) => TimersLeaveOrphans(w.host, n, m, 0);
        case RelayTimeout(m, a) => TimersLeaveOrphans(w.host, n, m, a);
        case PeerLeft(g) => RequestsKeepSpent(dh, w.host, n, g, 0, 0);
        case BadKey(_) =>
        case Deliver(i, verdict, secret) =>
          match w.flight[i] {
            case HostApproved(to, token) => RequestsKeepSpent(dh, w.host, n, to, token, 0);
            case LoginRequired => RefusalKeepsSpent(w.host, n);
            case Deriving(from, pub, token, m) => SettlingKeepsSpent(dh, w.host, n, from, m, pub, token);
            case _ =>
          }
      }
    }
  }

  lemma OrphanIsNotMade(dh: Dh, w: World, e: Event, n: nat)
    requires Sound(w) && Dropped(w.host, n) && !UnderWay(w, n)
    ensures !UnderWay(Step(dh, w, e), n)
  {
    hide Valid, Apt, Prepare, OnPeerLeft, OnApproved, Settle, KeyTimer, RelayTimer, NoAuth, OnLoginRequired;
    assert forall i {:trigger w.flight[i]} :: i in w.flight && w.flight[i].Deriving? ==> w.flight[i].send != n;
  }

  /** Nothing that can still happen settles an orphan. */
  lemma OrphanStays(dh: Dh, es: seq<Event>, e: Event, n: nat)
    requires KeyOrphaned(Run(dh, es), n)
    ensures KeyOrphaned(Run(dh, es + [e]), n)
  {
    RunStep(dh, es, e);
    OrphanKeepsItsKey(dh, Run(dh, es), e, n);
    OrphanIsNotMade(dh, Run(dh, es), e, n);
    AlwaysTimersKept(dh, es + [e]);
    hide Run, Step, Sound, UnderWay, Dropped;
  }

  lemma {:induction false} OrphansStayForEver(dh: Dh, es: seq<Event>, later: seq<Event>, n: nat)
    requires KeyOrphaned(Run(dh, es), n)
    ensures KeyOrphaned(Run(dh, es + later), n)
  {
    hide Run, KeyOrphaned;
    if later == [] {
      assert es + later == es;
    } else {
      var init, e := later[..|later| - 1], later[|later| - 1];
      OrphansStayForEver(dh, es, init, n);
      assert es + later == es + init + [e];
      OrphanStays(dh, es + init, e, n);
    }
  }

  /** Why an entry of send `n`'s guest went without settling `n`: the guest left, the
      timer of another send to it fired, or the host made another send's key. */
  predicate KeyCause(w: World, e: Event, n: nat) {
    && n < |w.host.sends| && Clears(Keys, w, e, w.host.sends[n].to)
    && (e.KeyTimeout? ==> e.n != n)
    && (e.Deliver? ==> w.flight[e.i].send != n)
  }

  /** A pending key without its entry or its timer. */
  predicate KeyLoose(h: Host, n: nat) {
    n < |h.sends| && h.sends[n].key.Pending? && (!h.sends[n].keyTimer || h.sends[n].to !in h.pendingKeys)
  }

  lemma TimersLoosenOthers(h: Host, n: nat, m: nat, a: nat)
    requires Valid(h) && m < |h.sends| && !KeyLoose(h, n)
    ensures !KeyLoose(RelayTimer(h, m, a), n) && (KeyLoose(KeyTimer(h, m), n) ==>
              m != n && h.sends[m].keyTimer && n < |h.sends| && h.sends[m].to == h.sends[n].to)
  {}

  lemma RefusalLoosensNone(h: Host, n: nat)
    requires Valid(h) && !KeyLoose(h, n)
    ensures !KeyLoose(OnLoginRequired(h), n)
  {}

  lemma RequestsLoosenNone(dh: Dh, h: Host, n: nat, x: nat, g: Id, m: nat)
    requires Valid(h) && !KeyLoose(h, n)
    ensures !KeyLoose(OnApproved(h, x, g), n) && !KeyLoose(Prepare(dh, h, g, x), n)
  {}

  lemma AskLoosensNone(h: Host, n: nat, m: nat)
    requires Valid(h) && !KeyLoose(h, n) && m < |h.sends| && h.sends[m].token.Pending? && h.sends[m].idle
    ensures !KeyLoose(Request(h, m).0, n) && !KeyLoose(NoAuth(h, m), n)
  {
    hide Valid;
  }

  lemma SettlingLoosensOthers(dh: Dh, h: Host, n: nat, from: Id, m: nat, pub: Option<Pub>, source: Token)
    requires Valid(h) && m < |h.sends| && h.sends[m].to == from && !KeyLoose(h, n)
    ensures KeyLoose(Settle(dh, h, from, m, pub, source), n) ==> m != n && n < |h.sends| && from == h.sends[n].to
  {}

  lemma LeavingLoosensItsOwn(h: Host, n: nat, g: Id)
    requires Valid(h) && !KeyLoose(h, n)
    ensures KeyLoose(OnPeerLeft(h, g), n) ==> n < |h.sends| && h.sends[n].to == g
  {
    hide Valid;
  }

  lemma KeyStaysHeld(dh: Dh, w: World, e: Event, n: nat)
    requires Sound(w) && !KeyLoose(w.host, n) && !KeyCause(w, e, n)
    ensures !KeyLoose(Step(dh, w, e).host, n)
  {
    assert Valid(w.host);
    assert e.Deliver? && e.i in w.flight ==> Apt(w.host, w.flight[e.i]);
    hide Sound, Valid, KeyLoose;
    hide Prepare, OnPeerLeft, OnApproved, Settle, KeyTimer, RelayTimer, NoAuth, OnLoginRequired, Request;
    match e {
      case Begin(to, secret) => RequestsLoosenNone(dh, w.host, n, secret, to, 0);
      case Ask(m) => if Enabled(w, e) { AskLoosensNone(w.host, n, m); }
      case AuthFails(m) => if Enabled(w, e) { AskLoosensNone(w.host, n, m); }
      case KeyTimeout(m) => if m < |w.host.sends| { TimersLoosenOthers(w.host, n, m, 0); }
      case RelayTimeout(m, a) => if m < |w.host.sends| { TimersLoosenOthers(w.host, n, m, a); }
      case PeerLeft(g) => LeavingLoosensItsOwn(w.host, n, g);
      case BadKey(_) =>
      case Deliver(i, verdict, secret) =>
        if Enabled(w, e) {
          match w.flight[i] {
            case HostApproved(to, token) => RequestsLoosenNone(dh, w.host, n, token, to, 0);
            case LoginRequired => RefusalLoosensNone(w.host, n);
            case Deriving(from, pub, token, m) => SettlingLoosensOthers(dh, w.host, n, from, m, pub, token);
            case _ =>
          }
        }
    }
  }

  lemma KeyComesLoose(dh: Dh, w: World, e: Event, n: nat)
    requires Sound(w) && !KeyLoose(w.host, n) && KeyLoose(Step(dh, w, e).host, n)
    ensures KeyCause(w, e, n)
  {
    hide Sound, Step, KeyLoose, KeyCause;
    if !KeyCause(w, e, n) {
      KeyStaysHeld(dh, w, e, n);
    }
  }

  /** Every orphaned key has its cause in the run. */
  lemma {:induction false} WhyKeyOrphaned(dh: Dh, es: seq<Event>, n: nat) returns (j: nat)
    requires KeyLoose(Run(dh, es).host, n)
    ensures j < |es| && KeyCause(Run(dh, es[..j]), es[j], n)
  {
    assert es != [];
    hide Run, Step, Sound, SameSends, KeyLoose, KeyCause;
    var es0, e := es[..|es| - 1], es[|es| - 1];
    assert es == es0 + [e];
    RunStep(dh, es0, e);
    if KeyLoose(Run(dh, es0).host, n) {
      j := WhyKeyOrphaned(dh, es0, n);
      assert es0[..j] == es[..j];
    } else {
      j := |es| - 1;
      KeyComesLoose(dh, Run(dh, es0), e, n);
    }
  }

  // ----------------------------------------------------------- the request promise

  ghost predicate Unheld(h: Host, n: nat) {
    forall g {:trigger h.pendingRelay[g]} :: g in h.pendingRelay ==> h.pendingRelay[g].send != n
  }

  /** Send `n` asked, waits for its answer, its last request's timer is spent and no
      entry holds the promise. */
  ghost predicate TokenOrphaned(h: Host, n: nat) {
    && n < |h.sends| && h.sends[n].token.Pending? && !h.sends[n].idle
    && h.sends[n].asks !in h.sends[n].askTimers && Unheld(h, n)
  }

  /** Likewise for the timer of the request that send `n` waits for. */
  lemma RelayTimerRejectsIffEntry(h: Host, n: nat)
    requires Valid(h) && n < |h.sends| && h.sends[n].token.Pending? && !h.sends[n].idle
    requires h.sends[n].asks in h.sends[n].askTimers
    ensures var r := RelayTimer(h, n, h.sends[n].asks);
            && (r.sends[n].token == Rejected <==> h.sends[n].to in h.pendingRelay)
            && (TokenOrphaned(r, n) <==> h.sends[n].to !in h.pendingRelay)
  {}

  /** A request whose timer is spent leaves no entry behind. */
  ghost predicate RequestsKept(h: Host) {
    forall n :: (0 <= n < |h.sends| && h.sends[n].token.Pending? && !h.sends[n].idle
                 && h.sends[n].asks !in h.sends[n].askTimers) ==> Unheld(h, n)
  }

  lemma KeyTimerKeepsRequests(h: Host, n: nat)
    requires Valid(h) && RequestsKept(h) && n < |h.sends|
    ensures RequestsKept(KeyTimer(h, n))
  {
    hide Valid;
  }

  lemma RelayTimerKeepsRequests(h: Host, n: nat, a: nat)
    requires Valid(h) && RequestsKept(h) && n < |h.sends|
    ensures RequestsKept(RelayTimer(h, n, a))
  {}

  lemma RefusalKeepsRequests(h: Host)
    requires Valid(h) && RequestsKept(h)
    ensures RequestsKept(OnLoginRequired(h))
  {}

  lemma AnswersKeepRequests(dh: Dh, h: Host, x: nat, g: Id, n: nat, pub: Option<Pub>)
    requires Valid(h) && RequestsKept(h)
    ensures RequestsKept(OnApproved(h, x, g)) && RequestsKept(OnPeerLeft(h, g))
    ensures n < |h.sends| && h.sends[n].to == g ==> RequestsKept(Settle(dh, h, g, n, pub, x))
  {}

  lemma AsksKeepRequests(dh: Dh, h: Host, n: nat, to: Id, secret: Secret)
    requires Valid(h) && RequestsKept(h)
    ensures RequestsKept(Prepare(dh, h, to, secret))
    ensures n < |h.sends| && h.sends[n].token.Pending? && h.sends[n].idle ==>
              RequestsKept(Request(h, n).0) && RequestsKept(NoAuth(h, n))
  {}

  lemma StepKeepsRequests(dh: Dh, w: World, e: Event)
    requires Sound(w) && RequestsKept(w.host)
    ensures RequestsKept(Step(dh, w, e).host)
  {
    hide Valid, Prepare, OnPeerLeft, OnApproved, Settle, KeyTimer, RelayTimer, NoAuth, OnLoginRequired, Request, RequestsKept;
    if Enabled(w, e) {
      match e {
        case Begin(to, secret) => AsksKeepRequests(dh, w.host, 0, to, secret);
        case Ask(n) => AsksKeepRequests(dh, w.host, n, 0, 0);
        case AuthFails(n) => AsksKeepRequests(dh, w.host, n, 0, 0);
        case KeyTimeout(n) => KeyTimerKeepsRequests(w.host, n);
        case RelayTimeout(n, a) => RelayTimerKeepsRequests(w.host, n, a);
        case PeerLeft(g) => AnswersKeepRequests(dh, w.host, 0, g, 0, None);
        case BadKey(_) =>
        case Deliver(i, verdict, secret) =>
          match w.flight[i] {
            case HostApproved(to, token) => AnswersKeepRequests(dh, w.host, token, to, 0, None);
            case Deriving(from, pub, token, n) => AnswersKeepRequests(dh, w.host, token, from, n, pub);
            case LoginRequired => RefusalKeepsRequests(w.host);
            case _ =>
          }
      }
    }
  }

  lemma {:induction false} AlwaysRequestsKept(dh: Dh, es: seq<Event>)
    ensures RequestsKept(Run(dh, es).host)
  {
    if es != [] {
      AlwaysRequestsKept(dh, es[..|es| - 1]);
      StepKeepsRequests(dh, Run(dh, es[..|es| - 1]), es[|es| - 1]);
    }
  }

  /** In every run the timer of the request a send waits for rejects it if and only
      if the guest is watched; otherwise the promise is an orphan. */
  lemma RelayTimeoutRejectsIffWatched(dh: Dh, es: seq<Event>, n: nat)
    requires n < |Run(dh, es).host.sends|
    requires var s := Run(dh, es).host.sends[n]; s.token.Pending? && !s.idle && s.asks in s.askTimers
    ensures var w := Run(dh, es);
            var s, h' := w.host.sends[n], Run(dh, es + [RelayTimeout(n, w.host.sends[n].asks)]).host;
            && (h'.sends[n].token == Rejected <==> Watched(dh, Requests, es, s.to))
            && (TokenOrphaned(h', n) <==> !Watched(dh, Requests, es, s.to))
  {
    var w := Run(dh, es);
    assert Valid(w.host);
    RelayTimerRejectsIffEntry(w.host, n);
    EntryIffWatched(dh, Requests, es, w.host.sends[n].to);
    RunStep(dh, es, RelayTimeout(n, w.host.sends[n].asks));
    hide Run, Watched, Sound, Valid, RelayTimer, TokenOrphaned;
  }

  lemma TimersLeaveTokens(h: Host, n: nat, m: nat, a: nat)
    requires Valid(h) && TokenOrphaned(h, n) && m < |h.sends|
    ensures TokenOrphaned(KeyTimer(h, m), n) && TokenOrphaned(RelayTimer(h, m, a), n)
  {
    hide Valid;
  }

  lemma RefusalLeavesTokens(h: Host, n: nat)
    requires Valid(h) && TokenOrphaned(h, n)
    ensures TokenOrphaned(OnLoginRequired(h), n)
  {}

  lemma AnswersLeaveTokens(dh: Dh, h: Host, n: nat, x: nat, g: Id, m: nat, pub: Option<Pub>)
    requires Valid(h) && TokenOrphaned(h, n)
    ensures TokenOrphaned(OnApproved(h, x, g), n) && TokenOrphaned(OnPeerLeft(h, g), n)
    ensures m < |h.sends| && h.sends[m].to == g ==> TokenOrphaned(Settle(dh, h, g, m, pub, x), n)
  {}

  lemma RequestsLeaveTokens(dh: Dh, h: Host, n: nat, to: Id, secret: Secret, m: nat)
    requires Valid(h) && TokenOrphaned(h, n)
    ensures TokenOrphaned(Prepare(dh, h, to, secret), n)
    ensures m < |h.sends| && h.sends[m].token.Pending? && h.sends[m].idle ==>
              TokenOrphaned(Request(h, m).0, n) && TokenOrphaned(NoAuth(h, m), n)
  {}

  lemma OrphanedTokenStays(dh: Dh, w: World, e: Event, n: nat)
    requires Sound(w) && TokenOrphaned(w.host, n)
    ensures TokenOrphaned(Step(dh, w, e).host, n)
  {
    hide Valid, Prepare, OnPeerLeft, OnApproved, Settle, KeyTimer, RelayTimer, NoAuth, OnLoginRequired, Request, TokenOrphaned;
    if Enabled(w, e) {
      match e {
        case Begin(to, secret) => RequestsLeaveTokens(dh, w.host, n, to, secret, 0);
        case Ask(m) => RequestsLeaveTokens(dh, w.host, n, 0, 0, m);
        case AuthFails(m) => RequestsLeaveTokens(dh, w.host, n, 0, 0, m);
        case KeyTimeout(m) => TimersLeaveTokens(w.host, n, m, 0);
        case RelayTimeout(m, a) => TimersLeaveTokens(w.host, n, m, a);
        case PeerLeft(g) => AnswersLeaveTokens(dh, w.host, n, 0, g, 0, None);
        case BadKey(_) =>
        case Deliver(i, verdict, secret) =>
          match w.flight[i] {
            case HostApproved(to, token) => AnswersLeaveTokens(dh, w.host, n, token, to, 0, None);
            case Deriving(from, pub, token, m) => AnswersLeaveTokens(dh, w.host, n, token, from, m, pub);
            case LoginRequired => RefusalLeavesTokens(w.host, n);
            case _ =>
          }
      }
    }
  }

  /** Nothing that can still happen, an approval included, settles it. */
  lemma {:induction false} OrphanedTokensStayForEver(dh: Dh, es: seq<Event>, later: seq<Event>, n: nat)
    requires TokenOrphaned(Run(dh, es).host, n)
    ensures TokenOrphaned(Run(dh, es + later).host, n)
  {
    hide Run, Step, Sound, SameSends, TokenOrphaned;
    if later == [] {
      assert es + later == es;
    } else {
      var init, e := later[..|later| - 1], later[|later| - 1];
      OrphanedTokensStayForEver(dh, es, init, n);
      assert es + later == es + init + [e];
      RunStep(dh, es + init, e);
      OrphanedTokenStays(dh, Run(dh, es + init), e, n);
    }
  }

  /** Why an entry of send `n`'s guest went without answering `n`: the timer of another
      request to it fired, or an approval or a refusal answered another send. */
  predicate TokenCause(w: World, e: Event, n: nat) {
    && n < |w.host.sends| && Clears(Requests, w, e, w.host.sends[n].to)
    && (e.RelayTimeout? ==> e.n != n || e.a != w.host.sends[n].asks)
    && (e.Deliver? ==> w.host.sends[n].to in w.host.pendingRelay && w.host.pendingRelay[w.host.sends[n].to].send != n)
  }

  predicate TokenLoose(h: Host, n: nat) {
    && n < |h.sends| && h.sends[n].token.Pending? && !h.sends[n].idle
    && (h.sends[n].asks !in h.sends[n].askTimers || h.sends[n].to !in h.pendingRelay)
  }

  lemma AsksLoosenNone(dh: Dh, h: Host, n: nat, to: Id, secret: Secret, m: nat)
    requires Valid(h) && !TokenLoose(h, n)
    ensures !TokenLoose(Prepare(dh, h, to, secret), n) && !TokenLoose(OnPeerLeft(h, to), n)
    ensures m < |h.sends| && h.sends[m].token.Pending? && h.sends[m].idle ==>
              !TokenLoose(Request(h, m).0, n) && !TokenLoose(NoAuth(h, m), n)
  {}

  lemma SettlingLoosensNone(dh: Dh, h: Host, n: nat, from: Id, m: nat, pub: Option<Pub>, source: Token)
    requires Valid(h) && !TokenLoose(h, n) && m < |h.sends| && h.sends[m].to == from
    ensures !TokenLoose(Settle(dh, h, from, m, pub, source), n) && !TokenLoose(KeyTimer(h, m), n)
  {
    hide Valid;
  }

  /** Another request's timer, for the same guest. */
  lemma RelayTimerLoosensOthers(h: Host, n: nat, m: nat, a: nat)
    requires Valid(h) && m < |h.sends| && !TokenLoose(h, n)
    ensures TokenLoose(RelayTimer(h, m, a), n) ==>
              && n < |h.sends| && a in h.sends[m].askTimers && h.sends[m].to == h.sends[n].to
              && (m != n || a != h.sends[n].asks)
  {
    hide Valid;
  }

  /** An answer to another send to the same guest. */
  lemma AnswerLoosensOthers(h: Host, n: nat, token: Token, to: Id)
    requires Valid(h) && !TokenLoose(h, n)
    ensures TokenLoose(OnApproved(h, token, to), n) ==>
              n < |h.sends| && h.sends[n].to == to && to in h.pendingRelay && h.pendingRelay[to].send != n
  {}

  lemma RefusalLoosensOthers(h: Host, n: nat)
    requires Valid(h) && !TokenLoose(h, n)
    ensures TokenLoose(OnLoginRequired(h), n) ==>
              n < |h.sends| && h.sends[n].to in h.pendingRelay && h.pendingRelay[h.sends[n].to].send != n
  {}

  lemma TokenStaysHeld(dh: Dh, w: World, e: Event, n: nat)
    requires Sound(w) && !TokenLoose(w.host, n) && !TokenCause(w, e, n)
    ensures !TokenLoose(Step(dh, w, e).host, n)
  {
    assert Valid(w.host);
    assert e.Deliver? && e.i in w.flight ==> Apt(w.host, w.flight[e.i]);
    hide Sound, Valid, TokenLoose;
    hide Prepare, OnPeerLeft, OnApproved, Settle, KeyTimer, RelayTimer, NoAuth, OnLoginRequired, Request;
    match e {
      case Begin(to, secret) => AsksLoosenNone(dh, w.host, n, to, secret, 0);
      case Ask(m) => AsksLoosenNone(dh, w.host, n, 0, 0, m);
      case AuthFails(m) => AsksLoosenNone(dh, w.host, n, 0, 0, m);
      case KeyTimeout(m) => if m < |w.host.sends| { SettlingLoosensNone(dh, w.host, n, w.host.sends[m].to, m, None, 0); }
      case RelayTimeout(m, a) => if m < |w.host.sends| { RelayTimerLoosensOthers(w.host, n, m, a); }
      case PeerLeft(g) => AsksLoosenNone(dh, w.host, n, g, 0, 0);
      case BadKey(_) =>
      case Deliver(i, verdict, secret) =>
        if Enabled(w, e) {
          match w.flight[i] {
            case HostApproved(to, token) => AnswerLoosensOthers(w.host, n, token, to);
            case LoginRequired => RefusalLoosensOthers(w.host, n);
            case Deriving(from, pub, token, m) => SettlingLoosensNone(dh, w.host, n, from, m, pub, token);
            case _ =>
          }
        }
    }
  }

  lemma TokenComesLoose(dh: Dh, w: World, e: Event, n: nat)
    requires Sound(w) && !TokenLoose(w.host, n) && TokenLoose(Step(dh, w, e).host, n)
    ensures TokenCause(w, e, n)
  {
    hide Sound, Step, TokenLoose, TokenCause;
    if !TokenCause(w, e, n) {
      TokenStaysHeld(dh, w, e, n);
    }
  }

  /** Every orphaned request has its cause in the run. */
  lemma {:induction false} WhyTokenOrphaned(dh: Dh, es: seq<Event>, n: nat) returns (j: nat)
    requires TokenLoose(Run(dh, es).host, n)
    ensures j < |es| && TokenCause(Run(dh, es[..j]), es[j], n)
  {
    assert es != [];
    hide Run, Step, Sound, SameSends, TokenLoose, TokenCause;
    var es0, e := es[..|es| - 1], es[|es| - 1];
    assert es == es0 + [e];
    RunStep(dh, es0, e);
    if TokenLoose(Run(dh, es0).host, n) {
      j := WhyTokenOrphaned(dh, es0, n);
      assert es0[..j] == es[..j];
    } else {
      j := |es| - 1;
      TokenComesLoose(dh, Run(dh, es0), e, n);
    }
  }

  // ------------------------------------------------------------------ reachable runs

  /** A send whose token is there but whose key is orphaned. */
  ghost predicate Hung(w: World, n: nat) {
    KeyOrphaned(w, n) && w.host.sends[n].token.Resolved?
  }

  lemma TimersKeepTokens(h: Host, n: nat, m: nat, a: nat)
    requires Valid(h) && Tokened(h, n) && m < |h.sends|
    ensures Tokened(KeyTimer(h, m), n) && Tokened(RelayTimer(h, m, a), n)
  {
    hide Valid;
  }

  /** The token of send `n` is there. */
  predicate Tokened(h: Host, n: nat) {
    n < |h.sends| && h.sends[n].token.Resolved?
  }

  lemma RequestsKeepTokens(dh: Dh, h: Host, n: nat, to: Id, x: nat, m: nat)
    requires Valid(h) && Tokened(h, n)
    ensures Tokened(Prepare(dh, h, to, x), n) && Tokened(OnApproved(h, x, to), n) && Tokened(OnPeerLeft(h, to), n)
    ensures m < |h.sends| && h.sends[m].token.Pending? && h.sends[m].idle ==>
              Tokened(Request(h, m).0, n) && Tokened(NoAuth(h, m), n)
  {}

  lemma AnswersKeepTokens(dh: Dh, h: Host, n: nat, from: Id, m: nat, pub: Option<Pub>, source: Token)
    requires Valid(h) && Tokened(h, n)
    ensures Tokened(OnLoginRequired(h), n)
    ensures m < |h.sends| && h.sends[m].to == from ==> Tokened(Settle(dh, h, from, m, pub, source), n)
  {}

  lemma ResolvedTokenStays(dh: Dh, w: World, e: Event, n: nat)
    requires Sound(w) && Tokened(w.host, n)
    ensures Tokened(Step(dh, w, e).host, n)
  {
    assert Valid(w.host);
    assert e.Deliver? && e.i in w.flight ==> Apt(w.host, w.flight[e.i]);
    hide Sound, Valid, Tokened;
    hide Prepare, OnPeerLeft, OnApproved, Settle, KeyTimer, RelayTimer, NoAuth, OnLoginRequired, Request;
    if Enabled(w, e) {
      match e {
        case Begin(to, secret) => RequestsKeepTokens(dh, w.host, n, to, secret, 0);
        case Ask(m) => RequestsKeepTokens(dh, w.host, n, 0, 0, m);
        case AuthFails(m) => RequestsKeepTokens(dh, w.host, n, 0, 0, m);
        case KeyTimeout(m) => TimersKeepTokens(w.host, n, m, 0);
        case RelayTimeout(m, a) => TimersKeepTokens(w.host, n, m, a);
        case PeerLeft(g) => RequestsKeepTokens(dh, w.host, n, g, 0, 0);
        case BadKey(_) =>
        case Deliver(i, verdict, secret) =>
          match w.flight[i] {
            case HostApproved(to, token) => RequestsKeepTokens(dh, w.host, n, to, token, 0);
            case LoginRequired => AnswersKeepTokens(dh, w.host, n, 0, |w.host.sends|, None, 0);
            case Deriving(from, pub, token, m) => AnswersKeepTokens(dh, w.host, n, from, m, pub, token);
            case _ =>
          }
      }
    }
  }

  lemma HangStays(dh: Dh, es: seq<Event>, e: Event, n: nat)
    requires Hung(Run(dh, es), n)
    ensures Hung(Run(dh, es + [e]), n)
  {
    OrphanStays(dh, es, e, n);
    RunStep(dh, es, e);
    ResolvedTokenStays(dh, Run(dh, es), e, n);
    hide Run, Step, Sound, Dropped, UnderWay;
  }

  lemma HungIsUnsettled(w: World, n: nat)
    requires Hung(w, n)
    ensures n < |w.host.sends| && !w.host.sends[n].Settled()
  {}

  /** Its `sendFile` never returns. */
  lemma {:induction false} HangsForEver(dh: Dh, es: seq<Event>, later: seq<Event>, n: nat)
    requires Hung(Run(dh, es), n)
    ensures Hung(Run(dh, es + later), n) && !Run(dh, es + later).host.sends[n].Settled()
  {
    hide Run, Hung, Send.Settled;
    if later == [] {
      assert es + later == es;
    } else {
      var init, e := later[..|later| - 1], later[|later| - 1];
      HangsForEver(dh, es, init, n);
      assert es + later == es + init + [e];
      HangStays(dh, es + init, e, n);
    }
    HungIsUnsettled(Run(dh, es + later), n);
  }

  /** Approved, and then the guest leaves before it answers. */
  const LEAVES: seq<Event> := Q.ASKS + [Deliver(0, Approve(7), 0)] + [Deliver(1, Ignore, 0)] + [PeerLeft(1)] + [KeyTimeout(0)]

  const APPROVED: World := World(
    Host([Send(1, 10, Resolved(7), false, 1, Pending, None, true, {1})], map[1 := 0], map[], None),
    map[2 := GuestApproved(1, 7, Some(10))], 3, {7}, map[])

  lemma ApprovedRun()
    ensures Step(Q.Sum(), Step(Q.Sum(), Q.ASKED, Deliver(0, Approve(7), 0)), Deliver(1, Ignore, 0)) == APPROVED
  {
    Q.ServedRun();
    assert Q.SERVED.flight - {1} == map[2 := GuestApproved(1, 7, Some(10))];
    var h := OnApproved(Q.ASKED.host, 7, 1);
    assert h.sends == APPROVED.host.sends && h.pendingRelay == map[] && h == APPROVED.host;
    hide Sound, Valid, SameSends, OnApproved;
  }

  lemma LeftHanging()
    ensures Hung(Run(Q.Sum(), LEAVES), 0)
  {
    var dh := Q.Sum();
    assert Hung(Step(dh, Step(dh, APPROVED, PeerLeft(1)), KeyTimeout(0)), 0);
    hide Step, Q.Sum, Sound, SameSends, Q.ASKED, APPROVED, Hung;
    assert Run(dh, []) == NEW_WORLD;
    hide Run;
    Q.AskedRun();
    ApprovedRun();
    RunTwoSteps(dh, [], Begin(1, 10), Ask(0));
    RunTwoSteps(dh, Q.ASKS, Deliver(0, Approve(7), 0), Deliver(1, Ignore, 0));
    RunTwoSteps(dh, Q.ASKS + [Deliver(0, Approve(7), 0)] + [Deliver(1, Ignore, 0)], PeerLeft(1), KeyTimeout(0));
  }

  /** The first send's request times out, a second send begins, and the first send's
      key timer takes the second one's entry. */
  const STALE: seq<Event> := Q.ASKS + [RelayTimeout(0, 1)] + [Begin(1, 11)] + [KeyTimeout(0)] + [KeyTimeout(1)]

  const SECOND: World := World(
    Host([Send(1, 10, Rejected, false, 1, Pending, None, true, {}), Send(1, 11, Pending, true, 0, Pending, None, true, {})],
         map[1 := 1], map[], Some(11)),
    map[0 := RelayRequest(1, Some(10))], 1, {}, map[])

  const FIRST_FAILED: World := World(
    Host([Send(1, 10, Rejected, false, 1, Pending, None, true, {})], map[1 := 0], map[], None),
    map[0 := RelayRequest(1, Some(10))], 1, {}, map[])

  lemma FirstFailedRun()
    ensures Step(Q.Sum(), Q.ASKED, RelayTimeout(0, 1)) == FIRST_FAILED
  {
    var h := RelayTimer(Q.ASKED.host, 0, 1);
    assert {1} - {1} == {} && h.sends == FIRST_FAILED.host.sends && h.pendingRelay == map[] && h == FIRST_FAILED.host;
    hide Sound, Valid, SameSends, RelayTimer;
  }

  lemma SecondRun()
    ensures Step(Q.Sum(), Step(Q.Sum(), Q.ASKED, RelayTimeout(0, 1)), Begin(1, 11)) == SECOND
  {
    FirstFailedRun();
    var h := Prepare(Q.Sum(), FIRST_FAILED.host, 1, 11);
    assert h.sends == SECOND.host.sends && h.pendingKeys == map[1 := 1] && h == SECOND.host;
    hide Sound, Valid, SameSends, Prepare;
  }

  lemma StaleTimerOrphans()
    ensures KeyOrphaned(Run(Q.Sum(), STALE), 1)
  {
    var dh := Q.Sum();
    assert KeyOrphaned(Step(dh, Step(dh, SECOND, KeyTimeout(0)), KeyTimeout(1)), 1);
    hide Step, Q.Sum, Sound, SameSends, Q.ASKED, SECOND, KeyOrphaned;
    assert Run(dh, []) == NEW_WORLD;
    hide Run;
    Q.AskedRun();
    SecondRun();
    RunTwoSteps(dh, [], Begin(1, 10), Ask(0));
    RunTwoSteps(dh, Q.ASKS, RelayTimeout(0, 1), Begin(1, 11));
    RunTwoSteps(dh, Q.ASKS + [RelayTimeout(0, 1)] + [Begin(1, 11)], KeyTimeout(0), KeyTimeout(1));
  }

  /** Refused for want of a login, asked again, and the first request's timer takes
      the second one's entry. */
  const RETRIED: seq<Event> :=
    Q.ASKS + [Deliver(0, Deny, 0)] + [Deliver(1, Ignore, 0)] + [Ask(0)] + [RelayTimeout(0, 1)] + [RelayTimeout(0, 2)]

  const REFUSED: World := World(
    Host([Send(1, 10, Pending, true, 1, Pending, None, true, {1})], map[1 := 0], map[], None), map[], 2, {}, map[])

  lemma DeniedRun()
    ensures Step(Q.Sum(), Q.ASKED, Deliver(0, Deny, 0)) == Q.ASKED.(flight := map[1 := LoginRequired], next := 2)
  {
    Q.AskedRun();
    assert Q.ASKED.flight - {0} == map[];
    hide Sound, Valid, SameSends;
  }

  lemma RefusedRun()
    ensures Step(Q.Sum(), Step(Q.Sum(), Q.ASKED, Deliver(0, Deny, 0)), Deliver(1, Ignore, 0)) == REFUSED
  {
    DeniedRun();
    var w := Q.ASKED.(flight := map[1 := LoginRequired], next := 2);
    assert w.flight - {1} == map[];
    var h := OnLoginRequired(Q.ASKED.host);
    assert h.sends == REFUSED.host.sends && h == REFUSED.host;
    hide Sound, Valid, SameSends, OnLoginRequired;
  }

  lemma RetriedOrphans()
    ensures TokenOrphaned(Run(Q.Sum(), RETRIED).host, 0)
  {
    var dh := Q.Sum();
    var w := Step(dh, REFUSED, Ask(0));
    assert TokenOrphaned(Step(dh, Step(dh, w, RelayTimeout(0, 1)), RelayTimeout(0, 2)).host, 0);
    hide Step, Q.Sum, Sound, SameSends, Q.ASKED, REFUSED, TokenOrphaned;
    assert Run(dh, []) == NEW_WORLD;
    hide Run;
    Q.AskedRun();
    RefusedRun();
    RunTwoSteps(dh, [], Begin(1, 10), Ask(0));
    RunTwoSteps(dh, Q.ASKS, Deliver(0, Deny, 0), Deliver(1, Ignore, 0));
    RunStep(dh, Q.ASKS + [Deliver(0, Deny, 0)] + [Deliver(1, Ignore, 0)], Ask(0));
    RunTwoSteps(dh, Q.ASKS + [Deliver(0, Deny, 0)] + [Deliver(1, Ignore, 0)] + [Ask(0)], RelayTimeout(0, 1), RelayTimeout(0, 2));
  }
}
