/** Relay login: shared passwords exchanged for session tokens (server/auth.go). */
module Auth {
  import opened Common
  import opened Store

  datatype State = State(records: seq<Record>, sessions: map<string, int>)

  /** The parts of an AuthManager that never change. */
  datatype Setup = Setup(digest: Digest, tokenTTL: int)

  /** The second half of a login: `generated` is the random token, or none when the
      generator fails, in which case the password is spent all the same. */
  function Entered(su: Setup, s: State, generated: Option<string>, now: int): State {
    match generated
    case None => s
    case Some(token) => s.(sessions := s.sessions[token := now + su.tokenTTL])
  }

  /** A login: the password is checked at `checked`, the token dated at `now`. */
  function LoggedIn(su: Setup, s: State, password: string, checked: int, now: int, generated: Option<string>)
    : (State, Option<string>)
  {
    if Hit(su.digest, s.records, password, checked).None? then (s, None)
    else (Entered(su, s.(records := Spent(su.digest, s.records, password, checked)), generated, now), generated)
  }

  predicate IsValid(s: State, token: string, now: int) {
    token != "" && token in s.sessions && now <= s.sessions[token]
  }

  /** A token found expired is deleted on the spot. */
  function Validated(s: State, token: string, now: int): State {
    if token != "" && token in s.sessions && now > s.sessions[token] then s.(sessions := s.sessions - {token}) else s
  }

  function LiveSessions(sessions: map<string, int>, now: int): map<string, int> {
    map token | token in sessions && now <= sessions[token] :: sessions[token]
  }

  class AuthManager {
    const store: PasswordStore
    const tokenTTL: int
    var sessions: map<string, int>

    constructor (store: PasswordStore, tokenTTL: int)
      ensures this.store == store && this.tokenTTL == tokenTTL && sessions == map[]
    {
      this.store, this.tokenTTL := store, tokenTTL;
      sessions := map[];
    }

    ghost function View(): State
      reads this, store
    {
      State(store.records, sessions)
    }

    ghost function Its(): Setup
    {
      Setup(store.digest, tokenTTL)
    }

    method Login(password: string, checked: int, now: int, generated: Option<string>) returns (token: Option<string>)
      modifies this, store
      ensures (View(), token) == LoggedIn(Its(), old(View()), password, checked, now, generated)
    {
      var ok := store.Consume(password, checked);
      if !ok {
        return None;
      }
      if generated.None? {
        return None;
      }
      sessions := sessions[generated.value := now + tokenTTL];
      return generated;
    }

    method Validate(token: string, now: int) returns (ok: bool)
      modifies this
      ensures ok == IsValid(old(View()), token, now)
      ensures View() == Validated(old(View()), token, now)
    {
      if token == "" {
        return false;
      }
      if token !in sessions {
        return false;
      }
      if now > sessions[token] {
        sessions := sessions - {token};
        return false;
      }
      return true;
    }

    /** The sessions are swept at `now`, the store prunes itself at `later`. */
    method Prune(now: int, later: int)
      modifies this, store
      ensures View() == State(Pruned(old(store.records), later), LiveSessions(old(sessions), now))
    {
      ghost var was := sessions;
      var rest := sessions.Keys;
      while rest != {}
        invariant rest <= was.Keys && store.records == old(store.records)
        invariant sessions.Keys <= was.Keys
        invariant forall t :: t in was ==> (t in sessions <==> t in rest || now <= was[t])
        invariant forall t :: t in sessions ==> sessions[t] == was[t]
        decreases rest
      {
        var t :| t in rest;
        if now > sessions[t] {
          sessions := sessions - {t};
        }
        rest := rest - {t};
      }
      store.Prune(later);
    }
  }

  // ---------------------------------------------------------------------- runs

  /** `Login` checks a password; `Issue` enters the token of the `k`-th login, later
      and under another lock.  `Sweep` and `PruneStore` are the halves of a prune. */
  datatype Event =
    | Add(rec: Record, now: int)
    | Remove(id: string, now: int)
    | Consume(secret: string, now: int)
    | PruneStore(now: int)
    | Login(password: string, now: int)
    | Issue(k: nat, generated: Option<string>, now: int)
    | Validate(token: string, now: int)
    | Sweep(now: int)

  /** `waiting` says of each login whether its password was accepted and its token is
      still to be entered. */
  datatype World = World(s: State, waiting: seq<bool>)

  predicate Waits(w: World, k: nat) {
    k < |w.waiting| && w.waiting[k]
  }

  function Step(su: Setup, w: World, e: Event): World {
    var s := w.s;
    match e
    case Add(rec, _) => w.(s := s.(records := s.records + [rec]))
    case Remove(id, _) => w.(s := s.(records := Removed(s.records, id)))
    case Consume(secret, now) => w.(s := s.(records := Spent(su.digest, s.records, secret, now)))
    case PruneStore(now) => w.(s := s.(records := Pruned(s.records, now)))
    case Login(password, now) =>
      World(s.(records := Spent(su.digest, s.records, password, now)),
            w.waiting + [Hit(su.digest, s.records, password, now).Some?])
    case Issue(k, generated, now) =>
      if Waits(w, k) then World(Entered(su, s, generated, now), w.waiting[k := false]) else w
    case Validate(token, now) => w.(s := Validated(s, token, now))
    case Sweep(now) => w.(s := s.(sessions := LiveSessions(s.sessions, now)))
  }

  function Run(su: Setup, es: seq<Event>): World {
    if es == [] then World(State([], map[]), []) else Step(su, Run(su, es[..|es| - 1]), es[|es| - 1])
  }

  /** The methods are their steps, taken one right after the other: a login enters its token
      and hands it out if and only if its password was accepted, ... */
  lemma LoginIsItsSteps(su: Setup, w: World, password: string, checked: int, now: int, generated: Option<string>)
    ensures var k, (s', token) := |w.waiting|, LoggedIn(su, w.s, password, checked, now, generated);
            var w1 := Step(su, w, Login(password, checked));
            var w2 := Step(su, w1, Issue(k, generated, now));
            s' == w2.s && token == if Waits(w1, k) then generated else None
  {
    assert Hit(su.digest, w.s.records, password, checked).None? ==> Spent(su.digest, w.s.records, password, checked) == w.s.records;
    hide Hit, Spent;
  }

  /** ... and a prune sweeps the sessions and then prunes the store. */
  lemma PruneIsItsSteps(su: Setup, w: World, now: int, later: int)
    ensures Step(su, Step(su, w, Sweep(now)), PruneStore(later)).s
            == State(Pruned(w.s.records, later), LiveSessions(w.s.sessions, now))
  {}

  // -------------------------------------------------------- the password ledger

  /** Where one copy of a record goes in a step. */
  datatype Entry = Entry(added: nat, used: nat, removed: nat, pruned: nat)

  function Zero(): Entry { Entry(0, 0, 0, 0) }

  function Opened(su: Setup, s: State, e: Event): Option<Record> {
    match e
    case Consume(secret, now) => Hit(su.digest, s.records, secret, now)
    case Login(password, now) => Hit(su.digest, s.records, password, now)
    case _ => None
  }

  function Booked(su: Setup, s: State, e: Event, r: Record): Entry {
    match e
    case Add(rec, _) => Zero().(added := if rec == r then 1 else 0)
    case Remove(id, _) =>
      var i := Named(s.records, id);
      Zero().(removed := if i < |s.records| && s.records[i] == r then 1 else 0)
    case PruneStore(now) => Zero().(pruned := if Kept(r, now) then 0 else multiset(s.records)[r])
    case _ => Zero().(used := if Opened(su, s, e) == Some(r) then 1 else 0)
  }

  /** The totals for record `r` over a run. */
  function Ledger(su: Setup, es: seq<Event>, r: Record): Entry {
    if es == [] then Zero()
    else
      var t := Ledger(su, es[..|es| - 1], r);
      var b := Booked(su, Run(su, es[..|es| - 1]).s, es[|es| - 1], r);
      Entry(t.added + b.added, t.used + b.used, t.removed + b.removed, t.pruned + b.pruned)
  }

  lemma WithoutOne(rs: seq<Record>, i: nat)
    requires i < |rs|
    ensures multiset(Without(rs, i)) == multiset(rs) - multiset{rs[i]}
  {
    assert rs == rs[..i] + [rs[i]] + rs[i + 1..];
  }

  lemma {:induction false} PrunedCount(rs: seq<Record>, now: int, r: Record)
    ensures multiset(Pruned(rs, now))[r] == if Kept(r, now) then multiset(rs)[r] else 0
  {
    if rs != [] {
      PrunedCount(rs[..|rs| - 1], now, r);
      assert rs == rs[..|rs| - 1] + [rs[|rs| - 1]];
    }
  }

  lemma StepConserves(su: Setup, w: World, e: Event, r: Record)
    ensures var b := Booked(su, w.s, e, r);
            multiset(Step(su, w, e).s.records)[r] + b.removed + b.pruned + (if r.oneTime then b.used else 0)
            == multiset(w.s.records)[r] + b.added
  {
    var s := w.s;
    hide Opens, Kept, Hit, Spent, Pruned, Removed;
    match e
    case Remove(id, _) => RemoveConserves(s.records, id, r);
    case Consume(secret, now) => SpendConserves(su, s.records, secret, now, r);
    case Login(password, now) => SpendConserves(su, s.records, password, now, r);
    case PruneStore(now) => PrunedCount(s.records, now, r);
    case _ =>
  }

  lemma RemoveConserves(rs: seq<Record>, id: string, r: Record)
    ensures var i := Named(rs, id);
            multiset(Removed(rs, id))[r] + (if i < |rs| && rs[i] == r then 1 else 0) == multiset(rs)[r]
  {
    var i := Named(rs, id);
    if i < |rs| { WithoutOne(rs, i); }
  }

  lemma SpendConserves(su: Setup, rs: seq<Record>, secret: string, now: int, r: Record)
    ensures multiset(Spent(su.digest, rs, secret, now))[r]
            + (if r.oneTime && Hit(su.digest, rs, secret, now) == Some(r) then 1 else 0) == multiset(rs)[r]
  {
    hide Opens;
    var i := Find(su.digest, rs, secret, now);
    if secret != "" && i < |rs| { WithoutOne(rs, i); }
  }

  /** Every copy of a record ever added is still stored, or was removed, or was
      pruned, or (if it is one-time) was used: nothing is lost and nothing is
      used twice. */
  lemma {:induction false} RecordsAreConserved(su: Setup, es: seq<Event>, r: Record)
    ensures var l := Ledger(su, es, r);
            l.added == multiset(Run(su, es).s.records)[r] + l.removed + l.pruned + if r.oneTime then l.used else 0
  {
    if es != [] {
      RecordsAreConserved(su, es[..|es| - 1], r);
      hide Step, Booked;
      StepConserves(su, Run(su, es[..|es| - 1]), es[|es| - 1], r);
    }
  }

  /** Each added one-time record accounts for at most one successful use. */
  lemma OneTimeMeansOnce(su: Setup, es: seq<Event>, r: Record)
    requires r.oneTime
    ensures Ledger(su, es, r).used <= Ledger(su, es, r).added
  {
    RecordsAreConserved(su, es, r);
  }

  // ------------------------------------------------------------ session tokens

  ghost predicate Timed(es: seq<Event>) {
    forall i, j :: 0 <= i <= j < |es| ==> es[i].now <= es[j].now
  }

  /** Event `i` of the run enters `token`. */
  predicate Issues(su: Setup, es: seq<Event>, i: nat, token: string)
    requires i < |es|
  {
    es[i].Issue? && es[i].generated == Some(token) && Waits(Run(su, es[..i]), es[i].k)
  }

  /** Every token in the table was issued with the expiry it has there. */
  ghost predicate HeldWereIssued(su: Setup, es: seq<Event>) {
    var sessions := Run(su, es).s.sessions;
    forall token {:trigger token in sessions} :: token in sessions ==>
      exists i :: 0 <= i < |es| && Issues(su, es, i, token) && sessions[token] == es[i].now + su.tokenTTL
  }

  /** Every token issued is still in the table, unless its time has passed. */
  ghost predicate IssuedAreHeld(su: Setup, es: seq<Event>, clock: int) {
    var sessions := Run(su, es).s.sessions;
    forall i, token {:trigger Issues(su, es, i, token)} :: 0 <= i < |es| && Issues(su, es, i, token) ==>
      (token in sessions && es[i].now + su.tokenTTL <= sessions[token]) || clock > es[i].now + su.tokenTTL
  }

  lemma IssuesEarlier(su: Setup, es: seq<Event>, i: nat, token: string)
    requires i < |es| - 1
    ensures Issues(su, es, i, token) <==> Issues(su, es[..|es| - 1], i, token)
  {
    assert es[..|es| - 1][..i] == es[..i];
  }

  /** The token event `e` adds to the table, if any. */
  predicate Grants(w: World, e: Event, token: string) {
    e.Issue? && e.generated == Some(token) && Waits(w, e.k)
  }

  lemma SessionsAfter(su: Setup, w: World, e: Event)
    ensures var before, after := w.s.sessions, Step(su, w, e).s.sessions;
            && (forall token :: Grants(w, e, token) ==> token in after && after[token] == e.now + su.tokenTTL)
            && (forall token :: token in after && !Grants(w, e, token) ==>
                  token in before && after[token] == before[token])
            && (forall token :: token in before && !Grants(w, e, token) && token !in after ==> e.now > before[token])
  {
    hide Hit, Spent, Pruned, Removed;
  }

  lemma {:induction false} TableIsFaithful(su: Setup, es: seq<Event>)
    requires Timed(es) && es != []
    ensures HeldWereIssued(su, es) && IssuedAreHeld(su, es, es[|es| - 1].now)
  {
    var es0, e := es[..|es| - 1], es[|es| - 1];
    if es0 != [] {
      TableIsFaithful(su, es0);
      assert es0[|es0| - 1] == es[|es| - 2] && es[|es| - 2].now <= e.now;
    }
    assert HeldWereIssued(su, es0) && IssuedAreHeld(su, es0, e.now);
    hide HeldWereIssued, IssuedAreHeld;
    HeldAfter(su, es);
    IssuedAfter(su, es);
  }

  lemma HeldAfter(su: Setup, es: seq<Event>)
    requires es != [] && HeldWereIssued(su, es[..|es| - 1])
    ensures HeldWereIssued(su, es)
  {
    var es0, e := es[..|es| - 1], es[|es| - 1];
    var before, after := Run(su, es0).s.sessions, Run(su, es).s.sessions;
    SessionsAfter(su, Run(su, es0), e);
    hide Run, Step, Issues, Grants;
    forall token | token in after
      ensures exists i :: 0 <= i < |es| && Issues(su, es, i, token) && after[token] == es[i].now + su.tokenTTL
    {
      LastIssue(su, es, token);
      if !Issues(su, es, |es| - 1, token) {
        var i :| 0 <= i < |es0| && Issues(su, es0, i, token) && before[token] == es0[i].now + su.tokenTTL;
        IssuesEarlier(su, es, i, token);
        assert es0[i] == es[i];
      }
    }
  }

  lemma IssuedAfter(su: Setup, es: seq<Event>)
    requires Timed(es) && es != [] && IssuedAreHeld(su, es[..|es| - 1], es[|es| - 1].now)
    ensures IssuedAreHeld(su, es, es[|es| - 1].now)
  {
    var es0, e := es[..|es| - 1], es[|es| - 1];
    var after := Run(su, es).s.sessions;
    SessionsAfter(su, Run(su, es0), e);
    hide Run, Step, Issues, Grants;
    forall i, token | 0 <= i < |es| && Issues(su, es, i, token)
      ensures (token in after && es[i].now + su.tokenTTL <= after[token]) || e.now > es[i].now + su.tokenTTL
    {
      LastIssue(su, es, token);
      if i < |es| - 1 {
        IssuesEarlier(su, es, i, token);
        assert es0[i] == es[i] && es[i].now <= e.now;
      }
    }
  }

  lemma LastIssue(su: Setup, es: seq<Event>, token: string)
    requires es != []
    ensures Issues(su, es, |es| - 1, token) == Grants(Run(su, es[..|es| - 1]), es[|es| - 1], token)
  {}

  /** A token is accepted exactly when some login was handed it no longer than its
      lifetime ago: lazy and eager deletion of expired sessions cannot be seen. */
  lemma TokenValidIffIssued(su: Setup, es: seq<Event>, token: string, now: int)
    requires Timed(es) && (es != [] ==> es[|es| - 1].now <= now)
    ensures IsValid(Run(su, es).s, token, now) <==>
            token != "" && exists i :: 0 <= i < |es| && Issues(su, es, i, token) && now <= es[i].now + su.tokenTTL
  {
    if es != [] { TableIsFaithful(su, es); }
  }

  /** After a sweep the table holds exactly the tokens issued no longer than their lifetime
      ago; and after a token was tried, it is held exactly if it was. */
  lemma SweptTableIff(su: Setup, es: seq<Event>, e: Event, token: string)
    requires Timed(es + [e]) && (e.Sweep? || (e.Validate? && e.token == token != ""))
    ensures token in Run(su, es + [e]).s.sessions <==>
            exists i :: 0 <= i < |es| && Issues(su, es, i, token) && e.now <= es[i].now + su.tokenTTL
  {
    var all := es + [e];
    assert all[..|es|] == es && all[|es|] == e;
    TableIsFaithful(su, all);
    forall i | 0 <= i < |es| ensures Issues(su, all, i, token) <==> Issues(su, es, i, token) {
      IssuesEarlier(su, all, i, token);
    }
    assert forall i :: 0 <= i < |es| ==> all[i] == es[i];
    var sessions := Run(su, all).s.sessions;
    assert token in sessions ==> e.now <= sessions[token];
    assert !Issues(su, all, |es|, token);
    hide Run, Issues;
  }

  /** Event `j`, the `k`-th login, checked a password that fits a record then stored. */
  ghost predicate AcceptedAt(su: Setup, es: seq<Event>, j: nat, k: nat) {
    && j < |es| && es[j].Login? && |Run(su, es[..j]).waiting| == k
    && exists r :: r in Run(su, es[..j]).s.records && Fits(su.digest, r, es[j].password, es[j].now)
  }

  lemma {:induction false} WaitingWasAccepted(su: Setup, es: seq<Event>, k: nat) returns (j: nat)
    requires Waits(Run(su, es), k)
    ensures AcceptedAt(su, es, j, k)
    ensures forall i :: j < i < |es| ==> !(es[i].Issue? && es[i].k == k)
  {
    assert es != [];
    hide Hit, Spent, Pruned, Removed, Validated, Entered, Fits;
    var es0, e := es[..|es| - 1], es[|es| - 1];
    assert Run(su, es) == Step(su, Run(su, es0), e);
    if Waits(Run(su, es0), k) {
      j := WaitingWasAccepted(su, es0, k);
      assert es0[..j] == es[..j];
      assert forall i :: 0 <= i < |es0| ==> es0[i] == es[i];
    } else {
      j := |es0|;
      OpensNone(su.digest, Run(su, es0).s.records, e.password, e.now);
    }
  }

  lemma {:induction false} AcceptedWaits(su: Setup, es: seq<Event>, k: nat, j: nat)
    requires AcceptedAt(su, es, j, k) && forall i :: j < i < |es| ==> !(es[i].Issue? && es[i].k == k)
    ensures Waits(Run(su, es), k)
  {
    hide Hit, Spent, Pruned, Removed, Validated, Entered, Fits;
    var es0, e := es[..|es| - 1], es[|es| - 1];
    assert Run(su, es) == Step(su, Run(su, es0), e);
    if j < |es0| {
      assert es0[..j] == es[..j];
      assert forall i :: 0 <= i < |es0| ==> es0[i] == es[i];
      AcceptedWaits(su, es0, k, j);
    } else {
      OpensNone(su.digest, Run(su, es0).s.records, e.password, e.now);
    }
  }

  /** A login's token is still to be entered if and only if its password was accepted and
      nothing was entered for it since. */
  lemma WaitsIffAccepted(su: Setup, es: seq<Event>, k: nat)
    ensures Waits(Run(su, es), k) <==>
            exists j: nat :: AcceptedAt(su, es, j, k) && forall i :: j < i < |es| ==> !(es[i].Issue? && es[i].k == k)
  {
    hide Run, AcceptedAt;
    if Waits(Run(su, es), k) {
      var j := WaitingWasAccepted(su, es, k);
    }
    forall j: nat | AcceptedAt(su, es, j, k) && forall i :: j < i < |es| ==> !(es[i].Issue? && es[i].k == k)
      ensures Waits(Run(su, es), k)
    {
      AcceptedWaits(su, es, k, j);
    }
  }

  /** Behind every token entered is an earlier login with a password that the store
      accepted, ... */
  lemma TokensAreEarned(su: Setup, es: seq<Event>, i: nat, token: string) returns (j: nat)
    requires i < |es| && Issues(su, es, i, token)
    ensures j < i && AcceptedAt(su, es, j, es[i].k)
  {
    j := WaitingWasAccepted(su, es[..i], es[i].k);
    assert es[..i][..j] == es[..j];
    hide Run;
  }

  lemma {:induction false} SpentStaysSpent(su: Setup, es: seq<Event>, n: nat, k: nat)
    requires n <= |es| && k < |Run(su, es[..n]).waiting| && !Waits(Run(su, es[..n]), k)
    ensures k < |Run(su, es).waiting| && !Waits(Run(su, es), k)
  {
    if n == |es| {
      assert es[..n] == es;
    } else {
      var es0 := es[..|es| - 1];
      assert es0[..n] == es[..n];
      SpentStaysSpent(su, es0, n, k);
      hide Hit, Spent, Pruned, Removed, Validated, Entered;
    }
  }

  /** ... and no login earns two tokens. */
  lemma OneTokenALogin(su: Setup, es: seq<Event>, i: nat, token: string, i': nat, token': string)
    requires i < i' < |es| && Issues(su, es, i, token) && Issues(su, es, i', token')
    ensures es[i].k != es[i'].k
  {
    var k := es[i].k;
    assert es[..i + 1][..i] == es[..i];
    assert Run(su, es[..i + 1]) == Step(su, Run(su, es[..i]), es[i]);
    assert es[..i'][..i + 1] == es[..i + 1];
    SpentStaysSpent(su, es[..i'], i + 1, k);
  }
}
