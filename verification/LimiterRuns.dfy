/** Whole runs of the per-IP limiter: pruning idle entries cannot be observed. */
module LimiterRuns {
  import opened Limiter

  datatype Event =
    | Request(ip: string, now: real)
    | Prune(maxIdle: real, now: real)

  function Step(l: Limits, e: Event): Limits {
    match e
    case Request(ip, now) => AllowIp(l, ip, now)
    case Prune(maxIdle, now) => PruneIdle(l, maxIdle, now)
  }

  /** The limiter after a run of events that starts empty. */
  function After(rate: real, burst: nat, es: seq<Event>): Limits {
    if es == [] then Fresh(rate, burst) else Step(After(rate, burst, es[..|es| - 1]), es[|es| - 1])
  }

  /** The limiter's answer to the last request of `es`. */
  predicate Answer(rate: real, burst: nat, es: seq<Event>)
    requires es != [] && es[|es| - 1].Request?
  {
    var e := es[|es| - 1];
    Grants(BucketOf(After(rate, burst, es[..|es| - 1]), e.ip, e.now), e.now)
  }

  /** The instants at which `ip` was requested. */
  function Times(ip: string, es: seq<Event>): seq<real> {
    if es == [] then []
    else
      var e := es[|es| - 1];
      Times(ip, es[..|es| - 1]) + if e.Request? && e.ip == ip then [e.now] else []
  }

  /** The reference: one bucket per IP, created at its first request, never
      removed, and blind to every other IP. */
  function Private(rate: real, burst: nat, ip: string, es: seq<Event>): Run {
    var ts := Times(ip, es);
    Run(rate, burst as real, if ts == [] then 0.0 else ts[0], ts)
  }

  predicate PrivateAnswer(rate: real, burst: nat, es: seq<Event>)
    requires es != [] && es[|es| - 1].Request?
  {
    var run := Private(rate, burst, es[|es| - 1].ip, es);
    run.Granted(|run.times| - 1)
  }

  ghost predicate Timed(es: seq<Event>) {
    forall i, j :: 0 <= i <= j < |es| ==> es[i].now <= es[j].now
  }

  lemma {:induction false} TimesAreTimed(ip: string, es: seq<Event>)
    requires Timed(es)
    ensures forall t :: t in Times(ip, es) ==> es != [] && t <= es[|es| - 1].now
    ensures forall i, j :: 0 <= i <= j < |Times(ip, es)| ==> Times(ip, es)[i] <= Times(ip, es)[j]
  {
    if es != [] {
      var es0 := es[..|es| - 1];
      TimesAreTimed(ip, es0);
      if es0 != [] { assert es[|es| - 2].now <= es[|es| - 1].now; }
      var ts0 := Times(ip, es0);
      assert forall i :: 0 <= i < |ts0| ==> ts0[i] in ts0;
    }
  }

  lemma PrivateValid(rate: real, burst: nat, ip: string, es: seq<Event>)
    requires Timed(es) && rate >= 0.0
    ensures Private(rate, burst, ip, es).Valid()
  {
    TimesAreTimed(ip, es);
  }

  /** The bucket the reference holds after `es` (for an IP already seen). */
  function PrivateBucket(rate: real, burst: nat, ip: string, es: seq<Event>): Bucket {
    var run := Private(rate, burst, ip, es);
    run.After(|run.times|)
  }

  /** Every bucket still in the map is the reference's; every IP missing from it
      has a reference bucket that is full again by `now`. */
  ghost predicate Agrees(rate: real, burst: nat, es: seq<Event>, l: Limits, now: real) {
    && l.rate == rate && l.burst == burst
    && (forall ip :: ip in l.entries ==>
          && Times(ip, es) != []
          && l.entries[ip] == Entry(PrivateBucket(rate, burst, ip, es), Times(ip, es)[|Times(ip, es)| - 1]))
    && (forall ip :: ip !in l.entries && Times(ip, es) != [] ==>
          Level(PrivateBucket(rate, burst, ip, es), now) == burst as real)
  }

  lemma {:induction false} RunExtends(run: Run, t: real, n: nat)
    requires n <= |run.times|
    ensures run.(times := run.times + [t]).After(n) == run.After(n)
  {
    if n > 0 { RunExtends(run, t, n - 1); }
  }

  /** One more request of `ip` steps the reference bucket once. */
  lemma PrivateRequest(rate: real, burst: nat, es: seq<Event>, e: Event)
    requires e.Request? && es != [] && es[|es| - 1] == e
    ensures var ts := Times(e.ip, es[..|es| - 1]);
            var b := if ts == [] then Full(rate, burst as real, e.now)
                     else PrivateBucket(rate, burst, e.ip, es[..|es| - 1]);
            && PrivateAnswer(rate, burst, es) == Grants(b, e.now)
            && PrivateBucket(rate, burst, e.ip, es) == Asked(b, e.now)
  {
    hide Earned;
    var before := Private(rate, burst, e.ip, es[..|es| - 1]);
    if before.times != [] {
      RunExtends(before, e.now, |before.times|);
    }
  }

  lemma StaysFull(b: Bucket, t: real, u: real)
    requires b.rate >= 0.0 && b.lastRefilled <= t <= u && Level(b, t) == b.capacity
    ensures Level(b, u) == b.capacity
  {
    EarnedGrows(b.rate, t - b.lastRefilled, u - b.lastRefilled);
    hide Earned;
  }

  lemma IdleIsFull(run: Run, now: real, maxIdle: real)
    requires run.Valid() && run.times != []
    requires Earned(run.rate, maxIdle) >= run.capacity && maxIdle >= 0.0
    requires now - run.times[|run.times| - 1] > maxIdle
    ensures Level(run.After(|run.times|), now) == run.capacity
  {
    hide Earned;
    AfterShape(run, |run.times|);
    TokensStayInRange(run, |run.times|);
    EarnedGrows(run.rate, maxIdle, now - run.times[|run.times| - 1]);
  }

  /** The side condition on every prune of the run. */
  ghost predicate PrunesLate(rate: real, burst: nat, es: seq<Event>) {
    forall i :: 0 <= i < |es| && es[i].Prune? ==>
      es[i].maxIdle >= 0.0 && rate * es[i].maxIdle >= burst as real
  }

  lemma {:induction false} AgreesAlways(rate: real, burst: nat, es: seq<Event>)
    requires rate >= 0.0 && Timed(es) && es != [] && PrunesLate(rate, burst, es)
    ensures Agrees(rate, burst, es, After(rate, burst, es), es[|es| - 1].now)
    decreases |es|, 1
  {
    hide Agrees, AllowIp, PruneIdle, Times, PrivateBucket;
    AgreesBefore(rate, burst, es);
    if es[|es| - 1].Request? {
      AgreesAfterRequest(rate, burst, es, After(rate, burst, es[..|es| - 1]));
    } else {
      AgreesAfterPrune(rate, burst, es, After(rate, burst, es[..|es| - 1]));
    }
  }

  lemma {:induction false} AgreesBefore(rate: real, burst: nat, es: seq<Event>)
    requires rate >= 0.0 && Timed(es) && es != [] && PrunesLate(rate, burst, es)
    ensures Agrees(rate, burst, es[..|es| - 1], After(rate, burst, es[..|es| - 1]), es[|es| - 1].now)
    decreases |es|, 0
  {
    hide Earned, Level, PrivateBucket;
    var es0 := es[..|es| - 1];
    if es0 != [] {
      hide Agrees;
      AgreesAlways(rate, burst, es0);
      CatchUp(rate, burst, es0, After(rate, burst, es0), es0[|es0| - 1].now, es[|es| - 1].now);
    }
  }

  lemma AgreesAfterRequest(rate: real, burst: nat, es: seq<Event>, l: Limits)
    requires rate >= 0.0 && Timed(es) && es != [] && es[|es| - 1].Request?
    requires Agrees(rate, burst, es[..|es| - 1], l, es[|es| - 1].now)
    ensures Agrees(rate, burst, es, Step(l, es[|es| - 1]), es[|es| - 1].now)
  {
    hide Earned, Level, Asked, Grants, BucketOf, Times, PrivateBucket, PrivateAnswer;
    var es0, e := es[..|es| - 1], es[|es| - 1];
    PrivateRequest(rate, burst, es, e);
    AskedAlike(rate, burst, es0, l, e);
    TimesAfter(rate, burst, es);
  }

  lemma TimesAfter(rate: real, burst: nat, es: seq<Event>)
    requires es != []
    ensures var e := es[|es| - 1];
            forall ip :: !(e.Request? && e.ip == ip) ==>
              && Times(ip, es) == Times(ip, es[..|es| - 1])
              && PrivateBucket(rate, burst, ip, es) == PrivateBucket(rate, burst, ip, es[..|es| - 1])
    ensures var e := es[|es| - 1];
            e.Request? ==> Times(e.ip, es) == Times(e.ip, es[..|es| - 1]) + [e.now]
  {
    hide Earned, Level, Asked, Grants;
  }

  lemma AgreesAfterPrune(rate: real, burst: nat, es: seq<Event>, l: Limits)
    requires rate >= 0.0 && Timed(es) && es != [] && es[|es| - 1].Prune? && PrunesLate(rate, burst, es)
    requires Agrees(rate, burst, es[..|es| - 1], l, es[|es| - 1].now)
    ensures Agrees(rate, burst, es, Step(l, es[|es| - 1]), es[|es| - 1].now)
  {
    hide Earned, Level, Times;
    var e := es[|es| - 1];
    var l' := Step(l, e);
    TimesAfter(rate, burst, es);
    forall ip | ip !in l'.entries && Times(ip, es) != []
      ensures Level(PrivateBucket(rate, burst, ip, es), e.now) == burst as real
    {
      if ip in l.entries {
        PrivateValid(rate, burst, ip, es);
        EarnedIs(rate, e.maxIdle);
        IdleIsFull(Private(rate, burst, ip, es), e.now, e.maxIdle);
      }
    }
  }

  lemma CatchUp(rate: real, burst: nat, es: seq<Event>, l: Limits, t: real, u: real)
    requires rate >= 0.0 && Timed(es) && es != [] && t == es[|es| - 1].now && t <= u
    requires Agrees(rate, burst, es, l, t)
    ensures Agrees(rate, burst, es, l, u)
  {
    hide Earned, Level;
    forall ip | ip !in l.entries && Times(ip, es) != []
      ensures Level(PrivateBucket(rate, burst, ip, es), u) == burst as real
    {
      var run := Private(rate, burst, ip, es);
      TimesAreTimed(ip, es);
      AfterShape(run, |run.times|);
      assert run.times[|run.times| - 1] in Times(ip, es);
      StaysFull(run.After(|run.times|), t, u);
    }
  }

  lemma AskedAlike(rate: real, burst: nat, es: seq<Event>, l: Limits, e: Event)
    requires e.Request? && rate >= 0.0
    requires Agrees(rate, burst, es, l, e.now)
    ensures var b := if Times(e.ip, es) == [] then Full(rate, burst as real, e.now)
                     else PrivateBucket(rate, burst, e.ip, es);
            && Grants(BucketOf(l, e.ip, e.now), e.now) == Grants(b, e.now)
            && Asked(BucketOf(l, e.ip, e.now), e.now) == Asked(b, e.now)
  {
    EarnedNothing(rate);
    hide Earned;
    if e.ip !in l.entries && Times(e.ip, es) != [] {
      var run := Private(rate, burst, e.ip, es);
      AfterShape(run, |run.times|);
    }
  }

  /** With rate * maxIdle >= burst at every prune, the limiter answers as the
      family of private, never-pruned buckets does. */
  lemma PruningIsUnobservable(rate: real, burst: nat, es: seq<Event>)
    requires rate >= 0.0 && Timed(es) && PrunesLate(rate, burst, es)
    requires es != [] && es[|es| - 1].Request?
    ensures Answer(rate, burst, es) == PrivateAnswer(rate, burst, es)
  {
    hide Earned, Level, Asked, Grants;
    var es0, e := es[..|es| - 1], es[|es| - 1];
    var l := After(rate, burst, es0);
    if es0 == [] {
      assert Agrees(rate, burst, es0, l, e.now);
    } else {
      AgreesAlways(rate, burst, es0);
      CatchUp(rate, burst, es0, l, es0[|es0| - 1].now, e.now);
    }
    PrivateRequest(rate, burst, es, e);
    AskedAlike(rate, burst, es0, l, e);
  }

  /** How many of `ip`'s requests in [s, t] the pruned limiter grants. */
  function Admitted(rate: real, burst: nat, es: seq<Event>, ip: string, s: real, t: real): nat {
    if es == [] then 0
    else
      var e := es[|es| - 1];
      Admitted(rate, burst, es[..|es| - 1], ip, s, t)
      + if e.Request? && e.ip == ip && s <= e.now <= t && Answer(rate, burst, es) then 1 else 0
  }

  lemma {:induction false} GrantsExtend(run: Run, t: real, s: real, u: real, n: nat)
    requires n <= |run.times|
    ensures run.(times := run.times + [t]).GrantsWithin(s, u, n) == run.GrantsWithin(s, u, n)
  {
    if n > 0 {
      GrantsExtend(run, t, s, u, n - 1);
      RunExtends(run, t, n - 1);
    }
  }

  /** One more request adds its own answer to the reference's grants. */
  lemma PrivateGrants(rate: real, burst: nat, es: seq<Event>, s: real, t: real)
    requires es != [] && es[|es| - 1].Request?
    ensures var e := es[|es| - 1];
            var before, run := Private(rate, burst, e.ip, es[..|es| - 1]), Private(rate, burst, e.ip, es);
            run.GrantsWithin(s, t, |run.times|)
            == before.GrantsWithin(s, t, |before.times|)
               + if s <= e.now <= t && PrivateAnswer(rate, burst, es) then 1 else 0
  {
    hide Earned;
    var before := Private(rate, burst, es[|es| - 1].ip, es[..|es| - 1]);
    if before.times != [] {
      GrantsExtend(before, es[|es| - 1].now, s, t, |before.times|);
    }
  }

  lemma {:induction false} AdmittedAsPrivate(rate: real, burst: nat, es: seq<Event>, ip: string, s: real, t: real)
    requires rate >= 0.0 && Timed(es) && PrunesLate(rate, burst, es)
    ensures var run := Private(rate, burst, ip, es);
            Admitted(rate, burst, es, ip, s, t) == run.GrantsWithin(s, t, |run.times|)
  {
    if es != [] {
      hide Earned, Answer, PrivateAnswer;
      AdmittedAsPrivate(rate, burst, es[..|es| - 1], ip, s, t);
      if es[|es| - 1].Request? && es[|es| - 1].ip == ip {
        PruningIsUnobservable(rate, burst, es);
        PrivateGrants(rate, burst, es, s, t);
      } else {
        assert Times(ip, es) == Times(ip, es[..|es| - 1]);
      }
    }
  }

  /** The promise of the deployed limiter, entries coming and going: in any window
      no address is admitted more than burst + rate * (t - s) times. */
  lemma AddressWindowBound(rate: real, burst: nat, es: seq<Event>, ip: string, s: real, t: real)
    requires rate >= 0.0 && Timed(es) && PrunesLate(rate, burst, es) && s <= t
    ensures Admitted(rate, burst, es, ip, s, t) as real <= burst as real + rate * (t - s)
  {
    hide Earned, PrunesLate, Admitted, Run.GrantsWithin;
    AdmittedAsPrivate(rate, burst, es, ip, s, t);
    PrivateValid(rate, burst, ip, es);
    var run := Private(rate, burst, ip, es);
    assert run.rate == rate && run.capacity == burst as real;
    hide Private;
    WindowBound(run, s, t, |run.times|);
  }

  // ------------------------------------------------------------- who has an entry

  /** Event `i` is the last request of `ip`, and every prune since came at most its idle
      limit after it. */
  ghost predicate Recent(es: seq<Event>, ip: string, i: nat) {
    && i < |es| && es[i].Request? && es[i].ip == ip
    && forall k :: i < k < |es| ==>
         if es[k].Request? then es[k].ip != ip else es[k].now - es[i].now <= es[k].maxIdle
  }

  lemma RecentSnoc(es: seq<Event>, ip: string, i: nat)
    requires es != []
    ensures var e := es[|es| - 1];
            Recent(es, ip, i) <==>
            if i == |es| - 1 then e.Request? && e.ip == ip
            else Recent(es[..|es| - 1], ip, i)
                 && if e.Request? then e.ip != ip else e.now - es[i].now <= e.maxIdle
  {
    var es0 := es[..|es| - 1];
    assert forall k :: 0 <= k < |es0| ==> es0[k] == es[k];
  }

  /** In every run the limiter holds an entry for exactly the addresses whose last request no
      prune since found idle for longer than its limit. */
  lemma {:induction false} EntryIffRecent(rate: real, burst: nat, es: seq<Event>, ip: string)
    ensures var entries := After(rate, burst, es).entries;
            && (ip in entries <==> exists i: nat :: Recent(es, ip, i))
            && forall i: nat :: Recent(es, ip, i) && ip in entries ==> entries[ip].lastAccess == es[i].now
  {
    if es != [] {
      var es0, e, n := es[..|es| - 1], es[|es| - 1], |es| - 1;
      EntryIffRecent(rate, burst, es0, ip);
      forall i: nat ensures Recent(es, ip, i) <==>
            if i == n then e.Request? && e.ip == ip
            else Recent(es0, ip, i) && if e.Request? then e.ip != ip else e.now - es[i].now <= e.maxIdle
      {
        RecentSnoc(es, ip, i);
      }
      forall i: nat | Recent(es0, ip, i) ensures i < n && es0[i] == es[i] {}
      hide Recent, After, Asked, BucketOf;
      EntryAfter(rate, burst, es, ip);
    }
  }

  lemma EntryAfter(rate: real, burst: nat, es: seq<Event>, ip: string)
    requires es != []
    ensures var before, entries, e := After(rate, burst, es[..|es| - 1]).entries, After(rate, burst, es).entries, es[|es| - 1];
            if e.Request? && e.ip == ip then ip in entries && entries[ip].lastAccess == e.now
            else
              && (ip in entries <==> ip in before && (e.Prune? ==> e.now - before[ip].lastAccess <= e.maxIdle))
              && (ip in entries ==> entries[ip].lastAccess == before[ip].lastAccess)
  {
    hide Asked, BucketOf;
  }

  // ---------------------------------------------------------- exact condition

  /** No run with this idle limit can tell the pruned limiter from the reference. */
  ghost predicate Unobservable(rate: real, burst: nat, maxIdle: real) {
    forall es: seq<Event> ::
      Timed(es) && es != [] && es[|es| - 1].Request?
      && (forall i :: 0 <= i < |es| && es[i].Prune? ==> es[i].maxIdle == maxIdle)
      ==> Answer(rate, burst, es) == PrivateAnswer(rate, burst, es)
  }

  /** Drain the bucket at 0, prune at `t`, ask for a second full burst at `t`. */
  datatype Probe = Probe(rate: real, burst: nat, maxIdle: real, t: real) {
    predicate Valid() {
      rate >= 0.0 && burst > 0 && t >= 0.0 && t > maxIdle && rate * t < burst as real
    }

    function At(i: nat): Event {
      if i < burst then Request("ip", 0.0)
      else if i == burst then Prune(maxIdle, t)
      else Request("ip", t)
    }

    function Events(n: nat): seq<Event> {
      seq(n, i requires 0 <= i => At(i))
    }

    function Asks(n: nat): seq<real> {
      seq(if n <= burst then n else n - 1, i => if i < burst then 0.0 else t)
    }

    function Private(n: nat): Run {
      Run(rate, burst as real, 0.0, Asks(n))
    }
  }

  lemma {:induction false} ProbeTimes(p: Probe, n: nat)
    ensures Times("ip", p.Events(n)) == p.Asks(n)
  {
    if n > 0 {
      ProbeTimes(p, n - 1);
      assert p.Events(n)[..n - 1] == p.Events(n - 1);
      assert p.Events(n)[n - 1] == p.At(n - 1);
    }
  }

  lemma ProbeRun(p: Probe, n: nat)
    requires p.Valid()
    ensures Private(p.rate, p.burst, "ip", p.Events(n)) == p.Private(n)
    ensures Timed(p.Events(n)) && p.Private(n).Valid()
  {
    hide Earned;
    ProbeTimes(p, n);
  }

  /** The limiter after `n` events of the probe. */
  function Probed(p: Probe, n: nat): Limits
    requires n <= 2 * p.burst + 1
  {
    var held := (if n <= p.burst then p.burst - n else 2 * p.burst + 1 - n) as real;
    var last := if n <= p.burst then 0.0 else p.t;
    Limits(p.rate, p.burst, if n == 0 || n == p.burst + 1 then map[]
                            else map["ip" := Entry(Bucket(p.rate, p.burst as real, held, last), last)])
  }

  /** Asked at the instant of its last refill, a bucket with a token gives it away. */
  lemma ProbeAsks(l: Limits, held: nat, now: real)
    requires 0 < held <= l.burst
    requires BucketOf(l, "ip", now) == Bucket(l.rate, l.burst as real, held as real, now)
    ensures Grants(BucketOf(l, "ip", now), now)
    ensures AllowIp(l, "ip", now)
            == l.(entries := l.entries["ip" := Entry(Bucket(l.rate, l.burst as real, (held - 1) as real, now), now)])
  {
    EarnedNothing(l.rate);
    hide Earned, BucketOf;
  }

  lemma ProbeStep(p: Probe, n: nat)
    requires p.Valid() && n < 2 * p.burst + 1
    ensures Step(Probed(p, n), p.At(n)) == Probed(p, n + 1)
    ensures n != p.burst ==> Grants(BucketOf(Probed(p, n), "ip", p.At(n).now), p.At(n).now)
  {
    if n < p.burst {
      hide AllowIp, Earned;
      ProbeAsks(Probed(p, n), p.burst - n, 0.0);
    } else if n > p.burst {
      hide AllowIp, Earned;
      ProbeAsks(Probed(p, n), 2 * p.burst + 1 - n, p.t);
    } else {
      hide Earned;
    }
  }

  lemma {:induction false} ProbeLimits(p: Probe, n: nat)
    requires p.Valid() && n <= 2 * p.burst + 1
    ensures After(p.rate, p.burst, p.Events(n)) == Probed(p, n)
  {
    if n > 0 {
      ProbeLimits(p, n - 1);
      ProbeStep(p, n - 1);
      assert p.Events(n)[..n - 1] == p.Events(n - 1);
      assert p.Events(n)[n - 1] == p.At(n - 1);
      hide Step, Probed, Probe.Valid;
    } else {
      hide Probe.Valid;
    }
  }

  /** The pruned limiter grants both bursts. */
  lemma LimiterGrantsProbe(p: Probe, n: nat)
    requires p.Valid() && 0 < n <= 2 * p.burst + 1 && n != p.burst + 1
    ensures p.Events(n)[n - 1].Request? && Answer(p.rate, p.burst, p.Events(n))
  {
    ProbeLimits(p, n - 1);
    ProbeStep(p, n - 1);
    assert p.Events(n)[..n - 1] == p.Events(n - 1);
    assert p.Events(n)[n - 1] == p.At(n - 1);
    hide Probed, Grants, BucketOf, Step, After;
  }

  lemma {:induction false} AllWithin(run: Run, s: real, t: real, n: nat)
    requires n <= |run.times|
    requires forall i :: 0 <= i < n ==> s <= run.times[i] <= t && run.Granted(i)
    ensures run.GrantsWithin(s, t, n) == n
  {
    if n > 0 { AllWithin(run, s, t, n - 1); }
  }

  lemma {:induction false} SamePrefix(a: Run, b: Run, n: nat)
    requires n <= |a.times| && n <= |b.times| && a.(times := []) == b.(times := [])
    requires a.times[..n] == b.times[..n]
    ensures a.After(n) == b.After(n)
  {
    if n > 0 {
      assert a.times[..n - 1] == a.times[..n][..n - 1];
      assert b.times[..n - 1] == b.times[..n][..n - 1];
      assert a.times[n - 1] == a.times[..n][n - 1];
      SamePrefix(a, b, n - 1);
    }
  }

  lemma TwoBurstsAreTooMany(p: Probe, run: Run) returns (i: nat)
    requires run.Valid() && run.rate == p.rate && run.capacity == p.burst as real
    requires |run.times| == 2 * p.burst && p.t >= 0.0 && p.rate * p.t < p.burst as real
    requires forall j :: 0 <= j < 2 * p.burst ==> 0.0 <= run.times[j] <= p.t
    ensures i < |run.times| && !run.Granted(i)
  {
    hide Earned, Grants, Asked, Level;
    var n := 2 * p.burst;
    WindowBound(run, 0.0, p.t, n);
    assert p.t - 0.0 == p.t;
    assert n as real == p.burst as real + p.burst as real;
    assert run.GrantsWithin(0.0, p.t, n) < n;
    if forall j :: 0 <= j < n ==> run.Granted(j) {
      AllWithin(run, 0.0, p.t, n);
    }
    i :| 0 <= i < n && !run.Granted(i);
  }

  /** Were the reference to grant both bursts, it would break the window bound. */
  lemma ReferenceRefusal(p: Probe) returns (i: nat)
    requires p.Valid()
    ensures i < 2 * p.burst && |p.Asks(2 * p.burst + 1)| == 2 * p.burst
    ensures !p.Private(2 * p.burst + 1).Granted(i)
  {
    var run := p.Private(2 * p.burst + 1);
    assert p.rate * p.t < p.burst as real;
    hide Earned, Grants, Asked, Level;
    ProbeRun(p, 2 * p.burst + 1);
    assert |run.times| == 2 * p.burst;
    i := TwoBurstsAreTooMany(p, run);
  }

  lemma ReferenceRefusesProbe(p: Probe) returns (n: nat)
    requires p.Valid()
    ensures 0 < n <= 2 * p.burst + 1 && n != p.burst + 1
    ensures p.Events(n)[n - 1].Request? && !PrivateAnswer(p.rate, p.burst, p.Events(n))
  {
    var i := ReferenceRefusal(p);
    hide Earned, Grants, Asked, Level;
    n := if i < p.burst then i + 1 else i + 2;
    ProbeRun(p, n);
    SamePrefix(p.Private(n), p.Private(2 * p.burst + 1), i);
    assert p.Events(n)[n - 1] == p.At(n - 1);
  }

  /** An instant past the idle limit at which the refill is still short of a burst. */
  lemma ShortOfABurst(rate: real, burst: nat, maxIdle: real) returns (t: real)
    requires rate >= 0.0 && burst > 0 && rate * maxIdle < burst as real
    ensures t >= 0.0 && t > maxIdle && rate * t < burst as real
  {
    if maxIdle < 0.0 {
      t := 0.0;
    } else if rate == 0.0 {
      t := maxIdle + 1.0;
    } else {
      var b := burst as real;
      var spare := (b - maxIdle * rate) / rate;
      assert spare > 0.0 && spare * rate == b - maxIdle * rate;
      t := maxIdle + spare / 2.0;
      assert t * rate == maxIdle * rate + (b - maxIdle * rate) / 2.0;
    }
  }

  /** Pruning after `maxIdle` is unobservable exactly when an idle entry has
      refilled a whole burst by then. */
  lemma UnobservableIffRefilled(rate: real, burst: nat, maxIdle: real)
    requires rate >= 0.0 && burst > 0
    ensures Unobservable(rate, burst, maxIdle) <==> rate * maxIdle >= burst as real
  {
    if rate * maxIdle >= burst as real {
      RefilledIsUnobservable(rate, burst, maxIdle);
    } else {
      var t := ShortOfABurst(rate, burst, maxIdle);
      var p := Probe(rate, burst, maxIdle, t);
      ProbeIsObservable(p);
    }
  }

  lemma RefilledIsUnobservable(rate: real, burst: nat, maxIdle: real)
    requires rate >= 0.0 && burst > 0 && rate * maxIdle >= burst as real
    ensures Unobservable(rate, burst, maxIdle)
  {
    assert maxIdle >= 0.0;
    hide Earned, Answer, PrivateAnswer;
    forall es: seq<Event> | Timed(es) && es != [] && es[|es| - 1].Request?
      && (forall i :: 0 <= i < |es| && es[i].Prune? ==> es[i].maxIdle == maxIdle)
      ensures Answer(rate, burst, es) == PrivateAnswer(rate, burst, es)
    {
      PruningIsUnobservable(rate, burst, es);
    }
  }

  lemma ProbeIsObservable(p: Probe)
    requires p.Valid()
    ensures !Unobservable(p.rate, p.burst, p.maxIdle)
  {
    hide Earned, Answer, PrivateAnswer;
    var n := ReferenceRefusesProbe(p);
    LimiterGrantsProbe(p, n);
    ProbeRun(p, n);
    var es := p.Events(n);
    assert forall i :: 0 <= i < n ==> es[i] == p.At(i);
    assert Answer(p.rate, p.burst, es) != PrivateAnswer(p.rate, p.burst, es);
  }

  /** The limiters of the hub, the relay and the login endpoint: 2 tokens a
      second, bursts of 10, pruned after an idle hour. */
  lemma ServerLimitersMeetTheCondition()
    ensures Unobservable(2.0, 10, 3600.0)
  {
    UnobservableIffRefilled(2.0, 10, 3600.0);
  }
}
