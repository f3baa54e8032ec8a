/** Token bucket and per-IP limiter (server/limiter.go).

    Times are real seconds on a clock that never goes back; float64 is modelled
    by `real`.  A run of one bucket is the sequence of instants at which it was
    asked; the answers are a function of that sequence. */
module Limiter {

  // ---------------------------------------------------------------- one bucket

  datatype Bucket = Bucket(rate: real, capacity: real, tokens: real, lastRefilled: real)

  function Full(rate: real, capacity: real, now: real): Bucket {
    Bucket(rate, capacity, capacity, now)
  }

  /** Tokens earned in `elapsed` seconds, before the cap. */
  function Earned(rate: real, elapsed: real): real {
    elapsed * rate
  }

  /** Tokens at `now`, after the capped refill and before the decision. */
  function Level(b: Bucket, now: real): real {
    var t := b.tokens + Earned(b.rate, now - b.lastRefilled);
    if t > b.capacity then b.capacity else t
  }

  predicate Grants(b: Bucket, now: real) {
    Level(b, now) >= 1.0
  }

  function Asked(b: Bucket, now: real): Bucket {
    b.(tokens := if Grants(b, now) then Level(b, now) - 1.0 else Level(b, now), lastRefilled := now)
  }

  class TokenBucket {
    const rate: real
    const capacity: real
    var tokens: real
    var lastRefilled: real

    ghost function View(): Bucket
      reads this
    {
      Bucket(rate, capacity, tokens, lastRefilled)
    }

    constructor (rate: real, capacity: nat, now: real)
      ensures View() == Full(rate, capacity as real, now)
    {
      this.rate := rate;
      this.capacity := capacity as real;
      this.tokens := capacity as real;
      this.lastRefilled := now;
    }

    method Allow(now: real) returns (ok: bool)
      modifies this`tokens, this`lastRefilled
      ensures ok == Grants(old(View()), now)
      ensures View() == Asked(old(View()), now)
    {
      var elapsed := now - lastRefilled;
      lastRefilled := now;
      tokens := tokens + Earned(rate, elapsed);
      if tokens > capacity {
        tokens := capacity;
      }
      if tokens >= 1.0 {
        tokens := tokens - 1.0;
        return true;
      }
      return false;
    }
  }

  // --------------------------------------------------------- runs of one bucket

  /** A bucket created full at `created` and asked at each of `times`. */
  datatype Run = Run(rate: real, capacity: real, created: real, times: seq<real>) {
    ghost predicate Valid() {
      && rate >= 0.0 && capacity >= 0.0
      && (forall i :: 0 <= i < |times| ==> created <= times[i])
      && (forall i, j :: 0 <= i <= j < |times| ==> times[i] <= times[j])
    }

    /** The bucket after the first `n` requests. */
    function After(n: nat): Bucket
      requires n <= |times|
    {
      if n == 0 then Full(rate, capacity, created) else Asked(After(n - 1), times[n - 1])
    }

    /** The answer to request `n`. */
    predicate Granted(n: nat)
      requires n < |times|
    {
      Grants(After(n), times[n])
    }

    /** How many of the requests `i..j` were granted. */
    function GrantsIn(i: nat, j: nat): nat
      requires j <= |times|
    {
      if j <= i then 0 else GrantsIn(i, j - 1) + if Granted(j - 1) then 1 else 0
    }

    /** How many of the first `n` requests were granted at an instant in [s, t]. */
    function GrantsWithin(s: real, t: real, n: nat): nat
      requires n <= |times|
    {
      if n == 0 then 0
      else GrantsWithin(s, t, n - 1) + if s <= times[n - 1] <= t && Granted(n - 1) then 1 else 0
    }

    /** What the window from request `i` to request `n` leaves, were it to spend
        the whole capacity and everything refilled since. */
    function Room(i: nat, n: nat): real
      requires i <= n < |times|
    {
      capacity + rate * (times[n] - times[i]) - GrantsIn(i, n) as real
    }
  }

  lemma EarnedIs(rate: real, elapsed: real)
    ensures Earned(rate, elapsed) == rate * elapsed
  {}

  lemma EarnedAdds(rate: real, a: real, b: real)
    ensures Earned(rate, a + b) == Earned(rate, a) + Earned(rate, b)
  {}

  lemma EarnedNothing(rate: real)
    ensures Earned(rate, 0.0) == 0.0
  {}

  lemma EarnedGrows(rate: real, a: real, b: real)
    requires rate >= 0.0 && 0.0 <= a <= b
    ensures 0.0 <= Earned(rate, a) <= Earned(rate, b)
  {
    Product(a, rate);
    Product(b - a, rate);
    assert (b - a) * rate == b * rate - a * rate;
  }

  lemma Product(x: real, y: real)
    requires x >= 0.0 && y >= 0.0
    ensures x * y >= 0.0
  {}

  lemma {:induction false} AfterShape(run: Run, n: nat)
    requires n <= |run.times|
    ensures var b := run.After(n);
            b.rate == run.rate && b.capacity == run.capacity
            && b.lastRefilled == if n == 0 then run.created else run.times[n - 1]
  {
    hide Earned;
    if n > 0 { AfterShape(run, n - 1); }
  }

  /** Tokens never leave [0, capacity]. */
  lemma {:induction false} TokensStayInRange(run: Run, n: nat)
    requires run.Valid() && n <= |run.times|
    ensures 0.0 <= run.After(n).tokens <= run.capacity
  {
    hide Earned;
    if n > 0 {
      TokensStayInRange(run, n - 1);
      AfterShape(run, n - 1);
      var b := run.After(n - 1);
      EarnedGrows(run.rate, 0.0, run.times[n - 1] - b.lastRefilled);
    }
  }

  lemma StepLevel(run: Run, n: nat)
    requires run.Valid() && 0 < n < |run.times|
    ensures var spent := if run.Granted(n - 1) then 1.0 else 0.0;
            var t := Level(run.After(n - 1), run.times[n - 1]) - spent
                     + Earned(run.rate, run.times[n] - run.times[n - 1]);
            Level(run.After(n), run.times[n]) == if t > run.capacity then run.capacity else t
  {
    hide Earned;
    AfterShape(run, n - 1);
    AfterShape(run, n);
  }

  lemma RoomIs(run: Run, i: nat, n: nat)
    requires i <= n < |run.times|
    ensures run.Room(i, n) == run.capacity + Earned(run.rate, run.times[n] - run.times[i]) - run.GrantsIn(i, n) as real
  {
    hide Run.GrantsIn;
    var elapsed := run.times[n] - run.times[i];
    assert run.Room(i, n) == run.capacity + run.rate * elapsed - run.GrantsIn(i, n) as real;
    hide Run.Room;
    EarnedIs(run.rate, elapsed);
    hide Earned;
  }

  lemma StepRoom(run: Run, i: nat, n: nat)
    requires run.Valid() && i < n < |run.times|
    ensures run.Room(i, n) == run.Room(i, n - 1) - (if run.Granted(n - 1) then 1.0 else 0.0)
                              + Earned(run.rate, run.times[n] - run.times[n - 1])
  {
    hide Earned, Run.Room, Run.Granted;
    RoomIs(run, i, n);
    RoomIs(run, i, n - 1);
    EarnedAdds(run.rate, run.times[n - 1] - run.times[i], run.times[n] - run.times[n - 1]);
  }

  lemma RoomNow(run: Run, n: nat)
    requires n < |run.times|
    ensures run.Room(n, n) == run.capacity
  {}

  /** The level the bucket tracks in O(1) is the tightest of all the windows that
      end at this request. */
  lemma {:induction false} LevelIsTightestWindow(run: Run, n: nat)
    requires run.Valid() && n < |run.times|
    ensures forall i :: 0 <= i <= n ==> Level(run.After(n), run.times[n]) <= run.Room(i, n)
    ensures exists i :: 0 <= i <= n && Level(run.After(n), run.times[n]) == run.Room(i, n)
  {
    hide Earned, Run.Room;
    var level := Level(run.After(n), run.times[n]);
    RoomNow(run, n);
    if n == 0 {
      EarnedGrows(run.rate, 0.0, run.times[0] - run.created);
      assert level == run.Room(0, 0);
    } else {
      LevelIsTightestWindow(run, n - 1);
      StepLevel(run, n);
      var before := Level(run.After(n - 1), run.times[n - 1]);
      forall i | 0 <= i <= n ensures level <= run.Room(i, n) {
        if i < n { StepRoom(run, i, n); }
      }
      var k :| 0 <= k <= n - 1 && before == run.Room(k, n - 1);
      StepRoom(run, k, n);
      assert level == run.Room(k, n) || level == run.Room(n, n);
    }
  }

  /** Request `n` is granted exactly when every window ending now has room for
      one more grant: the bucket neither over-admits nor refuses a request it
      could have admitted. */
  lemma GrantedIffEveryWindowHasRoom(run: Run, n: nat)
    requires run.Valid() && n < |run.times|
    ensures run.Granted(n) <==>
            forall i :: 0 <= i <= n ==>
              run.GrantsIn(i, n) as real + 1.0 <= run.capacity + run.rate * (run.times[n] - run.times[i])
  {
    assert run.Granted(n) <==> Level(run.After(n), run.times[n]) >= 1.0;
    hide Earned, Run.Granted, Run.After, Level, Run.GrantsIn;
    LevelIsTightestWindow(run, n);
    assert forall i :: 0 <= i <= n ==>
      run.Room(i, n) == run.capacity + run.rate * (run.times[n] - run.times[i]) - run.GrantsIn(i, n) as real;
    hide Run.Room;
  }

  lemma {:induction false} NoGrantsBefore(run: Run, s: real, t: real, n: nat)
    requires run.Valid() && n <= |run.times| && (n > 0 ==> run.times[n - 1] < s)
    ensures run.GrantsWithin(s, t, n) == 0
  {
    hide Earned;
    if n > 0 { NoGrantsBefore(run, s, t, n - 1); }
  }

  lemma {:induction false} WindowPotential(run: Run, s: real, t: real, n: nat)
    requires run.Valid() && 0 < n <= |run.times| && s <= run.times[n - 1] <= t
    ensures run.GrantsWithin(s, t, n) as real + run.After(n).tokens
            <= run.capacity + Earned(run.rate, run.times[n - 1] - s)
  {
    hide Earned;
    AfterShape(run, n - 1);
    var now := run.times[n - 1];
    if n == 1 || run.times[n - 2] < s {
      NoGrantsBefore(run, s, t, n - 1);
      EarnedGrows(run.rate, 0.0, now - s);
    } else {
      WindowPotential(run, s, t, n - 1);
      EarnedAdds(run.rate, run.times[n - 2] - s, now - run.times[n - 2]);
    }
  }

  lemma {:induction false} WithinEarned(run: Run, s: real, t: real, n: nat)
    requires run.Valid() && n <= |run.times| && s <= t
    ensures run.GrantsWithin(s, t, n) as real <= run.capacity + Earned(run.rate, t - s)
  {
    hide Earned;
    EarnedGrows(run.rate, 0.0, t - s);
    if n == 0 {
    } else if run.times[n - 1] < s || t < run.times[n - 1] {
      WithinEarned(run, s, t, n - 1);
    } else {
      WindowPotential(run, s, t, n);
      TokensStayInRange(run, n);
      EarnedGrows(run.rate, run.times[n - 1] - s, t - s);
    }
  }

  /** In every run and every window [s, t], `Allow` answers true at most
      capacity + rate * (t - s) times. */
  lemma WindowBound(run: Run, s: real, t: real, n: nat)
    requires run.Valid() && n <= |run.times| && s <= t
    ensures run.GrantsWithin(s, t, n) as real <= run.capacity + run.rate * (t - s)
  {
    EarnedIs(run.rate, t - s);
    hide Earned, Run.GrantsWithin;
    WithinEarned(run, s, t, n);
  }

  // ------------------------------------------------------- the per-IP limiter

  datatype Entry = Entry(bucket: Bucket, lastAccess: real)

  datatype Limits = Limits(rate: real, burst: nat, entries: map<string, Entry>)

  function Fresh(rate: real, burst: nat): Limits {
    Limits(rate, burst, map[])
  }

  function BucketOf(l: Limits, ip: string, now: real): Bucket {
    if ip in l.entries then l.entries[ip].bucket else Full(l.rate, l.burst as real, now)
  }

  function AllowIp(l: Limits, ip: string, now: real): Limits {
    l.(entries := l.entries[ip := Entry(Asked(BucketOf(l, ip, now), now), now)])
  }

  function PruneIdle(l: Limits, maxIdle: real, now: real): Limits {
    l.(entries := map ip | ip in l.entries && now - l.entries[ip].lastAccess <= maxIdle :: l.entries[ip])
  }

  /** A request is the finding of the entry and then its asking. */
  lemma FoundThenAsked(l: Limits, ip: string, now: real, lastAccess: real)
    ensures var found := l.(entries := l.entries[ip := Entry(BucketOf(l, ip, now), lastAccess)]);
            && found.entries[ip].bucket == BucketOf(l, ip, now)
            && AllowIp(l, ip, now) == found.(entries := found.entries[ip := Entry(Asked(found.entries[ip].bucket, now), now)])
  {
    hide BucketOf, Asked;
  }

  class LimiterEntry {
    const bucket: TokenBucket
    var lastAccess: real

    constructor (bucket: TokenBucket, now: real)
      ensures this.bucket == bucket && lastAccess == now
    {
      this.bucket := bucket;
      this.lastAccess := now;
    }
  }

  class IPRateLimiter {
    const rate: real
    const burst: nat
    var limiters: map<string, LimiterEntry>

    ghost function Buckets(): set<TokenBucket>
      reads this, limiters.Values
    {
      set ip | ip in limiters :: limiters[ip].bucket
    }

    /** No two IPs share an entry or a bucket. */
    ghost predicate Valid()
      reads this, limiters.Values
    {
      forall a, b :: a in limiters && b in limiters && a != b ==>
        limiters[a] != limiters[b] && limiters[a].bucket != limiters[b].bucket
    }

    ghost function View(): Limits
      reads this, limiters.Values, Buckets()
    {
      Limits(rate, burst, map ip | ip in limiters :: Entry(limiters[ip].bucket.View(), limiters[ip].lastAccess))
    }

    constructor (rate: real, burst: nat)
      ensures Valid() && limiters == map[] && View() == Fresh(rate, burst)
    {
      this.rate := rate;
      this.burst := burst;
      this.limiters := map[];
    }

    /** The entry of `ip`, made on demand. */
    method EntryOf(ip: string, now: real) returns (entry: LimiterEntry)
      requires Valid()
      modifies this`limiters
      ensures Valid() && ip in limiters && limiters[ip] == entry
      ensures if ip in old(limiters) then limiters == old(limiters)
              else limiters == old(limiters)[ip := entry] && fresh(entry) && fresh(entry.bucket)
      ensures var e := Entry(BucketOf(old(View()), ip, now), entry.lastAccess);
              View() == old(View()).(entries := old(View()).entries[ip := e])
    {
      if ip in limiters {
        return limiters[ip];
      }
      var b := new TokenBucket(rate, burst, now);
      entry := new LimiterEntry(b, now);
      limiters := limiters[ip := entry];
    }

    /** Stamps an entry and asks its bucket. */
    method AskEntry(entry: LimiterEntry, ghost ip: string, now: real) returns (ok: bool)
      requires Valid() && ip in limiters && limiters[ip] == entry
      modifies entry`lastAccess, entry.bucket
      ensures Valid()
      ensures ok == Grants(old(View()).entries[ip].bucket, now)
      ensures View() == old(View()).(entries := old(View()).entries[ip := Entry(Asked(old(View()).entries[ip].bucket, now), now)])
    {
      hide Grants, Asked, Level, Earned;
      entry.lastAccess := now;
      ok := entry.bucket.Allow(now);
    }

    method Allow(ip: string, now: real) returns (ok: bool)
      requires Valid()
      modifies this, limiters.Values, Buckets()
      ensures Valid()
      ensures ok == Grants(BucketOf(old(View()), ip, now), now)
      ensures View() == AllowIp(old(View()), ip, now)
    {
      hide Grants, Asked, BucketOf, View, Valid, AllowIp;
      var entry := EntryOf(ip, now);
      FoundThenAsked(old(View()), ip, now, entry.lastAccess);
      ok := AskEntry(entry, ip, now);
    }

    /** The loop of `Prune`. */
    method DropIdle(maxIdle: real, now: real)
      modifies this`limiters
      ensures limiters == map ip | ip in old(limiters) && now - old(limiters)[ip].lastAccess <= maxIdle :: old(limiters)[ip]
    {
      var rest := limiters.Keys;
      ghost var was := limiters;
      while rest != {}
        invariant rest <= was.Keys
        invariant forall ip :: ip in limiters <==>
                    ip in was && (ip in rest || now - was[ip].lastAccess <= maxIdle)
        invariant forall ip :: ip in limiters ==> limiters[ip] == was[ip]
        decreases rest
      {
        var ip :| ip in rest;
        if now - limiters[ip].lastAccess > maxIdle {
          limiters := limiters - {ip};
        }
        rest := rest - {ip};
      }
    }

    method Prune(maxIdle: real, now: real)
      requires Valid()
      modifies this`limiters
      ensures Valid()
      ensures View() == PruneIdle(old(View()), maxIdle, now)
    {
      DropIdle(maxIdle, now);
    }
  }
}
