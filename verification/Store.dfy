/** The password store (server/store.go).  Instants are integer nanoseconds;
    SHA-256 is a parameter of the store. */
module Store {
  import opened Common

  datatype Record = Record(id: string, salt: string, hash: string, oneTime: bool, expiresAt: Option<int>, createdAt: int)

  type Digest = string -> string

  /** Consume still accepts a record at the instant it expires. */
  predicate Usable(r: Record, now: int) {
    r.expiresAt.Some? ==> now <= r.expiresAt.value
  }

  /** Prune already drops a record at the instant it expires. */
  predicate Kept(r: Record, now: int) {
    r.expiresAt.Some? ==> now < r.expiresAt.value
  }

  predicate Opens(digest: Digest, r: Record, secret: string, now: int) {
    Usable(r, now) && r.hash == digest(secret + r.salt)
  }

  /** The first record that `secret` opens, or the length. */
  function Find(digest: Digest, rs: seq<Record>, secret: string, now: int): (i: nat)
    ensures i <= |rs|
    ensures i < |rs| ==> Opens(digest, rs[i], secret, now)
    ensures forall j :: 0 <= j < i ==> !Opens(digest, rs[j], secret, now)
  {
    if rs == [] then 0
    else if Opens(digest, rs[0], secret, now) then 0
    else 1 + Find(digest, rs[1..], secret, now)
  }

  /** The first record named `id`, or the length. */
  function Named(rs: seq<Record>, id: string): (i: nat)
    ensures i <= |rs|
    ensures i < |rs| ==> rs[i].id == id
    ensures forall j :: 0 <= j < i ==> rs[j].id != id
  {
    if rs == [] then 0 else if rs[0].id == id then 0 else 1 + Named(rs[1..], id)
  }

  function Without(rs: seq<Record>, i: nat): seq<Record>
    requires i < |rs|
  {
    rs[..i] + rs[i + 1..]
  }

  /** The record a password opens, if any; the empty password opens none. */
  function Hit(digest: Digest, rs: seq<Record>, secret: string, now: int): Option<Record> {
    if secret == "" then None
    else
      var i := Find(digest, rs, secret, now);
      if i < |rs| then Some(rs[i]) else None
  }

  /** The records after a password was tried: a one-time record is used up. */
  function Spent(digest: Digest, rs: seq<Record>, secret: string, now: int): seq<Record> {
    var hit := Hit(digest, rs, secret, now);
    if hit.Some? && hit.value.oneTime then Without(rs, Find(digest, rs, secret, now)) else rs
  }

  function Removed(rs: seq<Record>, id: string): seq<Record> {
    var i := Named(rs, id);
    if i < |rs| then Without(rs, i) else rs
  }

  /** The records still unexpired, in order. */
  function Pruned(rs: seq<Record>, now: int): seq<Record> {
    if rs == [] then []
    else Pruned(rs[..|rs| - 1], now) + if Kept(rs[|rs| - 1], now) then [rs[|rs| - 1]] else []
  }

  lemma PrunedSnoc(rs: seq<Record>, i: nat, now: int)
    requires i <= |rs|
    ensures i == 0 ==> Pruned(rs[..i], now) == []
    ensures i < |rs| ==>
              Pruned(rs[..i + 1], now)
              == Pruned(rs[..i], now) + if rs[i].expiresAt.None? || now < rs[i].expiresAt.value then [rs[i]] else []
  {
    if i < |rs| {
      assert rs[..i + 1][..i] == rs[..i];
    }
  }

  class PasswordStore {
    const digest: Digest
    var records: seq<Record>

    constructor (digest: Digest)
      ensures this.digest == digest && records == []
    {
      this.digest := digest;
      records := [];
    }

    method Add(rec: Record)
      modifies this
      ensures records == old(records) + [rec]
    {
      records := records + [rec];
    }

    method Remove(id: string) returns (found: bool)
      modifies this
      ensures found <==> exists r :: r in old(records) && r.id == id
      ensures records == Removed(old(records), id)
    {
      var i := 0;
      while i < |records|
        invariant 0 <= i <= |records| && records == old(records)
        invariant forall j :: 0 <= j < i ==> records[j].id != id
      {
        if records[i].id == id {
          records := records[..i] + records[i + 1..];
          return true;
        }
        i := i + 1;
      }
      return false;
    }

    method Consume(secret: string, now: int) returns (ok: bool)
      modifies this
      ensures ok <==> Hit(digest, old(records), secret, now).Some?
      ensures records == Spent(digest, old(records), secret, now)
    {
      if secret == "" {
        return false;
      }
      var i := 0;
      while i < |records|
        invariant 0 <= i <= |records| && records == old(records)
        invariant forall j :: 0 <= j < i ==> !Opens(digest, records[j], secret, now)
      {
        var r := records[i];
        if !(r.expiresAt.Some? && now > r.expiresAt.value) && r.hash == digest(secret + r.salt) {
          if r.oneTime {
            records := records[..i] + records[i + 1..];
          }
          return true;
        }
        i := i + 1;
      }
      return false;
    }

    /** Compacts in place: survivors are copied down over the dropped. */
    method Prune(now: int)
      modifies this
      ensures records == Pruned(old(records), now)
    {
      ghost var was := records;
      var n := 0;
      var i := 0;
      hide Pruned, Kept;
      PrunedSnoc(was, 0, now);
      while i < |records|
        invariant 0 <= n <= i <= |records| == |was|
        invariant records[..n] == Pruned(was[..i], now)
        invariant forall k :: i <= k < |records| ==> records[k] == was[k]
      {
        var r := records[i];
        PrunedSnoc(was, i, now);
        if r.expiresAt.None? || now < r.expiresAt.value {
          records := records[n := r];
          assert records[..n + 1] == records[..n] + [r];
          n := n + 1;
        }
        i := i + 1;
      }
      assert was[..|was|] == was;
      if n < |records| {
        records := records[..n];
      }
      assert records == records[..n];
    }
  }

  // ----------------------------------------------------------- what a password opens

  /** A password opens the first record that has not expired and whose hash is that of the
      password with the record's salt; the empty password opens none. */
  lemma OpensTheFirst(digest: Digest, rs: seq<Record>, secret: string, now: int, i: nat)
    requires i < |rs| && forall j :: 0 <= j < i ==> !Fits(digest, rs[j], secret, now)
    ensures Fits(digest, rs[i], secret, now) ==> Hit(digest, rs, secret, now) == Some(rs[i])
  {}

  lemma OpensNone(digest: Digest, rs: seq<Record>, secret: string, now: int)
    ensures Hit(digest, rs, secret, now).None? <==> forall r :: r in rs ==> !Fits(digest, r, secret, now)
  {
    assert forall r :: r in rs ==> (Fits(digest, r, secret, now) <==> secret != "" && Opens(digest, r, secret, now));
    hide Opens, Fits;
    var i := Find(digest, rs, secret, now);
    assert forall j :: 0 <= j < |rs| ==> rs[j] in rs;
  }

  predicate Fits(digest: Digest, r: Record, secret: string, now: int) {
    secret != "" && r.hash == digest(secret + r.salt) && (r.expiresAt.Some? ==> now <= r.expiresAt.value)
  }

  /** So a record made from a secret and alone in the store is opened by it until it expires,
      and gone afterwards if it is one-time. */
  lemma OwnSecretOpens(digest: Digest, id: string, salt: string, secret: string, oneTime: bool, expiresAt: Option<int>,
                       createdAt: int, now: int)
    requires secret != ""
    ensures var r := Record(id, salt, digest(secret + salt), oneTime, expiresAt, createdAt);
            && Hit(digest, [r], secret, now) == (if expiresAt.None? || now <= expiresAt.value then Some(r) else None)
            && Spent(digest, [r], secret, now) == if oneTime && (expiresAt.None? || now <= expiresAt.value) then [] else [r]
  {}

  // ----------------------------------------------------------- pruning is safe

  lemma {:induction false} PrunedSplits(a: seq<Record>, b: seq<Record>, now: int)
    ensures Pruned(a + b, now) == Pruned(a, now) + Pruned(b, now)
  {
    if b == [] {
      assert a + b == a;
    } else {
      assert (a + b)[..|a + b| - 1] == a + b[..|b| - 1];
      PrunedSplits(a, b[..|b| - 1], now);
    }
  }

  lemma {:induction false} FindSplits(digest: Digest, a: seq<Record>, b: seq<Record>, secret: string, now: int)
    ensures Find(digest, a + b, secret, now)
            == if Find(digest, a, secret, now) < |a| then Find(digest, a, secret, now)
               else |a| + Find(digest, b, secret, now)
  {
    if a == [] {
      assert a + b == b;
    } else {
      assert (a + b)[1..] == a[1..] + b;
      FindSplits(digest, a[1..], b, secret, now);
    }
  }

  /** A record that expires exactly when the prune and the attempt coincide. */
  predicate OnTheEdge(r: Record, pruned: int, now: int) {
    r.expiresAt == Some(pruned) && now == pruned
  }

  lemma {:induction false} KeptByPrune(rs: seq<Record>, t: int)
    ensures forall r :: r in Pruned(rs, t) <==> r in rs && Kept(r, t)
  {
    if rs != [] {
      KeptByPrune(rs[..|rs| - 1], t);
      assert rs == rs[..|rs| - 1] + [rs[|rs| - 1]];
    }
  }

  lemma FindNone(digest: Digest, rs: seq<Record>, secret: string, now: int)
    requires forall r :: r in rs ==> !Opens(digest, r, secret, now)
    ensures Find(digest, rs, secret, now) == |rs|
  {
    hide Opens;
    assert forall j :: 0 <= j < |rs| ==> rs[j] in rs;
  }

  lemma FindMiss(digest: Digest, rs: seq<Record>, secret: string, now: int)
    requires Find(digest, rs, secret, now) == |rs|
    ensures forall r :: r in rs ==> !Opens(digest, r, secret, now)
  {
    hide Opens;
  }

  /** Where the pruned records show the record that `secret` opens. */
  lemma FindAfterPrune(digest: Digest, a: seq<Record>, r: Record, b: seq<Record>, secret: string, t: int, now: int)
    requires Find(digest, a + [r] + b, secret, now) == |a| && Kept(r, t)
    ensures Pruned(a + [r] + b, t) == Pruned(a, t) + [r] + Pruned(b, t)
    ensures Find(digest, Pruned(a + [r] + b, t), secret, now) == |Pruned(a, t)|
  {
    hide Opens;
    assert (a + [r] + b)[|a|] == r;
    forall x | x in a ensures !Opens(digest, x, secret, now) {
      var i :| 0 <= i < |a| && a[i] == x;
      assert (a + [r] + b)[i] == x;
    }
    PrunedSplits(a + [r], b, t);
    PrunedSplits(a, [r], t);
    assert Pruned([r], t) == [r];
    KeptByPrune(a, t);
    FindNone(digest, Pruned(a, t), secret, now);
    FindSplits(digest, Pruned(a, t) + [r], Pruned(b, t), secret, now);
    FindSplits(digest, Pruned(a, t), [r], secret, now);
  }

  /** Pruning at `t` changes which record a later attempt opens exactly when the
      attempt falls on the same instant and the record it would have opened
      expires then (`Consume` accepts at that instant, `Prune` drops). */
  lemma PruneUnobservableOffTheEdge(digest: Digest, rs: seq<Record>, secret: string, t: int, now: int)
    requires t <= now
    ensures Hit(digest, Pruned(rs, t), secret, now) == Hit(digest, rs, secret, now)
            <==> !(Hit(digest, rs, secret, now).Some? && OnTheEdge(Hit(digest, rs, secret, now).value, t, now))
  {
    KeptByPrune(rs, t);
    var i := Find(digest, rs, secret, now);
    if secret != "" && i < |rs| {
      assert Usable(rs[i], now) && (OnTheEdge(rs[i], t, now) <==> !Kept(rs[i], t));
      if Kept(rs[i], t) {
        assert rs == rs[..i] + [rs[i]] + rs[i + 1..];
        FindAfterPrune(digest, rs[..i], rs[i], rs[i + 1..], secret, t, now);
      }
    } else if secret != "" {
      FindMiss(digest, rs, secret, now);
      FindNone(digest, Pruned(rs, t), secret, now);
    }
  }

  lemma SpendCommutes(digest: Digest, a: seq<Record>, r: Record, b: seq<Record>, secret: string, t: int, now: int)
    requires Find(digest, a + [r] + b, secret, now) == |a| && Kept(r, t) && r.oneTime && secret != ""
    ensures Spent(digest, Pruned(a + [r] + b, t), secret, now) == Pruned(Spent(digest, a + [r] + b, secret, now), t)
  {
    hide Opens, Pruned, Kept;
    FindAfterPrune(digest, a, r, b, secret, t, now);
    PrunedSplits(a, b, t);
    assert Without(a + [r] + b, |a|) == a + b;
    assert Without(Pruned(a, t) + [r] + Pruned(b, t), |Pruned(a, t)|) == Pruned(a, t) + Pruned(b, t);
  }

  /** For every later time the pruned store answers as the whole one would,
      opening the same record, and what is left of the two agrees again once
      pruned. */
  lemma PrunedStoreAnswersAlike(digest: Digest, rs: seq<Record>, secret: string, t: int, now: int)
    requires t < now
    ensures Hit(digest, Pruned(rs, t), secret, now) == Hit(digest, rs, secret, now)
    ensures Spent(digest, Pruned(rs, t), secret, now) == Pruned(Spent(digest, rs, secret, now), t)
  {
    PruneUnobservableOffTheEdge(digest, rs, secret, t, now);
    var i := Find(digest, rs, secret, now);
    if secret != "" && i < |rs| && rs[i].oneTime {
      assert Kept(rs[i], t);
      assert rs == rs[..i] + [rs[i]] + rs[i + 1..];
      SpendCommutes(digest, rs[..i], rs[i], rs[i + 1..], secret, t, now);
    }
    hide Opens;
  }

  /** Such a record: used and pruned at the instant it expires. */
  lemma EdgeShows(digest: Digest)
    ensures var rs := [Record("1", "", digest("secret"), true, Some(5), 0)];
            && Hit(digest, rs, "secret", 5) == Some(rs[0]) && Hit(digest, Pruned(rs, 5), "secret", 5) == None
  {
    var r := Record("1", "", digest("secret"), true, Some(5), 0);
    assert "secret" + r.salt == "secret";
    assert [r][..0] == [] && Pruned([r], 5) == [];
  }
}
