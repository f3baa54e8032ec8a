/** Whole runs of the password store: when its pruning cannot be observed
    (server/store.go). */
module StoreRuns {
  import opened Common
  import opened Store

  datatype Event =
    | Add(rec: Record)
    | Remove(id: string)
    | Consume(secret: string, now: int)
    | Prune(now: int)

  function Step(digest: Digest, rs: seq<Record>, e: Event): seq<Record> {
    match e
    case Add(rec) => rs + [rec]
    case Remove(id) => Removed(rs, id)
    case Consume(secret, now) => Spent(digest, rs, secret, now)
    case Prune(now) => Pruned(rs, now)
  }

  /** The store, and the same store never pruned. */
  function Run(digest: Digest, es: seq<Event>): seq<Record> {
    if es == [] then [] else Step(digest, Run(digest, es[..|es| - 1]), es[|es| - 1])
  }

  function Unpruned(digest: Digest, es: seq<Event>): seq<Record> {
    if es == [] then []
    else
      var before, e := Unpruned(digest, es[..|es| - 1]), es[|es| - 1];
      if e.Prune? then before else Step(digest, before, e)
  }

  /** The latest prune. */
  function Latest(es: seq<Event>): Option<int> {
    if es == [] then None
    else
      var t, e := Latest(es[..|es| - 1]), es[|es| - 1];
      if e.Prune? && (t.None? || t.value < e.now) then Some(e.now) else t
  }

  /** Every password is tried strictly after every prune before it. */
  ghost predicate Later(es: seq<Event>) {
    forall i, k :: 0 <= i < k < |es| && es[i].Prune? && es[k].Consume? ==> es[i].now < es[k].now
  }

  function LivingAt(rs: seq<Record>, t: Option<int>): seq<Record> {
    if t.None? then rs else Pruned(rs, t.value)
  }

  /** The two stores agree on the records that outlive the latest prune. */
  predicate Alike(digest: Digest, es: seq<Event>) {
    LivingAt(Run(digest, es), Latest(es)) == LivingAt(Unpruned(digest, es), Latest(es))
  }

  predicate Lives(r: Record, t: Option<int>) {
    t.Some? ==> Kept(r, t.value)
  }

  /** There is a record named `id`, and the first outlives the latest prune. */
  predicate FirstLives(rs: seq<Record>, id: string, t: Option<int>) {
    Named(rs, id) < |rs| && Lives(rs[Named(rs, id)], t)
  }

  /** A removal by a name that some living record has takes a living record from both
      stores or from neither. */
  predicate Matched(digest: Digest, es: seq<Event>, id: string) {
    var t := Latest(es);
    var living := LivingAt(Unpruned(digest, es), t);
    Named(living, id) < |living| ==> (FirstLives(Run(digest, es), id, t) <==> FirstLives(Unpruned(digest, es), id, t))
  }

  // ---------------------------------------------------------------- pruning and steps

  lemma {:induction false} PrunedTwice(rs: seq<Record>, s: int, t: int)
    ensures Pruned(Pruned(rs, s), t) == Pruned(rs, if s < t then t else s)
  {
    if rs != [] {
      var init, last := rs[..|rs| - 1], rs[|rs| - 1];
      PrunedTwice(init, s, t);
      var p := Pruned(init, s);
      if Kept(last, s) {
        assert (p + [last])[..|p|] == p;
      } else {
        assert p + [] == p;
      }
    }
  }

  lemma LivingSnoc(rs: seq<Record>, r: Record, t: Option<int>)
    ensures LivingAt(rs + [r], t) == LivingAt(rs, t) + if Lives(r, t) then [r] else []
  {
    assert (rs + [r])[..|rs|] == rs;
  }

  /** Only the living count for a later attempt. */
  lemma SpentLiving(digest: Digest, rs: seq<Record>, secret: string, t: Option<int>, now: int)
    requires t.Some? ==> t.value < now
    ensures LivingAt(Spent(digest, rs, secret, now), t) == Spent(digest, LivingAt(rs, t), secret, now)
    ensures Hit(digest, LivingAt(rs, t), secret, now) == Hit(digest, rs, secret, now)
  {
    if t.Some? {
      PrunedStoreAnswersAlike(digest, rs, secret, t.value, now);
    }
  }

  lemma PrunedAround(a: seq<Record>, r: Record, b: seq<Record>, t: int)
    ensures Pruned(a + [r] + b, t) == Pruned(a, t) + (if Kept(r, t) then [r] else []) + Pruned(b, t)
    ensures Pruned(a + b, t) == Pruned(a, t) + Pruned(b, t)
  {
    PrunedSplits(a + [r], b, t);
    PrunedSplits(a, [r], t);
    PrunedSplits(a, b, t);
    assert [r][..0] == [] && Pruned([r], t) == if Kept(r, t) then [r] else [];
  }

  lemma RemovedAround(a: seq<Record>, r: Record, b: seq<Record>, id: string, t: int)
    requires r.id == id && forall x :: x in a ==> x.id != id
    ensures Pruned(a + b, t)
            == if Kept(r, t) then Removed(Pruned(a + [r] + b, t), id) else Pruned(a + [r] + b, t)
    ensures Kept(r, t) ==> Named(Pruned(a + [r] + b, t), id) < |Pruned(a + [r] + b, t)|
  {
    PrunedAround(a, r, b, t);
    KeptByPrune(a, t);
    hide Pruned, Removed, Named;
    if Kept(r, t) {
      NamedPast(Pruned(a, t), r, Pruned(b, t), id);
    } else {
      assert Pruned(a, t) + [] == Pruned(a, t);
    }
  }

  /** A removal takes the first living record of that name, if the very first one lives;
      otherwise it takes no living record. */
  lemma RemovedLiving(rs: seq<Record>, id: string, t: Option<int>)
    ensures LivingAt(Removed(rs, id), t) == if FirstLives(rs, id, t) then Removed(LivingAt(rs, t), id) else LivingAt(rs, t)
    ensures FirstLives(rs, id, t) ==> Named(LivingAt(rs, t), id) < |LivingAt(rs, t)|
  {
    var i := Named(rs, id);
    if t.Some? && i < |rs| {
      assert rs == rs[..i] + [rs[i]] + rs[i + 1..];
      RemovedAround(rs[..i], rs[i], rs[i + 1..], id, t.value);
    }
    hide Pruned, Named;
  }

  lemma NamedPast(a: seq<Record>, r: Record, b: seq<Record>, id: string)
    requires r.id == id && forall x :: x in a ==> x.id != id
    ensures Named(a + [r] + b, id) == |a| && Removed(a + [r] + b, id) == a + b
  {
    var rs := a + [r] + b;
    assert rs[|a|] == r;
    forall k | 0 <= k < |a| ensures rs[k].id != id {
      assert rs[k] == a[k] && a[k] in a;
    }
  }

  lemma {:induction false} LatestIsAPrune(es: seq<Event>)
    requires Latest(es).Some?
    ensures exists i :: 0 <= i < |es| && es[i] == Prune(Latest(es).value)
  {
    var es0, e := es[..|es| - 1], es[|es| - 1];
    if Latest(es) == Latest(es0) && Latest(es0).Some? {
      LatestIsAPrune(es0);
      var i :| 0 <= i < |es0| && es0[i] == Prune(Latest(es0).value);
      assert es[i] == es0[i];
    } else {
      assert es[|es| - 1] == Prune(Latest(es).value);
    }
  }

  /** `t'` is the latest prune after one more at `now`. */
  lemma PruneLiving(rs: seq<Record>, t: Option<int>, now: int, t': int)
    requires t' == if t.None? || t.value < now then now else t.value
    ensures Pruned(Pruned(rs, now), t') == Pruned(rs, t') == Pruned(LivingAt(rs, t), t')
  {
    PrunedTwice(rs, now, t');
    if t.Some? {
      PrunedTwice(rs, t.value, t');
    }
  }

  lemma LatestBefore(es: seq<Event>, e: Event)
    requires Later(es + [e]) && e.Consume? && Latest(es).Some?
    ensures Latest(es).value < e.now
  {
    LatestIsAPrune(es);
    var i :| 0 <= i < |es| && es[i] == Prune(Latest(es).value);
    assert (es + [e])[i] == es[i] && (es + [e])[|es|] == e;
  }

  /** One more event keeps the stores alike exactly when it is no unmatched removal. */
  lemma AlikeOn(digest: Digest, es: seq<Event>, e: Event)
    requires Later(es + [e]) && Alike(digest, es)
    ensures Alike(digest, es + [e]) <==> (e.Remove? ==> Matched(digest, es, e.id))
  {
    assert (es + [e])[..|es|] == es;
    var a, b, t := Unpruned(digest, es), Run(digest, es), Latest(es);
    match e {
      case Add(rec) =>
        LivingSnoc(a, rec, t);
        LivingSnoc(b, rec, t);
        hide LivingAt;
      case Remove(id) =>
        RemovedLiving(a, id, t);
        RemovedLiving(b, id, t);
        hide FirstLives, LivingAt;
      case Consume(secret, now) =>
        if t.Some? {
          LatestBefore(es, e);
        }
        SpentLiving(digest, a, secret, t, now);
        SpentLiving(digest, b, secret, t, now);
        hide LivingAt, Spent;
      case Prune(now) =>
        var t' := Latest(es + [e]).value;
        PruneLiving(a, t, now, t');
        PruneLiving(b, t, now, t');
        hide Pruned;
    }
  }

  /** The two stores agree on the living after every step of the run if and only if each
      removal in it is matched. */
  lemma {:induction false} AlikeIffRemovalsMatch(digest: Digest, es: seq<Event>)
    requires Later(es)
    ensures AlwaysAlike(digest, es) <==> RemovalsMatch(digest, es)
  {
    hide Alike, Matched;
    if es == [] {
      assert es[..0] == [] && Alike(digest, []) by { EmptyAlike(digest); }
    } else {
      var es0, e := es[..|es| - 1], es[|es| - 1];
      assert es == es0 + [e];
      assert forall i :: 0 <= i < |es0| ==> es0[i] == es[i];
      AlikeIffRemovalsMatch(digest, es0);
      AlwaysAlikeSnoc(digest, es0, e);
      RemovalsMatchSnoc(digest, es0, e);
      if AlwaysAlike(digest, es0) {
        assert es0[..|es0|] == es0;
        AlikeOn(digest, es0, e);
      }
    }
  }

  ghost predicate AlwaysAlike(digest: Digest, es: seq<Event>) {
    forall n :: 0 <= n <= |es| ==> Alike(digest, es[..n])
  }

  ghost predicate RemovalsMatch(digest: Digest, es: seq<Event>) {
    forall n :: 0 <= n < |es| && es[n].Remove? ==> Matched(digest, es[..n], es[n].id)
  }

  lemma EmptyAlike(digest: Digest)
    ensures Alike(digest, [])
  {}

  lemma AlwaysAlikeSnoc(digest: Digest, es: seq<Event>, e: Event)
    ensures AlwaysAlike(digest, es + [e]) <==> AlwaysAlike(digest, es) && Alike(digest, es + [e])
  {
    hide Alike;
    assert (es + [e])[..|es| + 1] == es + [e];
    assert forall n :: 0 <= n <= |es| ==> (es + [e])[..n] == es[..n];
  }

  lemma RemovalsMatchSnoc(digest: Digest, es: seq<Event>, e: Event)
    ensures RemovalsMatch(digest, es + [e]) <==> RemovalsMatch(digest, es) && (e.Remove? ==> Matched(digest, es, e.id))
  {
    hide Matched;
    assert (es + [e])[..|es|] == es && (es + [e])[|es|] == e;
    assert forall n :: 0 <= n < |es| ==> (es + [e])[..n] == es[..n] && (es + [e])[n] == es[n];
  }

  /** With every removal matched, each password tried strictly after the prunes before it
      opens the record that it would have opened had the store never been pruned. */
  lemma PruningIsUnobservable(digest: Digest, es: seq<Event>, n: nat)
    requires Later(es) && RemovalsMatch(digest, es) && n < |es| && es[n].Consume?
    ensures Hit(digest, Run(digest, es[..n]), es[n].secret, es[n].now)
            == Hit(digest, Unpruned(digest, es[..n]), es[n].secret, es[n].now)
  {
    AlikeIffRemovalsMatch(digest, es);
    var before, e := es[..n], es[n];
    assert Alike(digest, before);
    if Latest(before).Some? {
      LatestIsAPrune(before);
    }
    SpentLiving(digest, Run(digest, before), e.secret, Latest(before), e.now);
    SpentLiving(digest, Unpruned(digest, before), e.secret, Latest(before), e.now);
    hide Run, Unpruned, LivingAt, Spent, Hit;
  }

  // ---------------------------------------------------------------- distinct names

  ghost predicate DistinctNames(rs: seq<Record>) {
    forall i, k :: 0 <= i < k < |rs| ==> rs[i].id != rs[k].id
  }

  /** Every record was added, under a name no other was. */
  ghost predicate Fresh(rs: seq<Record>, es: seq<Event>) {
    DistinctNames(rs) && forall r :: r in rs ==> Add(r) in es
  }

  ghost predicate FreshNames(es: seq<Event>) {
    forall i, k :: 0 <= i < k < |es| && es[i].Add? && es[k].Add? ==> es[i].rec.id != es[k].rec.id
  }

  lemma WithoutIsDistinct(rs: seq<Record>, i: nat)
    requires DistinctNames(rs) && i < |rs|
    ensures DistinctNames(Without(rs, i)) && forall r :: r in Without(rs, i) ==> r in rs
  {}

  lemma {:induction false} PrunedIsDistinct(rs: seq<Record>, now: int)
    requires DistinctNames(rs)
    ensures DistinctNames(Pruned(rs, now)) && forall r :: r in Pruned(rs, now) ==> r in rs
  {
    if rs != [] {
      var init, last := rs[..|rs| - 1], rs[|rs| - 1];
      PrunedIsDistinct(init, now);
      assert forall r :: r in init ==> r.id != last.id;
    }
  }

  lemma StepIsFresh(digest: Digest, rs: seq<Record>, es: seq<Event>, e: Event)
    requires Fresh(rs, es) && FreshNames(es + [e])
    ensures Fresh(Step(digest, rs, e), es + [e])
  {
    match e {
      case Add(rec) =>
        forall r | r in rs ensures r.id != rec.id {
          var i :| 0 <= i < |es| && es[i] == Add(r);
          assert (es + [e])[i] == Add(r) && (es + [e])[|es|] == e;
        }
        assert forall i :: 0 <= i < |rs| ==> rs[i] in rs;
      case Remove(id) =>
        if Named(rs, id) < |rs| { WithoutIsDistinct(rs, Named(rs, id)); }
      case Consume(secret, now) =>
        if Hit(digest, rs, secret, now).Some? { WithoutIsDistinct(rs, Find(digest, rs, secret, now)); }
      case Prune(now) => PrunedIsDistinct(rs, now);
    }
  }

  lemma {:induction false} RunsAreFresh(digest: Digest, es: seq<Event>)
    requires FreshNames(es)
    ensures Fresh(Run(digest, es), es) && Fresh(Unpruned(digest, es), es)
  {
    if es != [] {
      var es0, e := es[..|es| - 1], es[|es| - 1];
      assert es == es0 + [e];
      RunsAreFresh(digest, es0);
      StepIsFresh(digest, Run(digest, es0), es0, e);
      StepIsFresh(digest, Unpruned(digest, es0), es0, e);
      hide Step;
      assert forall r :: r in Unpruned(digest, es0) ==> Add(r) in es;
    }
  }

  // ---------------------------------------------------------------- what is stored

  /** Event `k` takes record `r`: it is removed by name, has expired when the store is pruned,
      or is for one use and is used. */
  ghost predicate Takes(digest: Digest, es: seq<Event>, k: nat, r: Record)
    requires k < |es|
  {
    match es[k]
    case Add(_) => false
    case Remove(id) => id == r.id
    case Prune(now) => r.expiresAt.Some? && r.expiresAt.value <= now
    case Consume(secret, now) => r.oneTime && Hit(digest, Run(digest, es[..k]), secret, now) == Some(r)
  }

  /** Event `i` added `r`, and nothing has taken it since. */
  ghost predicate Stands(digest: Digest, es: seq<Event>, r: Record, i: nat) {
    i < |es| && es[i] == Add(r) && forall k :: i < k < |es| ==> !Takes(digest, es, k, r)
  }

  lemma StandsSnoc(digest: Digest, es: seq<Event>, e: Event, r: Record, i: nat)
    ensures Stands(digest, es + [e], r, i) <==>
            if i == |es| then e == Add(r) else Stands(digest, es, r, i) && !Takes(digest, es + [e], |es|, r)
  {
    assert forall k :: 0 <= k < |es| ==> (es + [e])[..k] == es[..k] && (es + [e])[k] == es[k];
    assert forall k :: 0 <= k < |es| ==> (Takes(digest, es + [e], k, r) <==> Takes(digest, es, k, r));
    hide Takes;
  }

  lemma KeptButOne(rs: seq<Record>, i: nat, r: Record)
    requires DistinctNames(rs) && i < |rs|
    ensures r in Without(rs, i) <==> r in rs && r != rs[i]
  {
    if r in rs && r != rs[i] {
      var k :| 0 <= k < |rs| && rs[k] == r;
      assert Without(rs, i)[if k < i then k else k - 1] == r;
    }
  }

  lemma NamedIs(rs: seq<Record>, r: Record)
    requires DistinctNames(rs) && r in rs
    ensures Named(rs, r.id) < |rs| && rs[Named(rs, r.id)] == r
  {}

  lemma StoredAfter(digest: Digest, rs: seq<Record>, e: Event, r: Record)
    requires DistinctNames(rs)
    ensures r in Step(digest, rs, e) <==>
            e == Add(r) || (r in rs && match e
                                       case Add(_) => true
                                       case Remove(id) => id != r.id
                                       case Prune(now) => Kept(r, now)
                                       case Consume(secret, now) => !(r.oneTime && Hit(digest, rs, secret, now) == Some(r)))
  {
    match e {
      case Remove(id) =>
        if r in rs { NamedIs(rs, r); }
        if Named(rs, id) < |rs| { KeptButOne(rs, Named(rs, id), r); }
        hide DistinctNames;
      case Consume(secret, now) =>
        if Hit(digest, rs, secret, now).Some? { KeptButOne(rs, Find(digest, rs, secret, now), r); }
        hide DistinctNames, Opens;
      case Prune(now) => KeptByPrune(rs, now);
      case _ =>
    }
  }

  /** In every run in which no name is given twice, exactly the records that were added and
      not taken since are stored. */
  lemma {:induction false} StoredIffStands(digest: Digest, es: seq<Event>, r: Record)
    requires FreshNames(es)
    ensures r in Run(digest, es) <==> exists i: nat :: Stands(digest, es, r, i)
  {
    if es != [] {
      var es0, e := es[..|es| - 1], es[|es| - 1];
      assert es == es0 + [e];
      StoredIffStands(digest, es0, r);
      RunsAreFresh(digest, es0);
      StoredAfter(digest, Run(digest, es0), e, r);
      assert es[..|es0|] == es0;
      assert e != Add(r) ==> (r in Run(digest, es) <==> r in Run(digest, es0) && !Takes(digest, es, |es0|, r));
      hide Run, Stands, Takes;
      if e == Add(r) {
        StandsSnoc(digest, es0, e, r, |es0|);
      } else {
        StandsLater(digest, es0, e, r);
      }
    }
  }

  lemma StandsLater(digest: Digest, es: seq<Event>, e: Event, r: Record)
    requires e != Add(r)
    ensures (exists i: nat :: Stands(digest, es + [e], r, i)) <==>
            (exists i: nat :: Stands(digest, es, r, i)) && !Takes(digest, es + [e], |es|, r)
  {
    hide Stands, Takes;
    if i: nat :| Stands(digest, es + [e], r, i) {
      StandsSnoc(digest, es, e, r, i);
      assert i < |es| by { assert Stands(digest, es + [e], r, i); StandsAt(digest, es + [e], r, i); }
    }
    if i: nat :| Stands(digest, es, r, i) {
      StandsAt(digest, es, r, i);
      StandsSnoc(digest, es, e, r, i);
    }
  }

  lemma StandsAt(digest: Digest, es: seq<Event>, r: Record, i: nat)
    requires Stands(digest, es, r, i)
    ensures i < |es|
  {}

  /** So a password is accepted if and only if it fits a record that was added and not taken
      since: removed records, records used up and expired ones open to nobody. */
  lemma AcceptedIff(digest: Digest, es: seq<Event>, secret: string, now: int)
    requires FreshNames(es)
    ensures Hit(digest, Run(digest, es), secret, now).Some? <==>
            exists r: Record, i: nat :: Stands(digest, es, r, i) && Fits(digest, r, secret, now)
  {
    OpensNone(digest, Run(digest, es), secret, now);
    forall r ensures r in Run(digest, es) <==> exists i: nat :: Stands(digest, es, r, i) { StoredIffStands(digest, es, r); }
    hide Run, Stands, Fits, Hit;
  }

  lemma LivingNameLives(rs: seq<Record>, id: string, t: Option<int>)
    requires DistinctNames(rs) && Named(LivingAt(rs, t), id) < |LivingAt(rs, t)|
    ensures FirstLives(rs, id, t)
  {
    var r := LivingAt(rs, t)[Named(LivingAt(rs, t), id)];
    if t.Some? {
      KeptByPrune(rs, t.value);
    }
    assert r in rs && Lives(r, t);
    var i :| 0 <= i < |rs| && rs[i] == r;
    assert Named(rs, id) == i;
  }

  /** Names that are never given twice, as random ones, make every removal match. */
  lemma {:induction false} FreshNamesMatch(digest: Digest, es: seq<Event>)
    requires Later(es) && FreshNames(es)
    ensures RemovalsMatch(digest, es)
  {
    if es != [] {
      var es0, e := es[..|es| - 1], es[|es| - 1];
      assert es == es0 + [e];
      assert forall i :: 0 <= i < |es0| ==> es0[i] == es[i];
      FreshNamesMatch(digest, es0);
      AlikeIffRemovalsMatch(digest, es0);
      RemovalsMatchSnoc(digest, es0, e);
      RunsAreFresh(digest, es0);
      assert es0[..|es0|] == es0;
      hide RemovalsMatch;
      if e.Remove? && Named(LivingAt(Unpruned(digest, es0), Latest(es0)), e.id) < |LivingAt(Unpruned(digest, es0), Latest(es0))| {
        LivingNameLives(Unpruned(digest, es0), e.id, Latest(es0));
        LivingNameLives(Run(digest, es0), e.id, Latest(es0));
      }
    }
  }

  lemma RunOn(digest: Digest, es: seq<Event>, e: Event)
    ensures Run(digest, es + [e]) == Step(digest, Run(digest, es), e)
    ensures Unpruned(digest, es + [e]) == if e.Prune? then Unpruned(digest, es) else Step(digest, Unpruned(digest, es), e)
  {
    assert (es + [e])[..|es|] == es;
  }

  /** Two records of one name and one password, the first of which expires at 5. */
  function Lasting(digest: Digest): Record {
    Record("1", "", digest("secret"), false, None, 0)
  }

  function Expiring(digest: Digest): Record {
    Lasting(digest).(expiresAt := Some(5))
  }

  function Twice(digest: Digest): seq<Event> {
    [] + [Add(Expiring(digest))] + [Add(Lasting(digest))]
  }

  lemma TwiceAdded(digest: Digest)
    ensures Run(digest, Twice(digest)) == [Expiring(digest), Lasting(digest)]
    ensures Unpruned(digest, Twice(digest)) == [Expiring(digest), Lasting(digest)]
  {
    hide Expiring, Lasting;
    RunOn(digest, [], Add(Expiring(digest)));
    RunOn(digest, [] + [Add(Expiring(digest))], Add(Lasting(digest)));
    assert Run(digest, []) == [] && Unpruned(digest, []) == [];
    hide Run, Unpruned;
  }

  lemma FirstExpires(a: Record, b: Record)
    requires a.id == "1" && b.id == "1" && !Kept(a, 6) && Kept(b, 6)
    ensures Pruned([a, b], 6) == [b] && Removed([b], "1") == [] && Removed([a, b], "1") == [b]
  {
    PrunedAround([], a, [b], 6);
    PrunedAround([], b, [], 6);
    assert [] + [a] + [b] == [a, b] && [] + [b] + [] == [b];
    assert Pruned([], 6) == [];
    hide Pruned;
  }

  /** A name given twice: the prune drops the first, expired record, so the removal takes
      the second one, which the store never pruned still opens. */
  lemma RemovalShows(digest: Digest)
    ensures var es := Twice(digest) + [Prune(6)] + [Remove("1")];
            && Hit(digest, Run(digest, es), "secret", 7) == None
            && Hit(digest, Unpruned(digest, es), "secret", 7) == Some(Lasting(digest))
  {
    TwiceAdded(digest);
    FirstExpires(Expiring(digest), Lasting(digest));
    RunOn(digest, Twice(digest), Prune(6));
    RunOn(digest, Twice(digest) + [Prune(6)], Remove("1"));
    LastingOpens(digest);
    hide Run, Unpruned, Twice, Pruned, Removed, Hit, Lasting, Expiring;
  }

  lemma LastingOpens(digest: Digest)
    ensures Hit(digest, [Lasting(digest)], "secret", 7) == Some(Lasting(digest)) && Hit(digest, [], "secret", 7) == None
  {
    OwnSecretOpens(digest, "1", "", "secret", false, None, 0, 7);
    assert "secret" + "" == "secret";
  }
}
