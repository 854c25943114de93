/**
 * aspy_backend/cleanup_plans.py: bring the plans table down to Free and Pro.
 * Three stages, each ending in a commit: make sure Free and Pro exist with
 * their current terms, move every subscription on a retired plan (Starter,
 * Team, Campus, Enterprise) to Free, then delete the retired plans, and
 * finally list the plans that remain. An exception rolls back the stage in
 * progress and is raised again; stages already committed stay.
 */
module CleanupPlans {
  import opened Common
  import opened Models
  import opened Store
  import Seeds

  const RetiredNames: seq<string> := ["Starter", "Team", "Campus", "Enterprise"]

  datatype CleanupOutcome =
    | Completed(deleted: nat)      // `deleted_count`: how many retired plans were removed
    | ListingFailed(deleted: nat)  // all three stages committed, then the final plan listing raised
    | Aborted(stage: nat)          // the stage whose flush or commit raised

  datatype CleanupRun = CleanupRun(outcome: CleanupOutcome, tables: Tables)

  /** `query(Plan).filter(Plan.name == name).first()`, as a row index. */
  function NamedIndex(ps: seq<Plan>, name: string): (r: Option<nat>)
    ensures r.Some? ==> r.value < |ps| && ps[r.value].name == name
    ensures r.Some? ==> forall k :: 0 <= k < r.value ==> ps[k].name != name
    ensures r.None? <==> forall k :: 0 <= k < |ps| ==> ps[k].name != name
  {
    FirstIndex(ps, (p: Plan) => p.name == name)
  }

  function NewFreePlan(id: int): Plan
  {
    Plan(id, "Free", Some(FREE), 0, "INR", Seeds.FreeFeatures, None)
  }

  function NewProPlan(id: int): Plan
  {
    Plan(id, "Pro", Some(PRO), Seeds.ProPrice, "INR", Seeds.ProFeatures, None)
  }

  // ---------------------------------------------------------------------
  // Stage 1 (lines 26-100)

  /** Lines 30-62: insert Free, or set the existing Free plan's type and
      features (its price stays). Also yields the Free plan's id. */
  function EnsureFree(t: Tables): (r: (Tables, int))
    ensures r.0.(plans := t.plans, nextId := t.nextId) == t
    ensures |r.0.plans| == |t.plans| + (if NamedIndex(t.plans, "Free").None? then 1 else 0)
  {
    match NamedIndex(t.plans, "Free")
    case None =>
      (t.(plans := t.plans + [NewFreePlan(t.nextId)], nextId := t.nextId + 1), t.nextId)
    case Some(k) =>
      (t.(plans := t.plans[k := t.plans[k].(planType := Some(FREE), features := Seeds.FreeFeatures)]), t.plans[k].id)
  }

  /** Lines 65-98: insert Pro, or set the existing Pro plan's type, price and
      features. */
  function EnsurePro(t: Tables): (r: Tables)
    ensures r.(plans := t.plans, nextId := t.nextId) == t
    ensures |r.plans| == |t.plans| + (if NamedIndex(t.plans, "Pro").None? then 1 else 0)
  {
    match NamedIndex(t.plans, "Pro")
    case None =>
      t.(plans := t.plans + [NewProPlan(t.nextId)], nextId := t.nextId + 1)
    case Some(k) =>
      t.(plans := t.plans[k := t.plans[k].(planType := Some(PRO), price := Seeds.ProPrice, features := Seeds.ProFeatures)])
  }

  // ---------------------------------------------------------------------
  // Stage 2 (lines 102-120)

  function OnPlan(id: int): Subscription -> bool { (x: Subscription) => x.planId == id }

  /** `UPDATE subscriptions SET plan_id = to WHERE plan_id = from`: no row is
      added, removed or reordered, only `plan_id` is written, only rows on
      `from` change and they all end up on `to`; for distinct plans, `to`
      gains exactly the subscriptions `from` had and `from` keeps none. */
  function Retarget(ss: seq<Subscription>, from: int, to: int): (r: seq<Subscription>)
    ensures |r| == |ss|
    ensures forall k :: 0 <= k < |ss| ==> r[k].(planId := ss[k].planId) == ss[k]
    ensures forall k :: 0 <= k < |ss| && ss[k].planId != from ==> r[k] == ss[k]
    ensures forall k :: 0 <= k < |ss| && ss[k].planId == from ==> r[k].planId == to
    ensures from != to ==>
      && Count(r, OnPlan(to)) == Count(ss, OnPlan(to)) + Count(ss, OnPlan(from))
      && Count(r, OnPlan(from)) == 0
  {
    var r := seq(|ss|, k requires 0 <= k < |ss| => if ss[k].planId == from then ss[k].(planId := to) else ss[k]);
    if from != to then
      CountMoved(ss, r, OnPlan(from), OnPlan(to));
      r
    else r
  }

  function MigrateStep(t: Tables, freeId: int, name: string): Tables
  {
    match NamedIndex(t.plans, name)
    case None => t
    case Some(k) => t.(subscriptions := Retarget(t.subscriptions, t.plans[k].id, freeId))
  }

  /** The tables after the migration loop has handled `names` in order: only
      subscriptions change, only in `plan_id`, and every one that changed
      is on the Free plan. */
  function MigrateFrom(t: Tables, freeId: int, names: seq<string>): (r: Tables)
    ensures r.(subscriptions := t.subscriptions) == t && |r.subscriptions| == |t.subscriptions|
    ensures forall k :: 0 <= k < |t.subscriptions| ==> r.subscriptions[k].(planId := t.subscriptions[k].planId) == t.subscriptions[k]
    ensures forall k :: 0 <= k < |t.subscriptions| && r.subscriptions[k] != t.subscriptions[k] ==> r.subscriptions[k].planId == freeId
  {
    if |names| == 0 then t
    else MigrateStep(MigrateFrom(t, freeId, names[..|names| - 1]), freeId, names[|names| - 1])
  }

  /** `id` is the id of the first plan carrying one of `names`. */
  predicate IsRetiredId(ps: seq<Plan>, names: seq<string>, id: int)
  {
    exists name :: name in names && FirstNamedHasId(ps, name, id)
  }

  /** The first plan called `name` exists and has id `id`. */
  predicate FirstNamedHasId(ps: seq<Plan>, name: string, id: int)
  {
    NamedIndex(ps, name).Some? && ps[NamedIndex(ps, name).value].id == id
  }

  // ---------------------------------------------------------------------
  // Stage 3 (lines 122-135)

  function DeleteStep(t: Tables, name: string): Tables
  {
    match NamedIndex(t.plans, name)
    case None => t
    case Some(k) => t.(plans := RemoveAt(t.plans, k))
  }

  function DeleteFrom(t: Tables, names: seq<string>): (d: Tables)
    ensures |d.plans| <= |t.plans|
    ensures d.(plans := t.plans) == t
  {
    if |names| == 0 then t
    else DeleteStep(DeleteFrom(t, names[..|names| - 1]), names[|names| - 1])
  }

  // ---------------------------------------------------------------------
  // The script

  /** The listing after the last commit reads `p.type.value` for every plan,
      which raises for a plan whose type is NULL. */
  predicate PlansListable(ps: seq<Plan>)
  {
    forall k :: 0 <= k < |ps| ==> ps[k].planType.Some?
  }

  /** What `cleanup_old_plans` leaves in the database. A failed stage 1 (the
      flush after an insert, the autoflush before the Pro query, or the
      commit) leaves the database as it was; a failed later stage leaves
      what the earlier stages committed. Once all three stages have
      committed, the closing listing raises, with nothing left to roll back,
      exactly when a remaining plan has no type. Only plans, subscriptions
      and the id counter are ever written. */
  function CleanupSpec(t: Tables): (r: CleanupRun)
    ensures r.tables.(plans := t.plans, subscriptions := t.subscriptions, nextId := t.nextId) == t
    ensures r.outcome == Aborted(1) ==> r.tables == t
    ensures r.outcome.ListingFailed? <==> !r.outcome.Aborted? && !PlansListable(r.tables.plans)
  {
    var (a, freeId) := EnsureFree(t);
    var b := EnsurePro(a);
    if !Consistent(a) || !Consistent(b) then CleanupRun(Aborted(1), t)
    else
      var c := MigrateFrom(b, freeId, RetiredNames);
      if !Consistent(c) then CleanupRun(Aborted(2), b)
      else
        var d := DeleteFrom(c, RetiredNames);
        if !Consistent(d) then CleanupRun(Aborted(3), c)
        else if PlansListable(d.plans) then CleanupRun(Completed(|c.plans| - |d.plans|), d)
        else CleanupRun(ListingFailed(|c.plans| - |d.plans|), d)
  }

  /** Stage 1: make sure Free and Pro exist, then commit. On failure the
      stage is rolled back. */
  method EnsurePlans(s: Session) returns (ok: bool, freeId: int)
    requires s.Idle()
    modifies s
    ensures var (a, id) := EnsureFree(old(s.db));
      && freeId == id
      && (ok <==> Consistent(a) && Consistent(EnsurePro(a)))
      && s.db == s.committed
      && s.committed == if ok then EnsurePro(a) else old(s.db)
  {
    freeId := AddOrUpdateFree(s);
    // The explicit flush after an insert, or the autoflush of the Pro query.
    ok := s.Flush();
    if !ok {
      s.Rollback();
      return;
    }
    AddOrUpdatePro(s);
    ok := s.Commit();
    if !ok {
      s.Rollback();
    }
  }

  /** Lines 30-62 on the session. */
  method AddOrUpdateFree(s: Session) returns (freeId: int)
    modifies s
    ensures (s.db, freeId) == EnsureFree(old(s.db))
    ensures s.committed == old(s.committed)
  {
    var free := NamedIndex(s.db.plans, "Free");
    if free.None? {
      freeId := s.db.nextId;
      s.db := s.db.(plans := s.db.plans + [NewFreePlan(s.db.nextId)], nextId := s.db.nextId + 1);
    } else {
      freeId := s.db.plans[free.value].id;
      s.db := s.db.(plans := s.db.plans[free.value := s.db.plans[free.value].(planType := Some(FREE), features := Seeds.FreeFeatures)]);
    }
  }

  /** Lines 65-98 on the session. */
  method AddOrUpdatePro(s: Session)
    modifies s
    ensures s.db == EnsurePro(old(s.db))
    ensures s.committed == old(s.committed)
  {
    var pro := NamedIndex(s.db.plans, "Pro");
    if pro.None? {
      s.db := s.db.(plans := s.db.plans + [NewProPlan(s.db.nextId)], nextId := s.db.nextId + 1);
    } else {
      s.db := s.db.(plans := s.db.plans[pro.value := s.db.plans[pro.value].(planType := Some(PRO), price := Seeds.ProPrice, features := Seeds.ProFeatures)]);
    }
  }

  /** Stage 2: move the subscriptions on each retired plan to Free, then
      commit. */
  method MigrateSubscriptions(s: Session, freeId: int) returns (ok: bool)
    requires s.Idle()
    modifies s
    ensures var c := MigrateFrom(old(s.db), freeId, RetiredNames);
      && (ok <==> Consistent(c))
      && s.db == s.committed
      && s.committed == if ok then c else old(s.db)
  {
    ghost var t1 := s.db;
    for i := 0 to |RetiredNames|
      invariant s.db == MigrateFrom(t1, freeId, RetiredNames[..i]) && s.committed == t1
    {
      assert RetiredNames[..i + 1][..i] == RetiredNames[..i];
      var retired := NamedIndex(s.db.plans, RetiredNames[i]);
      if retired.Some? {
        s.db := s.db.(subscriptions := Retarget(s.db.subscriptions, s.db.plans[retired.value].id, freeId));
      }
    }
    assert RetiredNames[..|RetiredNames|] == RetiredNames;
    ok := s.Commit();
    if !ok {
      s.Rollback();
    }
  }

  /** Stage 3: delete the first plan of each retired name, counting the
      deletions, then commit. */
  method DeleteRetiredPlans(s: Session) returns (ok: bool, deleted: nat)
    requires s.Idle()
    modifies s
    ensures var d := DeleteFrom(old(s.db), RetiredNames);
      && (ok <==> Consistent(d))
      && deleted == |old(s.db).plans| - |d.plans|
      && s.db == s.committed
      && s.committed == if ok then d else old(s.db)
  {
    ghost var t2 := s.db;
    deleted := 0;
    for i := 0 to |RetiredNames|
      invariant s.db == DeleteFrom(t2, RetiredNames[..i]) && s.committed == t2
      invariant deleted == |t2.plans| - |s.db.plans|
    {
      assert RetiredNames[..i + 1][..i] == RetiredNames[..i];
      var retired := NamedIndex(s.db.plans, RetiredNames[i]);
      if retired.Some? {
        s.db := s.db.(plans := RemoveAt(s.db.plans, retired.value));
        deleted := deleted + 1;
      }
    }
    assert RetiredNames[..|RetiredNames|] == RetiredNames;
    ok := s.Commit();
    if !ok {
      s.Rollback();
    }
  }

  /** The closing listing of every plan: it gets through exactly when no plan
      has a NULL type. It writes nothing. */
  method ListPlans(s: Session) returns (listed: bool)
    ensures listed <==> PlansListable(s.db.plans)
  {
    var plans := s.db.plans;
    for i := 0 to |plans|
      invariant forall k :: 0 <= k < i ==> plans[k].planType.Some?
    {
      if plans[i].planType.None? {
        return false;
      }
    }
    return true;
  }

  /** `cleanup_old_plans`: the three stages in order, stopping at the first
      that raises, then the listing of the remaining plans. */
  method CleanupOldPlans(s: Session) returns (outcome: CleanupOutcome)
    requires s.Idle()
    modifies s
    ensures var r := CleanupSpec(old(s.db));
      outcome == r.outcome && s.db == r.tables && s.committed == r.tables
  {
    var ok, freeId := EnsurePlans(s);
    if !ok {
      return Aborted(1);
    }
    ok := MigrateSubscriptions(s, freeId);
    if !ok {
      return Aborted(2);
    }
    var deleted;
    ok, deleted := DeleteRetiredPlans(s);
    if !ok {
      return Aborted(3);
    }
    var listed := ListPlans(s);
    if !listed {
      return ListingFailed(deleted);
    }
    outcome := Completed(deleted);
  }

  // ---------------------------------------------------------------------
  // Properties

  /** The price the Free plan ends up with: an existing Free plan keeps its
      own, a created one costs 0. */
  function FreePrice(t: Tables): int
  {
    match NamedIndex(t.plans, "Free")
    case None => 0
    case Some(k) => t.plans[k].price
  }

  /** A plan named Free of type FREE with the free features, the given id and
      the given price. */
  predicate HasFree(t: Tables, freeId: int, price: int)
  {
    exists p :: p in t.plans && p.name == "Free" && p.planType == Some(FREE)
      && p.features == Seeds.FreeFeatures && p.id == freeId && p.price == price
  }

  /** A plan named Pro of type PRO, priced 49900 paise, with the Pro features. */
  predicate HasPro(t: Tables)
  {
    exists p :: p in t.plans && p.name == "Pro" && p.planType == Some(PRO)
      && p.price == Seeds.ProPrice && p.features == Seeds.ProFeatures
  }

  /** `qs` is `ps` with at most one row appended, that row named `name`;
      the existing rows keep their name and id and only a row named `name`
      may change at all. */
  predicate KeepsOtherPlans(ps: seq<Plan>, qs: seq<Plan>, name: string)
  {
    && |ps| <= |qs| <= |ps| + 1
    && (forall k :: |ps| <= k < |qs| ==> qs[k].name == name)
    && (forall k :: 0 <= k < |ps| ==> qs[k].name == ps[k].name && qs[k].id == ps[k].id)
    && (forall k :: 0 <= k < |ps| && ps[k].name != name ==> qs[k] == ps[k])
  }

  /** Stage 1's first half makes Free exist with type FREE and the free
      features; a created Free plan costs 0 and takes the next id, an
      existing one keeps its price and id. Nothing else changes but the id
      counter. */
  lemma EnsureFreeEffect(t: Tables)
    ensures var (a, freeId) := EnsureFree(t);
      && HasFree(a, freeId, FreePrice(t))
      && KeepsOtherPlans(t.plans, a.plans, "Free")
      && (NamedIndex(t.plans, "Free").None? ==> freeId == t.nextId)
      && a.(plans := t.plans, nextId := t.nextId) == t
  {
    var (a, freeId) := EnsureFree(t);
    var i := NamedIndex(t.plans, "Free");
    if i.None? {
      assert a.plans[|t.plans|] == NewFreePlan(t.nextId);
    } else {
      assert a.plans[i.value].name == "Free";
    }
  }

  lemma EnsureFreeKeeps(t: Tables)
    ensures KeepsOtherPlans(t.plans, EnsureFree(t).0.plans, "Free")
  {
    var i := NamedIndex(t.plans, "Free");
    if i.Some? {
      assert t.plans[i.value].name == "Free";
    }
  }

  lemma EnsureProKeeps(t: Tables)
    ensures KeepsOtherPlans(t.plans, EnsurePro(t).plans, "Pro")
  {
    var i := NamedIndex(t.plans, "Pro");
    if i.Some? {
      assert t.plans[i.value].name == "Pro";
    }
  }

  /** Stage 1's second half makes Pro exist with type PRO, price 49900 and
      the Pro features, whether it created or updated it. */
  lemma EnsureProEffect(t: Tables)
    ensures var b := EnsurePro(t);
      && HasPro(b)
      && KeepsOtherPlans(t.plans, b.plans, "Pro")
      && b.(plans := t.plans, nextId := t.nextId) == t
  {
    var b := EnsurePro(t);
    var i := NamedIndex(t.plans, "Pro");
    if i.None? {
      assert b.plans[|t.plans|] == NewProPlan(t.nextId);
    } else {
      assert b.plans[i.value].name == "Pro";
    }
  }

  /** Lookups by any other name find the same row after such a change. */
  lemma NamedIndexKept(ps: seq<Plan>, qs: seq<Plan>, changed: string, name: string)
    requires KeepsOtherPlans(ps, qs, changed) && name != changed
    ensures NamedIndex(qs, name) == NamedIndex(ps, name)
    ensures NamedIndex(ps, name).Some? ==> qs[NamedIndex(ps, name).value].id == ps[NamedIndex(ps, name).value].id
  {
    var i, j := NamedIndex(ps, name), NamedIndex(qs, name);
    if i.Some? {
      assert j.Some?;
      assert !(j.value < i.value) && !(i.value < j.value);
    }
  }

  lemma RetiredIdsKept(ps: seq<Plan>, qs: seq<Plan>, changed: string, id: int)
    requires KeepsOtherPlans(ps, qs, changed) && changed !in RetiredNames
    ensures IsRetiredId(qs, RetiredNames, id) <==> IsRetiredId(ps, RetiredNames, id)
  {
    forall i | 0 <= i < |RetiredNames| {
      NamedIndexKept(ps, qs, changed, RetiredNames[i]);
    }
  }

  /** One more name adds the first plan of that name to the retired ids. */
  lemma RetiredIdSnoc(ps: seq<Plan>, names: seq<string>, id: int)
    requires |names| > 0
    ensures IsRetiredId(ps, names, id) <==>
      IsRetiredId(ps, names[..|names| - 1], id) || FirstNamedHasId(ps, names[|names| - 1], id)
  {
    var init, last := names[..|names| - 1], names[|names| - 1];
    assert names == init + [last];
    if IsRetiredId(ps, names, id) {
      var name :| name in names && FirstNamedHasId(ps, name, id);
      if name != last {
        assert name in init;
      }
    }
    if IsRetiredId(ps, init, id) {
      var name :| name in init && FirstNamedHasId(ps, name, id);
      assert name in names;
    }
    assert last in names;
  }

  /** After the migration loop every subscription whose plan was the first
      plan of a retired name points at Free, and every other subscription
      is exactly as it was; the plans and the other tables are untouched. */
  lemma {:induction false} MigrateEffect(t: Tables, freeId: int, names: seq<string>)
    ensures var c := MigrateFrom(t, freeId, names);
      && c.(subscriptions := t.subscriptions) == t
      && |c.subscriptions| == |t.subscriptions|
      && forall k :: 0 <= k < |t.subscriptions| ==>
           c.subscriptions[k] == t.subscriptions[k].(planId :=
             if IsRetiredId(t.plans, names, t.subscriptions[k].planId) then freeId else t.subscriptions[k].planId)
  {
    if |names| > 0 {
      var init := names[..|names| - 1];
      MigrateEffect(t, freeId, init);
      forall k | 0 <= k < |t.subscriptions| {
        RetiredIdSnoc(t.plans, names, t.subscriptions[k].planId);
      }
    }
  }

  /** Moving subscriptions between plans cannot break a constraint. */
  lemma MigrateKeepsConsistent(t: Tables, freeId: int)
    requires Consistent(t)
    ensures Consistent(MigrateFrom(t, freeId, RetiredNames))
  {
    var c := MigrateFrom(t, freeId, RetiredNames);
    MigrateEffect(t, freeId, RetiredNames);
    assert forall k :: 0 <= k < |c.subscriptions| ==>
      c.subscriptions[k].razorpaySubscriptionId == t.subscriptions[k].razorpaySubscriptionId
      && c.subscriptions[k].card == t.subscriptions[k].card;
  }

  /** Removing the plan named `name` from plans with distinct names keeps
      exactly the plans with another name, and keeps names and types
      distinct. */
  lemma DeleteStepEffect(t: Tables, name: string)
    requires UniquePlanNames(t.plans)
    ensures var d := DeleteStep(t, name);
      && UniquePlanNames(d.plans)
      && (UniquePlanTypes(t.plans) ==> UniquePlanTypes(d.plans))
      && (forall p :: p in d.plans <==> p in t.plans && p.name != name)
      && d.(plans := t.plans) == t
  {
    var i := NamedIndex(t.plans, name);
    if i.Some? {
      RemovedPlanMembers(t.plans, i.value);
      RemovalKeepsUnique(t.plans, i.value);
    }
  }

  /** Removing the only plan with its name keeps exactly the plans with
      another name. */
  lemma RemovedPlanMembers(ps: seq<Plan>, k: nat)
    requires k < |ps| && UniquePlanNames(ps)
    ensures forall p :: p in RemoveAt(ps, k) <==> p in ps && p.name != ps[k].name
  {
    var d := RemoveAt(ps, k);
    forall p
      ensures p in d <==> p in ps && p.name != ps[k].name
    {
      if p in d {
        var j :| 0 <= j < |d| && d[j] == p;
        var j' := if j < k then j else j + 1;
        assert p == ps[j'] && j' != k;
      }
      if p in ps && p.name != ps[k].name {
        var j :| 0 <= j < |ps| && ps[j] == p;
        assert d[if j < k then j else j - 1] == p;
      }
    }
  }

  /** Removing a plan keeps names and types distinct. */
  lemma RemovalKeepsUnique(ps: seq<Plan>, k: nat)
    requires k < |ps|
    ensures UniquePlanNames(ps) ==> UniquePlanNames(RemoveAt(ps, k))
    ensures UniquePlanTypes(ps) ==> UniquePlanTypes(RemoveAt(ps, k))
  {
    var d := RemoveAt(ps, k);
    forall x, y | 0 <= x < y < |d|
      ensures d[x] == ps[if x < k then x else x + 1] && d[y] == ps[if y < k then y else y + 1]
      ensures (if x < k then x else x + 1) < (if y < k then y else y + 1)
    {
    }
  }

  /** With distinct names, the deletion loop removes every plan named in
      `names` and keeps every other plan; the other tables are untouched. */
  lemma {:induction false} DeleteEffect(t: Tables, names: seq<string>)
    requires UniquePlanNames(t.plans)
    ensures var d := DeleteFrom(t, names);
      && UniquePlanNames(d.plans)
      && (UniquePlanTypes(t.plans) ==> UniquePlanTypes(d.plans))
      && (forall p :: p in d.plans <==> p in t.plans && p.name !in names)
      && d.(plans := t.plans) == t
  {
    if |names| > 0 {
      var init := names[..|names| - 1];
      DeleteEffect(t, init);
      DeleteStepEffect(DeleteFrom(t, init), names[|names| - 1]);
      assert forall x :: x in names <==> x in init || x == names[|names| - 1];
    }
  }

  /** Once stage 1 has committed, stages 2 and 3 cannot raise: the script
      either stops in stage 1 with nothing changed or runs to the end. */
  lemma OnlyStageOneAborts(t: Tables)
    ensures var r := CleanupSpec(t);
      r.outcome.Aborted? ==> r.outcome.stage == 1 && r.tables == t
  {
    var (a, freeId) := EnsureFree(t);
    var b := EnsurePro(a);
    if Consistent(a) && Consistent(b) {
      MigrateKeepsConsistent(b, freeId);
      var c := MigrateFrom(b, freeId, RetiredNames);
      MigrateEffect(b, freeId, RetiredNames);
      DeleteEffect(c, RetiredNames);
    }
  }

  /** The stages compose: the retired plans the migration looks up after
      stage 1 are the ones the original table holds. */
  lemma StageOneKeepsRetiredIds(t: Tables, id: int)
    ensures var b := EnsurePro(EnsureFree(t).0);
      IsRetiredId(b.plans, RetiredNames, id) <==> IsRetiredId(t.plans, RetiredNames, id)
  {
    var a := EnsureFree(t).0;
    EnsureFreeEffect(t);
    EnsureProEffect(a);
    KeptNamesNotRetired();
    RetiredIdsKept(t.plans, a.plans, "Free", id);
    RetiredIdsKept(a.plans, EnsurePro(a).plans, "Pro", id);
  }

  /** What a completed run is made of. */
  lemma CompletedStages(t: Tables)
    requires !CleanupSpec(t).outcome.Aborted?
    ensures var b := EnsurePro(EnsureFree(t).0);
      var c := MigrateFrom(b, EnsureFree(t).1, RetiredNames);
      && UniquePlanNames(b.plans)
      && c.plans == b.plans
      && CleanupSpec(t).tables == DeleteFrom(c, RetiredNames)
  {
    MigrateEffect(EnsurePro(EnsureFree(t).0), EnsureFree(t).1, RetiredNames);
  }

  /** After stage 1 Free and Pro hold their new terms and every plan of
      another name is still there. */
  lemma StageOnePlans(t: Tables)
    ensures var b := EnsurePro(EnsureFree(t).0);
      && HasFree(b, EnsureFree(t).1, FreePrice(t))
      && HasPro(b)
      && (forall p :: p in t.plans && p.name != "Free" && p.name != "Pro" ==> p in b.plans)
  {
    var (a, freeId) := EnsureFree(t);
    var b := EnsurePro(a);
    EnsureFreeEffect(t);
    EnsureProEffect(a);
    var fp :| fp in a.plans && fp.name == "Free" && fp.planType == Some(FREE)
      && fp.features == Seeds.FreeFeatures && fp.id == freeId && fp.price == FreePrice(t);
    var fk :| 0 <= fk < |a.plans| && a.plans[fk] == fp;
    assert b.plans[fk] == fp;
    forall p | p in t.plans && p.name != "Free" && p.name != "Pro"
      ensures p in b.plans
    {
      var j :| 0 <= j < |t.plans| && t.plans[j] == p;
      assert a.plans[j] == p && b.plans[j] == p;
    }
  }

  /** A completed run leaves Free (type FREE, created at price 0 or keeping
      its price) and Pro (type PRO, 49900), no plan with a retired name, and
      every plan of another name (Free and Pro updated in place). */
  lemma CleanupLeavesPlans(t: Tables)
    requires !CleanupSpec(t).outcome.Aborted?
    ensures var d := CleanupSpec(t).tables;
      && HasFree(d, EnsureFree(t).1, FreePrice(t))
      && HasPro(d)
      && (forall p :: p in d.plans ==> p.name !in RetiredNames)
      && (forall p :: p in t.plans && p.name !in RetiredNames && p.name != "Free" && p.name != "Pro" ==> p in d.plans)
  {
    var b := EnsurePro(EnsureFree(t).0);
    var c := MigrateFrom(b, EnsureFree(t).1, RetiredNames);
    var d := CleanupSpec(t).tables;
    CompletedStages(t);
    StageOnePlans(t);
    DeleteEffect(c, RetiredNames);
    KeptNamesNotRetired();
    var fp :| fp in b.plans && fp.name == "Free" && fp.planType == Some(FREE)
      && fp.features == Seeds.FreeFeatures && fp.id == EnsureFree(t).1 && fp.price == FreePrice(t);
    assert fp in d.plans;
    var pp :| pp in b.plans && pp.name == "Pro" && pp.planType == Some(PRO)
      && pp.price == Seeds.ProPrice && pp.features == Seeds.ProFeatures;
    assert pp in d.plans;
  }

  /** Free and Pro are not among the retired names. */
  lemma KeptNamesNotRetired()
    ensures "Free" !in RetiredNames && "Pro" !in RetiredNames
  {
    assert "Free" != "Starter" && "Free" != "Team" && "Free" != "Campus" && "Free" != "Enterprise";
    assert "Pro" != "Starter" && "Pro" != "Team" && "Pro" != "Campus" && "Pro" != "Enterprise";
  }

  /** A completed run moves every subscription that was on a retired plan
      to Free and leaves every other subscription, and every table besides
      plans and subscriptions, as it was. */
  lemma CleanupMovesSubscriptions(t: Tables)
    requires !CleanupSpec(t).outcome.Aborted?
    ensures var d := CleanupSpec(t).tables;
      var freeId := EnsureFree(t).1;
      && |d.subscriptions| == |t.subscriptions|
      && (forall k :: 0 <= k < |t.subscriptions| ==>
            d.subscriptions[k] == t.subscriptions[k].(planId :=
              if IsRetiredId(t.plans, RetiredNames, t.subscriptions[k].planId) then freeId else t.subscriptions[k].planId))
      && d.(plans := t.plans, subscriptions := t.subscriptions, nextId := t.nextId) == t
  {
    var (a, freeId) := EnsureFree(t);
    var b := EnsurePro(a);
    var c := MigrateFrom(b, freeId, RetiredNames);
    CompletedStages(t);
    StageOneKeepsRest(t);
    MigrateEffect(b, freeId, RetiredNames);
    DeleteFromKeepsRest(c, RetiredNames);
    forall k | 0 <= k < |t.subscriptions| {
      StageOneKeepsRetiredIds(t, t.subscriptions[k].planId);
    }
  }

  /** Stage 1 changes only the plans and the id counter. */
  lemma StageOneKeepsRest(t: Tables)
    ensures EnsurePro(EnsureFree(t).0).(plans := t.plans, nextId := t.nextId) == t
  {
    var a := EnsureFree(t).0;
    assert a.(plans := t.plans, nextId := t.nextId) == t;
    assert EnsurePro(a).(plans := a.plans, nextId := a.nextId) == a;
  }

  /** The deletion loop changes only the plans. */
  lemma {:induction false} DeleteFromKeepsRest(t: Tables, names: seq<string>)
    ensures DeleteFrom(t, names).(plans := t.plans) == t
  {
    if |names| > 0 {
      DeleteFromKeepsRest(t, names[..|names| - 1]);
    }
  }

  /** Primary keys: plan ids are distinct and below the next id handed out. */
  predicate PlanIdsFresh(t: Tables)
  {
    && (forall i, j :: 0 <= i < j < |t.plans| ==> t.plans[i].id != t.plans[j].id)
    && (forall k :: 0 <= k < |t.plans| ==> t.plans[k].id < t.nextId)
  }

  /** With distinct names, every plan carrying a retired name is the one the
      migration looks up. */
  lemma RetiredPlanIsLookedUp(ps: seq<Plan>, p: Plan)
    requires UniquePlanNames(ps) && p in ps && p.name in RetiredNames
    ensures IsRetiredId(ps, RetiredNames, p.id)
  {
    var j :| 0 <= j < |ps| && ps[j] == p;
    var i :| 0 <= i < |RetiredNames| && RetiredNames[i] == p.name;
    var f := NamedIndex(ps, p.name);
    assert f == Some(j) by {
      assert f.Some?;
      assert !(f.value < j) && !(j < f.value);
    }
  }

  /** Stage 1 renames nothing, so distinct names afterwards were distinct
      before. */
  lemma StageOneKeepsNames(t: Tables)
    requires UniquePlanNames(EnsurePro(EnsureFree(t).0).plans)
    ensures UniquePlanNames(t.plans)
  {
    var a := EnsureFree(t).0;
    var b := EnsurePro(a);
    EnsureFreeEffect(t);
    EnsureProEffect(a);
    forall i, j | 0 <= i < j < |t.plans|
      ensures t.plans[i].name != t.plans[j].name
    {
      assert b.plans[i].name == t.plans[i].name && b.plans[j].name == t.plans[j].name;
    }
  }

  /** The Free plan's id is no other plan's id. */
  lemma FreeIdIsOwn(t: Tables, p: Plan)
    requires PlanIdsFresh(t) && p in t.plans && p.name != "Free"
    ensures EnsureFree(t).1 != p.id
  {
    var j :| 0 <= j < |t.plans| && t.plans[j] == p;
    var f := NamedIndex(t.plans, "Free");
    if f.Some? {
      assert f.value != j;
    }
  }

  /** Referential integrity after the deletions: when plan ids are primary
      keys, no subscription is left pointing at a plan stage 3 deleted. */
  lemma NoSubscriptionOnDeletedPlan(t: Tables)
    requires PlanIdsFresh(t)
    requires !CleanupSpec(t).outcome.Aborted?
    ensures var d := CleanupSpec(t).tables;
      forall k, p :: 0 <= k < |d.subscriptions| && p in t.plans && p.name in RetiredNames ==>
        d.subscriptions[k].planId != p.id
  {
    var d := CleanupSpec(t).tables;
    CompletedStages(t);
    StageOneKeepsNames(t);
    CleanupMovesSubscriptions(t);
    forall k, p | 0 <= k < |d.subscriptions| && p in t.plans && p.name in RetiredNames
      ensures d.subscriptions[k].planId != p.id
    {
      MovedOffRetiredPlan(t, t.subscriptions[k].planId, p);
    }
  }

  /** The plan id the migration gives a subscription is never that of a
      plan with a retired name. */
  lemma MovedOffRetiredPlan(t: Tables, planId: int, p: Plan)
    requires PlanIdsFresh(t) && UniquePlanNames(t.plans)
    requires p in t.plans && p.name in RetiredNames
    ensures (if IsRetiredId(t.plans, RetiredNames, planId) then EnsureFree(t).1 else planId) != p.id
  {
    RetiredPlanIsLookedUp(t.plans, p);
    FreeIdIsOwn(t, p);
  }

  /** Giving the rows named `name` the type `ty` (appending one when there
      is none) keeps names and types distinct, provided no row of another
      name already has that type. */
  lemma EnsureKeepsUnique(ps: seq<Plan>, qs: seq<Plan>, name: string, ty: PlanType)
    requires UniquePlanNames(ps) && UniquePlanTypes(ps)
    requires forall k :: 0 <= k < |ps| && ps[k].planType == Some(ty) ==> ps[k].name == name
    requires KeepsOtherPlans(ps, qs, name)
    requires |qs| > |ps| ==> forall k :: 0 <= k < |ps| ==> ps[k].name != name
    requires forall k :: 0 <= k < |qs| && qs[k].name == name ==> qs[k].planType == Some(ty)
    ensures UniquePlanNames(qs) && UniquePlanTypes(qs)
  {
    forall i, j | 0 <= i < j < |qs|
      ensures qs[i].name != qs[j].name
    {
      if j < |ps| {
        assert qs[i].name == ps[i].name && qs[j].name == ps[j].name;
      }
    }
    forall i, j | 0 <= i < j < |qs| && qs[i].planType.Some?
      ensures qs[i].planType != qs[j].planType
    {
      if qs[i].name != name && qs[j].name != name {
        assert j < |ps| && qs[i] == ps[i] && qs[j] == ps[j];
      }
    }
  }

  lemma EnsureFreeConsistent(t: Tables)
    requires Consistent(t)
    requires forall k :: 0 <= k < |t.plans| && t.plans[k].planType == Some(FREE) ==> t.plans[k].name == "Free"
    ensures Consistent(EnsureFree(t).0)
  {
    var a := EnsureFree(t).0;
    EnsureFreeKeeps(t);
    OnlyRowTyped(t.plans, a.plans, "Free", FREE);
    EnsureKeepsUnique(t.plans, a.plans, "Free", FREE);
    assert a.(plans := t.plans, nextId := t.nextId) == t;
  }

  /** With distinct names, the row the lookup found is the only row of that
      name, so after it is given type `ty` every row of that name has it. */
  lemma OnlyRowTyped(ps: seq<Plan>, qs: seq<Plan>, name: string, ty: PlanType)
    requires UniquePlanNames(ps) && KeepsOtherPlans(ps, qs, name)
    requires NamedIndex(ps, name).Some? ==> qs[NamedIndex(ps, name).value].planType == Some(ty)
    requires forall k :: |ps| <= k < |qs| ==> qs[k].planType == Some(ty)
    ensures forall k :: 0 <= k < |qs| && qs[k].name == name ==> qs[k].planType == Some(ty)
  {
    var f := NamedIndex(ps, name);
    forall k | 0 <= k < |ps| && qs[k].name == name
      ensures qs[k].planType == Some(ty)
    {
      assert f.Some?;
      assert k == f.value by {
        assert !(k < f.value) && !(f.value < k);
      }
    }
  }

  lemma EnsureProConsistent(t: Tables)
    requires Consistent(t)
    requires forall k :: 0 <= k < |t.plans| && t.plans[k].planType == Some(PRO) ==> t.plans[k].name == "Pro"
    ensures Consistent(EnsurePro(t))
  {
    var b := EnsurePro(t);
    EnsureProKeeps(t);
    OnlyRowTyped(t.plans, b.plans, "Pro", PRO);
    EnsureKeepsUnique(t.plans, b.plans, "Pro", PRO);
    assert b.(plans := t.plans, nextId := t.nextId) == t;
  }

  /** Stage 1 commits, and so all three stages commit, when the database is
      consistent and no plan but Free has type FREE and none but Pro has
      type PRO; otherwise the unique `type` column makes it raise. */
  lemma CleanupCommits(t: Tables)
    requires Consistent(t)
    requires forall k :: 0 <= k < |t.plans| && t.plans[k].planType == Some(FREE) ==> t.plans[k].name == "Free"
    requires forall k :: 0 <= k < |t.plans| && t.plans[k].planType == Some(PRO) ==> t.plans[k].name == "Pro"
    ensures !CleanupSpec(t).outcome.Aborted?
  {
    var a := EnsureFree(t).0;
    EnsureFreeKeeps(t);
    EnsureFreeConsistent(t);
    OnlyRowTyped(t.plans, a.plans, "Free", FREE);
    TypeStaysWithName(t.plans, a.plans, "Free", FREE, "Pro", PRO);
    EnsureProConsistent(a);
    StageOneCommitted(t);
  }

  /** Once both halves of stage 1 leave a consistent database, all three
      stages commit. */
  lemma StageOneCommitted(t: Tables)
    requires Consistent(EnsureFree(t).0) && Consistent(EnsurePro(EnsureFree(t).0))
    ensures !CleanupSpec(t).outcome.Aborted?
  {
    OnlyStageOneAborts(t);
  }

  /** Giving the rows named `name` type `ty` leaves every row of another
      type `otherTy` with the name it had. */
  lemma TypeStaysWithName(ps: seq<Plan>, qs: seq<Plan>, name: string, ty: PlanType, other: string, otherTy: PlanType)
    requires KeepsOtherPlans(ps, qs, name) && ty != otherTy
    requires forall k :: 0 <= k < |qs| && qs[k].name == name ==> qs[k].planType == Some(ty)
    requires forall k :: 0 <= k < |ps| && ps[k].planType == Some(otherTy) ==> ps[k].name == other
    ensures forall k :: 0 <= k < |qs| && qs[k].planType == Some(otherTy) ==> qs[k].name == other
  {
    forall k | 0 <= k < |qs| && qs[k].planType == Some(otherTy)
      ensures qs[k].name == other
    {
      if qs[k].name != name {
        assert k < |ps| && qs[k] == ps[k];
      }
    }
  }

  /** Upserting the rows named `name` with type `ty` leaves untyped only
      rows that were there before under another name. */
  lemma UntypedKept(ps: seq<Plan>, qs: seq<Plan>, name: string, ty: PlanType)
    requires KeepsOtherPlans(ps, qs, name)
    requires forall k :: 0 <= k < |qs| && qs[k].name == name ==> qs[k].planType == Some(ty)
    ensures forall p :: p in qs && p.planType.None? ==> p in ps && p.name != name
  {
    forall p | p in qs && p.planType.None?
      ensures p in ps && p.name != name
    {
      var k :| 0 <= k < |qs| && qs[k] == p;
      assert k < |ps| && qs[k] == ps[k];
    }
  }

  /** After stage 1, a plan without a type is one of the original plans, and
      neither Free nor Pro: both of those now carry their type. */
  lemma StageOneUntyped(t: Tables)
    requires UniquePlanNames(EnsureFree(t).0.plans)
    ensures var b := EnsurePro(EnsureFree(t).0);
      forall p :: p in b.plans && p.planType.None? ==> p in t.plans && p.name != "Free" && p.name != "Pro"
  {
    var a := EnsureFree(t).0;
    var b := EnsurePro(a);
    EnsureFreeKeeps(t);
    EnsureProKeeps(a);
    assert UniquePlanNames(t.plans) by {
      forall i, j | 0 <= i < j < |t.plans|
        ensures t.plans[i].name != t.plans[j].name
      {
        assert a.plans[i].name == t.plans[i].name && a.plans[j].name == t.plans[j].name;
      }
    }
    OnlyRowTyped(t.plans, a.plans, "Free", FREE);
    OnlyRowTyped(a.plans, b.plans, "Pro", PRO);
    UntypedKept(t.plans, a.plans, "Free", FREE);
    UntypedKept(a.plans, b.plans, "Pro", PRO);
  }

  /** Stage 1 keeps every plan not named Free or Pro. */
  lemma StageOneKeepsOthers(t: Tables)
    ensures var b := EnsurePro(EnsureFree(t).0);
      forall p :: p in t.plans && p.name != "Free" && p.name != "Pro" ==> p in b.plans
  {
    StageOnePlans(t);
  }

  /** Given what stage 1 keeps, the deletions leave some plan without a type
      exactly when an original plan without a type is named neither Free,
      Pro nor a retired name. */
  lemma UntypedPlansRemaining(ps: seq<Plan>, c: Tables)
    requires UniquePlanNames(c.plans)
    requires forall p :: p in c.plans && p.planType.None? ==> p in ps && p.name != "Free" && p.name != "Pro"
    requires forall p :: p in ps && p.name != "Free" && p.name != "Pro" ==> p in c.plans
    ensures !PlansListable(DeleteFrom(c, RetiredNames).plans) <==>
      exists p :: p in ps && p.planType.None? && p.name != "Free" && p.name != "Pro" && p.name !in RetiredNames
  {
    var d := DeleteFrom(c, RetiredNames);
    DeleteEffect(c, RetiredNames);
    UntypedAmong(ps, d.plans);
  }

  /** When the untyped plans of `qs` are exactly the untyped plans of `ps`
      under names other than Free, Pro and the retired ones, `qs` has an
      untyped plan exactly when `ps` has such a plan. */
  lemma UntypedAmong(ps: seq<Plan>, qs: seq<Plan>)
    requires forall p :: p in qs && p.planType.None? ==>
               p in ps && p.name != "Free" && p.name != "Pro" && p.name !in RetiredNames
    requires forall p :: p in ps && p.planType.None? && p.name != "Free" && p.name != "Pro" && p.name !in RetiredNames ==>
               p in qs
    ensures !PlansListable(qs) <==>
      exists p :: p in ps && p.planType.None? && p.name != "Free" && p.name != "Pro" && p.name !in RetiredNames
  {
    if !PlansListable(qs) {
      var k :| 0 <= k < |qs| && qs[k].planType.None?;
      assert qs[k] in qs;
    }
    if exists p :: p in ps && p.planType.None? && p.name != "Free" && p.name != "Pro" && p.name !in RetiredNames {
      var p :| p in ps && p.planType.None? && p.name != "Free" && p.name != "Pro" && p.name !in RetiredNames;
      var k :| 0 <= k < |qs| && qs[k] == p;
    }
  }

  /** Once the three stages have committed, the closing listing raises
      exactly when the original table held a plan with no type that the run
      neither updated (Free, Pro) nor deleted (a retired name). */
  lemma ListingFailsOnUntypedPlan(t: Tables)
    requires !CleanupSpec(t).outcome.Aborted?
    ensures CleanupSpec(t).outcome.ListingFailed? <==>
      exists p :: p in t.plans && p.planType.None? && p.name != "Free" && p.name != "Pro" && p.name !in RetiredNames
  {
    CompletedStages(t);
    StageOneUntyped(t);
    StageOneKeepsOthers(t);
    UntypedPlansRemaining(t.plans, MigrateFrom(EnsurePro(EnsureFree(t).0), EnsureFree(t).1, RetiredNames));
  }

  /** The whole run completes, the listing included, when all three stages
      commit (see `CleanupCommits`) and every plan that stays has a type. */
  lemma CleanupSucceeds(t: Tables)
    requires Consistent(t)
    requires forall k :: 0 <= k < |t.plans| && t.plans[k].planType == Some(FREE) ==> t.plans[k].name == "Free"
    requires forall k :: 0 <= k < |t.plans| && t.plans[k].planType == Some(PRO) ==> t.plans[k].name == "Pro"
    requires forall k :: 0 <= k < |t.plans| && t.plans[k].planType.None? ==>
               t.plans[k].name == "Free" || t.plans[k].name == "Pro" || t.plans[k].name in RetiredNames
    ensures CleanupSpec(t).outcome.Completed?
  {
    CleanupCommits(t);
    ListingFailsOnUntypedPlan(t);
  }
}
