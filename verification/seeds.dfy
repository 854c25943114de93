/**
 * The seeding scripts: aspy_backend/seed_plans.py inserts the Free and Pro
 * plans unless a plan of that type exists, and aspy_backend/seed_languages.py
 * inserts the eight languages unless one with that slug exists. Each ends
 * with a single commit; an exception there propagates and nothing is kept.
 */
module Seeds {
  import opened Common
  import opened Models
  import opened Store

  /** The Free plan's features, as the JSON text in the script reads. */
  const FreeFeatures := Mapping([
    ("ides", FText("1 IDE")),
    ("code_runs", FText("20 runs/month")),
    ("max_execution_time", FText("5 seconds")),
    ("files", FText("Single file only")),
    ("history", FText("No history save")),
    ("support", FText("Community support")),
    ("export", FBool(false))])

  const ProFeatures := Mapping([
    ("ides", FText("1 IDE (full access)")),
    ("code_runs", FText("Unlimited")),
    ("max_execution_time", FText("Higher limits")),
    ("files", FText("Save & reuse code")),
    ("history", FText("Execution history")),
    ("export", FText("Export output")),
    ("support", FText("Email support"))])

  const ProPrice := 49900

  datatype PlanSeed = PlanSeed(name: string, planType: PlanType, price: int, currency: string, features: Features)

  const PlanSeeds: seq<PlanSeed> := [
    PlanSeed("Free", FREE, 0, "INR", FreeFeatures),
    PlanSeed("Pro", PRO, ProPrice, "INR", ProFeatures)]

  // ---------------------------------------------------------------------
  // seed_plans (seed_plans.py, lines 19-67)
  // ---------------------------------------------------------------------

  predicate HasPlanType(t: Tables, ty: PlanType)
  {
    exists k :: 0 <= k < |t.plans| && t.plans[k].planType == Some(ty)
  }

  function PlanFromSeed(id: int, seed: PlanSeed): Plan
  {
    Plan(id, seed.name, Some(seed.planType), seed.price, seed.currency, seed.features, None)
  }

  /** One iteration: skip when a plan of the seed's type exists, else add. */
  function SeedPlan(t: Tables, seed: PlanSeed): (r: Tables)
    ensures HasPlanType(t, seed.planType) ==> r == t
    ensures !HasPlanType(t, seed.planType) ==>
      r == t.(plans := t.plans + [PlanFromSeed(t.nextId, seed)], nextId := t.nextId + 1)
  {
    if First(t.plans, (p: Plan) => p.planType == Some(seed.planType)).Some? then t
    else t.(plans := t.plans + [PlanFromSeed(t.nextId, seed)], nextId := t.nextId + 1)
  }

  /** The seeds applied in order. */
  function SeedPlansFrom(t: Tables, seeds: seq<PlanSeed>): Tables
  {
    if |seeds| == 0 then t else SeedPlan(SeedPlansFrom(t, seeds[..|seeds| - 1]), seeds[|seeds| - 1])
  }

  method SeedPlans(s: Session) returns (ok: bool)
    requires s.Idle()
    modifies s
    ensures var t := SeedPlansFrom(old(s.db), PlanSeeds);
      && (ok <==> Consistent(t))
      && s.db == s.committed
      && s.committed == if ok then t else old(s.committed)
  {
    ghost var t0 := s.db;
    for i := 0 to |PlanSeeds|
      invariant s.db == SeedPlansFrom(t0, PlanSeeds[..i]) && s.committed == t0
    {
      var seed := PlanSeeds[i];
      assert PlanSeeds[..i + 1][..i] == PlanSeeds[..i];
      var existing := First(s.db.plans, (p: Plan) => p.planType == Some(seed.planType));
      if existing.None? {
        s.db := s.db.(plans := s.db.plans + [PlanFromSeed(s.db.nextId, seed)], nextId := s.db.nextId + 1);
      }
    }
    assert PlanSeeds[..|PlanSeeds|] == PlanSeeds;
    ok := s.Commit();
    if !ok {
      s.Rollback();
    }
  }

  /** Seeding only appends plans: existing plans are never changed. */
  lemma {:induction false} SeedPlansAppends(t: Tables, seeds: seq<PlanSeed>)
    ensures var r := SeedPlansFrom(t, seeds);
      |t.plans| <= |r.plans| && r.plans[..|t.plans|] == t.plans && r == t.(plans := r.plans, nextId := r.nextId)
    ensures forall ty :: HasPlanType(t, ty) ==> HasPlanType(SeedPlansFrom(t, seeds), ty)
  {
    if |seeds| > 0 {
      SeedPlansAppends(t, seeds[..|seeds| - 1]);
      var m := SeedPlansFrom(t, seeds[..|seeds| - 1]);
      forall ty | HasPlanType(m, ty)
        ensures HasPlanType(SeedPlan(m, seeds[|seeds| - 1]), ty)
      {
        var k :| 0 <= k < |m.plans| && m.plans[k].planType == Some(ty);
        assert SeedPlan(m, seeds[|seeds| - 1]).plans[k] == m.plans[k];
      }
    }
  }

  /** Afterwards there is a plan of every seeded type. */
  lemma {:induction false} SeedPlansCoverTypes(t: Tables, seeds: seq<PlanSeed>)
    ensures forall k :: 0 <= k < |seeds| ==> HasPlanType(SeedPlansFrom(t, seeds), seeds[k].planType)
  {
    if |seeds| > 0 {
      var init := seeds[..|seeds| - 1];
      var last := seeds[|seeds| - 1];
      var m := SeedPlansFrom(t, init);
      SeedPlansCoverTypes(t, init);
      var r := SeedPlan(m, last);
      forall ty | HasPlanType(m, ty)
        ensures HasPlanType(r, ty)
      {
        var k :| 0 <= k < |m.plans| && m.plans[k].planType == Some(ty);
        assert r.plans[k] == m.plans[k];
      }
      if !HasPlanType(m, last.planType) {
        assert r.plans[|m.plans|].planType == Some(last.planType);
      }
      forall k | 0 <= k < |seeds|
        ensures HasPlanType(r, seeds[k].planType)
      {
        if k < |seeds| - 1 {
          assert seeds[k] == init[k];
        }
      }
    }
  }

  /** When every seeded type is already present nothing is inserted. */
  lemma {:induction false} SeedPlansSkipsPresent(t: Tables, seeds: seq<PlanSeed>)
    requires forall k :: 0 <= k < |seeds| ==> HasPlanType(t, seeds[k].planType)
    ensures SeedPlansFrom(t, seeds) == t
  {
    if |seeds| > 0 {
      var init := seeds[..|seeds| - 1];
      assert forall k :: 0 <= k < |init| ==> init[k] == seeds[k];
      SeedPlansSkipsPresent(t, init);
    }
  }

  /** With two seeds the script is one step per seed. */
  lemma SeedPlansTwoSteps(t: Tables)
    ensures SeedPlansFrom(t, PlanSeeds) == SeedPlan(SeedPlan(t, PlanSeeds[0]), PlanSeeds[1])
  {
    TwoSteps(t, PlanSeeds);
  }

  /** Adding the Free plan does not add a PRO plan. */
  lemma FreeSeedKeepsPro(t: Tables)
    ensures HasPlanType(SeedPlan(t, PlanSeeds[0]), PRO) <==> HasPlanType(t, PRO)
  {
    SeedKeepsOtherType(t, PlanSeeds[0], PRO);
  }

  /** Seeding one type does not add a plan of another type. */
  lemma SeedKeepsOtherType(t: Tables, seed: PlanSeed, ty: PlanType)
    requires seed.planType != ty
    ensures HasPlanType(SeedPlan(t, seed), ty) <==> HasPlanType(t, ty)
  {
    var m := SeedPlan(t, seed);
    if HasPlanType(m, ty) {
      var k :| 0 <= k < |m.plans| && m.plans[k].planType == Some(ty);
      assert k < |t.plans|;
      assert t.plans[k] == m.plans[k];
    }
    if HasPlanType(t, ty) {
      var k :| 0 <= k < |t.plans| && t.plans[k].planType == Some(ty);
      assert m.plans[k] == t.plans[k];
    }
  }

  /** The script's effect: existing plans stay as they are; afterwards a FREE
      and a PRO plan exist; a plan is added for a type exactly when none of
      that type existed, carrying the seed's name, type, price (Free 0, Pro
      49900) and currency INR; and a second run changes nothing. */
  lemma SeedPlansEffect(t: Tables)
    ensures var r := SeedPlansFrom(t, PlanSeeds);
      && |t.plans| <= |r.plans| && r.plans[..|t.plans|] == t.plans
      && HasPlanType(r, FREE) && HasPlanType(r, PRO)
      && SeedPlansFrom(r, PlanSeeds) == r
  {
    var r := SeedPlansFrom(t, PlanSeeds);
    SeedPlansAppends(t, PlanSeeds);
    SeedPlansCoverTypes(t, PlanSeeds);
    assert HasPlanType(r, PlanSeeds[0].planType) && HasPlanType(r, PlanSeeds[1].planType);
    SeedPlansSkipsPresent(r, PlanSeeds);
  }

  /** What is inserted: the Free plan exactly when no FREE plan existed, then
      the Pro plan exactly when no PRO plan existed, each with its seed's
      values and a fresh id. */
  lemma SeedPlansInserts(t: Tables)
    ensures var r := SeedPlansFrom(t, PlanSeeds);
      var added := (if HasPlanType(t, FREE) then [] else [PlanFromSeed(t.nextId, PlanSeeds[0])]);
      var next := t.nextId + |added|;
      r.plans == t.plans + added + (if HasPlanType(t, PRO) then [] else [PlanFromSeed(next, PlanSeeds[1])])
  {
    SeedTypes();
    TwoSeedsInsert(t, PlanSeeds);
  }

  lemma SeedTypes()
    ensures |PlanSeeds| == 2 && PlanSeeds[0].planType == FREE && PlanSeeds[1].planType == PRO
  {
  }

  /** Two seeds of different types append, in order, a plan for each type
      that was absent. */
  lemma TwoSeedsInsert(t: Tables, seeds: seq<PlanSeed>)
    requires |seeds| == 2 && seeds[0].planType != seeds[1].planType
    ensures var r := SeedPlansFrom(t, seeds);
      var added := (if HasPlanType(t, seeds[0].planType) then [] else [PlanFromSeed(t.nextId, seeds[0])]);
      r.plans == t.plans + added
        + (if HasPlanType(t, seeds[1].planType) then [] else [PlanFromSeed(t.nextId + |added|, seeds[1])])
  {
    TwoSteps(t, seeds);
    SeedKeepsOtherType(t, seeds[0], seeds[1].planType);
    var m := SeedPlan(t, seeds[0]);
    var added := (if HasPlanType(t, seeds[0].planType) then [] else [PlanFromSeed(t.nextId, seeds[0])]);
    assert m.plans == t.plans + added && m.nextId == t.nextId + |added|;
  }

  lemma TwoSteps(t: Tables, seeds: seq<PlanSeed>)
    requires |seeds| == 2
    ensures SeedPlansFrom(t, seeds) == SeedPlan(SeedPlan(t, seeds[0]), seeds[1])
  {
    var one := seeds[..1];
    assert SeedPlansFrom(t, seeds) == SeedPlan(SeedPlansFrom(t, one), seeds[1]);
    assert one[..0] == [] && one[0] == seeds[0];
    assert SeedPlansFrom(t, one) == SeedPlan(SeedPlansFrom(t, []), seeds[0]);
  }

  // ---------------------------------------------------------------------
  // seed_languages.py (lines 1-29)
  // ---------------------------------------------------------------------

  datatype LanguageSeed = LanguageSeed(name: string, slug: string)

  const LanguageSeeds: seq<LanguageSeed> := [
    LanguageSeed("English", "english"),
    LanguageSeed("Assamese", "assamese"),
    LanguageSeed("Bengali", "bengali"),
    LanguageSeed("Bodo", "bodo"),
    LanguageSeed("Manipuri", "manipuri"),
    LanguageSeed("Khasi", "khasi"),
    LanguageSeed("Garo", "garo"),
    LanguageSeed("Mizo", "mizo")]

  predicate HasSlug(t: Tables, slug: string)
  {
    exists k :: 0 <= k < |t.languages| && t.languages[k].slug == slug
  }

  function SeedLanguage(t: Tables, seed: LanguageSeed): (r: Tables)
    ensures HasSlug(t, seed.slug) ==> r == t
    ensures !HasSlug(t, seed.slug) ==>
      r == t.(languages := t.languages + [Language(t.nextId, seed.name, seed.slug)], nextId := t.nextId + 1)
  {
    if First(t.languages, (l: Language) => l.slug == seed.slug).Some? then t
    else t.(languages := t.languages + [Language(t.nextId, seed.name, seed.slug)], nextId := t.nextId + 1)
  }

  function SeedLanguagesFrom(t: Tables, seeds: seq<LanguageSeed>): Tables
  {
    if |seeds| == 0 then t else SeedLanguage(SeedLanguagesFrom(t, seeds[..|seeds| - 1]), seeds[|seeds| - 1])
  }

  method SeedLanguages(s: Session) returns (ok: bool)
    requires s.Idle()
    modifies s
    ensures var t := SeedLanguagesFrom(old(s.db), LanguageSeeds);
      && (ok <==> Consistent(t))
      && s.db == s.committed
      && s.committed == if ok then t else old(s.committed)
  {
    ghost var t0 := s.db;
    for i := 0 to |LanguageSeeds|
      invariant s.db == SeedLanguagesFrom(t0, LanguageSeeds[..i]) && s.committed == t0
    {
      var seed := LanguageSeeds[i];
      assert LanguageSeeds[..i + 1][..i] == LanguageSeeds[..i];
      var existing := First(s.db.languages, (l: Language) => l.slug == seed.slug);
      if existing.None? {
        s.db := s.db.(languages := s.db.languages + [Language(s.db.nextId, seed.name, seed.slug)], nextId := s.db.nextId + 1);
      }
    }
    assert LanguageSeeds[..|LanguageSeeds|] == LanguageSeeds;
    ok := s.Commit();
    if !ok {
      s.Rollback();
    }
  }

  /** Seeding languages only appends rows, and afterwards every seeded slug
      is present. */
  lemma {:induction false} SeedLanguagesCover(t: Tables, seeds: seq<LanguageSeed>)
    ensures var r := SeedLanguagesFrom(t, seeds);
      && |t.languages| <= |r.languages| && r.languages[..|t.languages|] == t.languages
      && r == t.(languages := r.languages, nextId := r.nextId)
      && (forall k :: 0 <= k < |seeds| ==> HasSlug(r, seeds[k].slug))
      && (forall slug :: HasSlug(t, slug) ==> HasSlug(r, slug))
  {
    if |seeds| > 0 {
      var init := seeds[..|seeds| - 1];
      var last := seeds[|seeds| - 1];
      SeedLanguagesCover(t, init);
      var m := SeedLanguagesFrom(t, init);
      var r := SeedLanguage(m, last);
      forall slug | HasSlug(m, slug)
        ensures HasSlug(r, slug)
      {
        var k :| 0 <= k < |m.languages| && m.languages[k].slug == slug;
        assert r.languages[k] == m.languages[k];
      }
      if !HasSlug(m, last.slug) {
        assert r.languages[|m.languages|].slug == last.slug;
      }
      forall k | 0 <= k < |seeds|
        ensures HasSlug(r, seeds[k].slug)
      {
        if k < |seeds| - 1 {
          assert seeds[k] == init[k];
        }
      }
      forall slug | HasSlug(t, slug)
        ensures HasSlug(r, slug)
      {
        assert HasSlug(m, slug);
      }
    }
  }

  lemma {:induction false} SeedLanguagesSkipsPresent(t: Tables, seeds: seq<LanguageSeed>)
    requires forall k :: 0 <= k < |seeds| ==> HasSlug(t, seeds[k].slug)
    ensures SeedLanguagesFrom(t, seeds) == t
  {
    if |seeds| > 0 {
      var init := seeds[..|seeds| - 1];
      assert forall k :: 0 <= k < |init| ==> init[k] == seeds[k];
      SeedLanguagesSkipsPresent(t, init);
    }
  }

  /** The script leaves every existing language alone, makes every one of the
      eight slugs present, and a second run inserts nothing. */
  lemma SeedLanguagesEffect(t: Tables)
    ensures var r := SeedLanguagesFrom(t, LanguageSeeds);
      && |t.languages| <= |r.languages| && r.languages[..|t.languages|] == t.languages
      && (forall k :: 0 <= k < |LanguageSeeds| ==> HasSlug(r, LanguageSeeds[k].slug))
      && SeedLanguagesFrom(r, LanguageSeeds) == r
  {
    SeedLanguagesCover(t, LanguageSeeds);
    SeedLanguagesSkipsPresent(SeedLanguagesFrom(t, LanguageSeeds), LanguageSeeds);
  }
}
