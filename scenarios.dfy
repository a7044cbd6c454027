/** A worked example of the engine: one symptom (cold), hypertension, frequent fish,
    vegetables and protein, and the best answer everywhere else. The rules that fire are
    stated as general lemmas about the rule functions; the example then follows the map
    through the three phases and the final decision. */
module Scenarios {
  import opened Wrappers
  import opened Survey
  import Catalog
  import opened Candidates
  import opened Ranking
  import opened Recommendation
  import Decimal

  /** The survey of the example; the basic information is left open. */
  function ColdSurvey(info: BasicInfo): SurveyValues {
    SurveyValues(info,
      Lifestyle("7_9", Good, Balanced, Frequent, Frequent, Frequent, FivePlus, Low),
      ["cold"])
  }

  const VitaminC: Candidate := Candidate("vitamin_c", 8, ["면역력 강화"])
  const Zinc: Candidate := Candidate("zinc", 8, ["정상적인 면역 기능"])
  const VitaminD5: Candidate := Candidate("vitamin_d", 5, ["기초 면역 형성"])
  const VitaminD: Candidate := Candidate("vitamin_d", 8, ["기초 면역 형성", "현대인 필수 기초 영양소"])
  const Omega3: Candidate := Candidate("omega3", 3, ["혈행 건강 기초"])
  const Coq10: Candidate := Candidate("coq10", 8, ["높은 혈압 감소에 도움"])

  /** The map after the cold rule, on the empty map. */
  const AfterCold: Acc := Acc(["vitamin_c", "zinc", "vitamin_d"],
    map["vitamin_c" := VitaminC, "zinc" := Zinc, "vitamin_d" := VitaminD5])

  /** The map after phase 1: the baseline adds to vitamin_d and appends omega3. */
  const AfterSymptoms: Acc := Acc(AfterCold.order + ["omega3"],
    AfterCold.table["vitamin_d" := VitaminD]["omega3" := Omega3])

  /** The map after phase 2: omega3 and vitamin_c lowered in place. */
  const AfterGaps: Acc := Acc(AfterSymptoms.order,
    AfterSymptoms.table["omega3" := Omega3.(score := -2)]["vitamin_c" := VitaminC.(score := 4)])

  /** The map after phase 3: coq10 appended. */
  const AfterConditions: Acc := Acc(AfterGaps.order + ["coq10"], AfterGaps.table["coq10" := Coq10])

  // ---- facts about the ids and the map updates ----

  lemma IdsInCatalog()
    ensures "vitamin_c" in Catalog.CatalogIds && "zinc" in Catalog.CatalogIds
    ensures "vitamin_d" in Catalog.CatalogIds && "omega3" in Catalog.CatalogIds
    ensures "coq10" in Catalog.CatalogIds
  {
  }

  lemma IdsApart()
    ensures "vitamin_c" != "zinc" && "vitamin_c" != "vitamin_d" && "vitamin_c" != "omega3"
    ensures "vitamin_c" != "coq10" && "zinc" != "vitamin_d" && "zinc" != "omega3" && "zinc" != "coq10"
    ensures "vitamin_d" != "omega3" && "vitamin_d" != "coq10" && "omega3" != "coq10"
    ensures "현대인 필수 기초 영양소" !in ["기초 면역 형성"]
  {
    assert "vitamin_c"[8] != "vitamin_d"[8];
  }

  lemma AppendThree(o: seq<string>, x: string, y: string, z: string)
    ensures o + [x] + [y] + [z] == o + [x, y, z]
  {
  }

  /** `addScore` of an id the map holds, with a reason it does not list yet. */
  lemma AddExisting(acc: Acc, id: string, weight: int, reason: string)
    requires WellFormed(acc) && id in Catalog.CatalogIds && id in acc.table
    requires reason !in acc.table[id].reasons
    ensures WithAdded(acc, id, weight, reason) ==
      Acc(acc.order, acc.table[id := acc.table[id].(score := acc.table[id].score + weight,
        reasons := acc.table[id].reasons + [reason])])
  {
    AddedPresent(acc, id, weight, reason);
  }

  // ---- the rules that fire in the example ----

  /** A survey without eye_tremor, fatigue, insomnia, indigestion, hair_loss and joint_pain,
      with sleep other than poor and stress other than high, passes the first seven rules
      unchanged. */
  lemma SilentRules(s: SurveyValues, acc: Acc)
    requires WellFormed(acc)
    requires "eye_tremor" !in s.symptoms && "fatigue" !in s.symptoms && "insomnia" !in s.symptoms
    requires "indigestion" !in s.symptoms && "hair_loss" !in s.symptoms && "joint_pain" !in s.symptoms
    requires s.lifestyle.sleepQuality != Poor && s.lifestyle.stressLevel != High
    ensures EyeTremorRule(s, acc) == acc && FatigueRule(s, acc) == acc && SleepRule(s, acc) == acc
    ensures StressRule(s, acc) == acc && DigestionRule(s, acc) == acc
    ensures HairLossRule(s, acc) == acc && JointRule(s, acc) == acc
  {
  }

  /** On a map holding none of its three ids, the cold rule appends vitamin_c 8, zinc 8 and
      vitamin_d 5, in that order. */
  lemma ColdRuleAppends(s: SurveyValues, acc: Acc)
    requires WellFormed(acc) && "cold" in s.symptoms
    requires "vitamin_c" !in acc.table && "zinc" !in acc.table && "vitamin_d" !in acc.table
    ensures ColdRule(s, acc) == Acc(acc.order + ["vitamin_c", "zinc", "vitamin_d"],
      acc.table["vitamin_c" := VitaminC]["zinc" := Zinc]["vitamin_d" := VitaminD5])
  {
    IdsInCatalog();
    IdsApart();
    AddedAbsent(acc, "vitamin_c", 8, "면역력 강화");
    var c1 := Acc(acc.order + ["vitamin_c"], acc.table["vitamin_c" := VitaminC]);
    AddedAbsent(c1, "zinc", 8, "정상적인 면역 기능");
    var c2 := Acc(c1.order + ["zinc"], c1.table["zinc" := Zinc]);
    AddedAbsent(c2, "vitamin_d", 5, "기초 면역 형성");
    AppendThree(acc.order, "vitamin_c", "zinc", "vitamin_d");
  }

  /** `addScore` of an id the map holds, then of a catalog id it lacks. */
  lemma ExistingThenNew(acc: Acc, i: string, wi: int, ri: string, j: string, wj: int, rj: string,
                        cj: Candidate)
    requires WellFormed(acc) && i in Catalog.CatalogIds && j in Catalog.CatalogIds && i != j
    requires cj == Candidate(j, wj, [rj])
    requires i in acc.table && j !in acc.table && ri !in acc.table[i].reasons
    ensures WithAdded(WithAdded(acc, i, wi, ri), j, wj, rj) ==
      Acc(acc.order + [j], acc.table[i := acc.table[i].(score := acc.table[i].score + wi,
        reasons := acc.table[i].reasons + [ri])][j := cj])
  {
    AddExisting(acc, i, wi, ri);
    var b := WithAdded(acc, i, wi, ri);
    AddedAbsent(b, j, wj, rj);
  }

  /** Frequent fish and vegetables, protein not rare and a diet other than fastfood: phase 2
      only lowers omega3 by 5 and then vitamin_c by 4. */
  lemma FrequentGaps(l: Lifestyle, acc: Acc)
    requires WellFormed(acc)
    requires l.dietFish == Frequent && l.dietVeg == Frequent
    requires l.dietProtein != Rare && l.dietQuality != Fastfood
    ensures GapRules(l, acc) == WithLowered(WithLowered(acc, "omega3", 5), "vitamin_c", 4)
  {
  }

  // ---- the example, phase by phase ----

  /** A survey without skin_trouble passes the skin rule unchanged. */
  lemma SkinRuleSilent(s: SurveyValues, acc: Acc)
    requires WellFormed(acc) && "skin_trouble" !in s.symptoms
    ensures SkinRule(s, acc) == acc
  {
  }

  /** The cold rule on the empty map. */
  lemma ColdRuleOnEmpty(s: SurveyValues)
    requires "cold" in s.symptoms
    ensures WellFormed(AfterCold) && ColdRule(s, Empty) == AfterCold
  {
    EmptyValid();
    ColdRuleAppends(s, Empty);
    assert [] + ["vitamin_c", "zinc", "vitamin_d"] == AfterCold.order;
  }

  /** The baseline on the map the cold rule left. */
  lemma BaselineAfterCold()
    requires WellFormed(AfterCold)
    ensures BaselineRule(AfterCold) == AfterSymptoms
  {
    IdsInCatalog();
    IdsApart();
    ExistingThenNew(AfterCold, "vitamin_d", 3, "현대인 필수 기초 영양소", "omega3", 3, "혈행 건강 기초", Omega3);
    assert VitaminD5.reasons + ["현대인 필수 기초 영양소"] == VitaminD.reasons;
  }

  /** Phase 1: only the cold rule and the baseline fire. */
  lemma ColdSurveySymptomRules(info: BasicInfo)
    ensures WellFormed(AfterCold)
    ensures SymptomRules(ColdSurvey(info)) == AfterSymptoms
  {
    var s := ColdSurvey(info);
    EmptyValid();
    SilentRules(s, Empty);
    ColdRuleOnEmpty(s);
    SkinRuleSilent(s, AfterCold);
    SymptomRulesInSteps(s, Empty, Empty, Empty, Empty, Empty, Empty, Empty, AfterCold, AfterCold);
    BaselineAfterCold();
  }

  /** Phase 2: omega3 falls to -2 and vitamin_c to 4. */
  lemma ColdSurveyGapRules(info: BasicInfo)
    requires WellFormed(AfterSymptoms)
    ensures GapRules(ColdSurvey(info).lifestyle, AfterSymptoms) == AfterGaps
  {
    IdsApart();
    FrequentGaps(ColdSurvey(info).lifestyle, AfterSymptoms);
    var f := Acc(AfterSymptoms.order, AfterSymptoms.table["omega3" := Omega3.(score := -2)]);
    assert WithLowered(AfterSymptoms, "omega3", 5) == f;
    assert f.table["vitamin_c"] == VitaminC;
  }

  /** Phase 3: hypertension appends coq10 with 8 points. */
  lemma ColdSurveyConditionRules(info: BasicInfo)
    requires info.conditions == Some(["hypertension"])
    requires WellFormed(AfterGaps)
    ensures ConditionRules(info, AfterGaps) == AfterConditions
  {
    IdsInCatalog();
    IdsApart();
    assert HasHypertension(info);
    AddedAbsent(AfterGaps, "coq10", 8, "높은 혈압 감소에 도움");
  }

  /** The three phases together. */
  lemma ColdSurveyAccumulate(info: BasicInfo)
    requires info.conditions == Some(["hypertension"])
    ensures Accumulate(ColdSurvey(info)) == AfterConditions
  {
    ColdSurveySymptomRules(info);
    ColdSurveyGapRules(info);
    ColdSurveyConditionRules(info);
  }

  lemma AfterConditionsOrder()
    ensures AfterConditions.order == ["vitamin_c", "zinc", "vitamin_d", "omega3", "coq10"]
  {
  }

  lemma AfterConditionsTable()
    ensures AfterConditions.table.Keys == {"vitamin_c", "zinc", "vitamin_d", "omega3", "coq10"}
    ensures AfterConditions.table["vitamin_c"] == VitaminC.(score := 4)
    ensures AfterConditions.table["zinc"] == Zinc
    ensures AfterConditions.table["vitamin_d"] == VitaminD
    ensures AfterConditions.table["omega3"] == Omega3.(score := -2)
    ensures AfterConditions.table["coq10"] == Coq10
  {
    IdsApart();
  }

  /** The candidates in map order: vitamin_c 4, zinc 8, vitamin_d 8, omega3 -2, coq10 8. */
  lemma ColdSurveyValues()
    requires WellFormed(AfterConditions)
    ensures Values(AfterConditions) ==
      [VitaminC.(score := 4), Zinc, VitaminD, Omega3.(score := -2), Coq10]
  {
    AfterConditionsOrder();
    AfterConditionsTable();
  }

  lemma Cons1<X>(x: X, a: X)
    ensures [x] + [a] == [x, a] && [x, a][1..] == [a]
  {
  }

  lemma Cons2<X>(x: X, a: X, b: X)
    ensures [x] + [a, b] == [x, a, b] && [x, a, b][1..] == [a, b]
  {
  }

  lemma Cons3<X>(x: X, a: X, b: X, c: X)
    ensures [x] + [a, b, c] == [x, a, b, c] && [x, a, b, c][1..] == [a, b, c]
  {
  }

  lemma Cons4<X>(x: X, a: X, b: X, c: X, d: X)
    ensures [x] + [a, b, c, d] == [x, a, b, c, d]
  {
  }

  lemma PositiveCons(x: Candidate, t: seq<Candidate>)
    ensures Positive([x] + t) == (if x.score > 0 then [x] else []) + Positive(t)
  {
    assert ([x] + t)[1..] == t;
  }

  /** The filter drops a non-positive candidate in front of a positive one. */
  lemma PositiveLastTwo(d: Candidate, e: Candidate)
    requires d.score <= 0 && e.score > 0
    ensures Positive([d, e]) == [e]
  {
    PositiveCons(e, []);
    PositiveCons(d, [e]);
    Cons1(d, e);
  }

  /** The filter drops the one non-positive candidate of five. */
  lemma PositiveDropsFourth(a: Candidate, b: Candidate, c: Candidate, d: Candidate, e: Candidate)
    requires a.score > 0 && b.score > 0 && c.score > 0 && d.score <= 0 && e.score > 0
    ensures Positive([a, b, c, d, e]) == [a, b, c, e]
  {
    PositiveLastTwo(d, e);
    PositiveCons(c, [d, e]);
    Cons2(c, d, e);
    Cons1(c, e);
    PositiveCons(b, [c, d, e]);
    Cons3(b, c, d, e);
    Cons2(b, c, e);
    PositiveCons(a, [b, c, d, e]);
    Cons4(a, b, c, d, e);
    Cons3(a, b, c, e);
  }

  lemma SortDescCons(x: Candidate, t: seq<Candidate>)
    ensures SortDesc([x] + t) == Insert(x, SortDesc(t))
  {
    assert ([x] + t)[1..] == t;
  }

  /** An element that scores at least the head goes in front. */
  lemma InsertInFront(x: Candidate, s: seq<Candidate>)
    requires SortedDesc(s) && (s == [] || s[0].score <= x.score)
    ensures Insert(x, s) == [x] + s
  {
  }

  /** Three equal scores are already sorted. */
  lemma SortThreeEqual(b: Candidate, c: Candidate, d: Candidate)
    requires b.score == c.score == d.score
    ensures SortDesc([b, c, d]) == [b, c, d]
  {
    SortDescCons(d, []);
    InsertInFront(d, []);
    assert [d] + [] == [d];
    SortDescCons(c, [d]);
    InsertInFront(c, [d]);
    Cons1(c, d);
    SortDescCons(b, [c, d]);
    InsertInFront(b, [c, d]);
    Cons2(b, c, d);
  }

  /** An element that scores below the head `h` is inserted into the tail `t`. */
  lemma InsertBehindHead(x: Candidate, h: Candidate, t: seq<Candidate>)
    requires SortedDesc(t) && SortedDesc([h] + t) && h.score > x.score
    ensures Insert(x, [h] + t) == [h] + Insert(x, t)
  {
    var s := [h] + t;
    assert s[0] == h && s[1..] == t;
    InsertBehind(x, s);
  }

  lemma InsertBehindOne(a: Candidate, d: Candidate)
    requires a.score < d.score
    ensures Insert(a, [d]) == [d, a]
  {
    SortedCons(d, []);
    InsertBehindHead(a, d, []);
    InsertInFront(a, []);
    assert [d] + [] == [d] && [a] + [] == [a];
    Cons1(d, a);
  }

  lemma InsertBehindTwo(a: Candidate, c: Candidate, d: Candidate)
    requires a.score < c.score && c.score == d.score
    ensures Insert(a, [c, d]) == [c, d, a]
  {
    SortedCons(d, []);
    assert [d] + [] == [d];
    SortedCons(c, [d]);
    InsertBehindHead(a, c, [d]);
    InsertBehindOne(a, d);
    Cons1(c, d);
    Cons2(c, d, a);
  }

  /** A lower candidate goes behind three equal ones. */
  lemma InsertBehindThree(a: Candidate, b: Candidate, c: Candidate, d: Candidate)
    requires a.score < b.score && b.score == c.score == d.score
    ensures Insert(a, [b, c, d]) == [b, c, d, a]
  {
    SortedPairOf(c, d);
    SortedCons(b, [c, d]);
    InsertBehindHead(a, b, [c, d]);
    InsertBehindTwo(a, c, d);
    Cons2(b, c, d);
    Cons3(b, c, d, a);
  }

  lemma SortedPairOf(c: Candidate, d: Candidate)
    requires c.score >= d.score
    ensures SortedDesc([c, d])
  {
    SortedCons(d, []);
    assert [d] + [] == [d];
    SortedCons(c, [d]);
    Cons1(c, d);
  }

  /** The stable sort moves a lower first candidate behind three equal ones, which keep
      their order. */
  lemma SortMovesLowerFirst(a: Candidate, b: Candidate, c: Candidate, d: Candidate)
    requires a.score < b.score && b.score == c.score == d.score
    ensures SortDesc([a, b, c, d]) == [b, c, d, a]
  {
    SortThreeEqual(b, c, d);
    SortDescCons(a, [b, c, d]);
    Cons3(a, b, c, d);
    InsertBehindThree(a, b, c, d);
  }

  /** The final decision: omega3 is filtered out, and the stable sort puts the three 8-point
      entries in map order ahead of vitamin_c at 4. */
  lemma ColdSurveyRanking()
    requires WellFormed(AfterConditions)
    ensures Ranked(Values(AfterConditions)) == [Zinc, VitaminD, Coq10, VitaminC.(score := 4)]
  {
    ColdSurveyValues();
    RankFive(VitaminC.(score := 4), Zinc, VitaminD, Omega3.(score := -2), Coq10);
  }

  /** Five candidates where the fourth is not positive and the first scores below the
      three others, which tie: the first moves behind the three. */
  lemma RankFive(a: Candidate, b: Candidate, c: Candidate, d: Candidate, e: Candidate)
    requires 0 < a.score < b.score && b.score == c.score == e.score && d.score <= 0
    ensures Ranked([a, b, c, d, e]) == [b, c, e, a]
  {
    var vs := [a, b, c, d, e];
    PositiveDropsFourth(a, b, c, d, e);
    SortMovesLowerFirst(a, b, c, e);
    RankedOfFour(vs, [b, c, e, a]);
  }

  /** Four sorted positive candidates are all kept. */
  lemma RankedOfFour(vs: seq<Candidate>, sorted: seq<Candidate>)
    requires SortDesc(Positive(vs)) == sorted && |sorted| == 4
    ensures Ranked(vs) == sorted
  {
    assert sorted[..Min(MaxRecommendations, |sorted|)] == sorted;
  }

  /** vitamin_d's two reasons give the first one and "외 1건" (1 more). */
  lemma VitaminDMatchReason()
    ensures MatchReason(VitaminD.reasons) == "기초 면역 형성 외 1건"
  {
    assert Decimal.Show(1) == "1";
  }

  /** Four ranked candidates with one reason but the second, which has two, give four
      items with their ids and match reasons. */
  lemma SelectOfFour(acc: Acc, q: seq<Candidate>)
    requires WellFormed(acc) && Ranked(Values(acc)) == q && |q| == 4
    requires |q[0].reasons| == 1 && |q[1].reasons| == 2 && |q[2].reasons| == 1 && |q[3].reasons| == 1
    ensures var r := Select(acc);
      |r| == 4 &&
      r[0].id == q[0].id && r[1].id == q[1].id && r[2].id == q[2].id && r[3].id == q[3].id &&
      r[0].matchReason == q[0].reasons[0] && r[1].matchReason == MatchReason(q[1].reasons) &&
      r[2].matchReason == q[2].reasons[0] && r[3].matchReason == q[3].reasons[0]
  {
    SelectShape(acc);
    MatchReasonForm(q[0].reasons);
    MatchReasonForm(q[2].reasons);
    MatchReasonForm(q[3].reasons);
  }

  /** The ranked candidates of the example, field by field. */
  lemma RankedFields(q: seq<Candidate>)
    requires q == [Zinc, VitaminD, Coq10, VitaminC.(score := 4)]
    ensures |q| == 4
    ensures q[0].id == "zinc" && q[1].id == "vitamin_d" && q[2].id == "coq10" && q[3].id == "vitamin_c"
    ensures q[0].reasons == ["정상적인 면역 기능"] && q[1].reasons == VitaminD.reasons
    ensures q[2].reasons == ["높은 혈압 감소에 도움"] && q[3].reasons == ["면역력 강화"]
    ensures |q[1].reasons| == 2
  {
  }

  /** The selection on the example's final map. */
  lemma ColdSurveySelect()
    requires WellFormed(AfterConditions)
    ensures var r := Select(AfterConditions);
      |r| == 4 &&
      r[0].id == "zinc" && r[1].id == "vitamin_d" && r[2].id == "coq10" && r[3].id == "vitamin_c" &&
      r[0].matchReason == "정상적인 면역 기능" &&
      r[1].matchReason == "기초 면역 형성 외 1건" &&
      r[2].matchReason == "높은 혈압 감소에 도움" &&
      r[3].matchReason == "면역력 강화"
  {
    ColdSurveyRanking();
    var q := Ranked(Values(AfterConditions));
    RankedFields(q);
    SelectOfFour(AfterConditions, q);
    VitaminDMatchReason();
  }

  /** The example end to end: zinc, vitamin_d, coq10 (each 8, in the order they entered the
      map), then vitamin_c (8 - 4); vitamin_d, with two reasons, shows "… 외 1건". */
  lemma ColdSurveyRecommendations(info: BasicInfo)
    requires info.conditions == Some(["hypertension"])
    ensures var r := Recommend(ColdSurvey(info));
      |r| == 4 &&
      r[0].id == "zinc" && r[1].id == "vitamin_d" && r[2].id == "coq10" && r[3].id == "vitamin_c" &&
      r[0].matchReason == "정상적인 면역 기능" &&
      r[1].matchReason == "기초 면역 형성 외 1건" &&
      r[2].matchReason == "높은 혈압 감소에 도움" &&
      r[3].matchReason == "면역력 강화"
  {
    ColdSurveyAccumulate(info);
    ColdSurveySelect();
  }
}
