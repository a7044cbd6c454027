/** The recommendation engine: the rule phases that fill the candidate map, the final
    selection, and `GetRecommendations`, which runs them on a fresh map. */
module Recommendation {
  import opened Wrappers
  import opened Survey
  import Catalog
  import opened Candidates
  import opened Ranking
  import Decimal

  /** A catalog entry as returned to the caller, with the synthesized justification. */
  datatype Recommendation = Recommendation(
    id: string,
    name: string,
    description: string,
    tags: seq<string>,
    matchReason: string,
    searchKeyword: string)

  // ---- phase 1: symptom and lifestyle rules ----

  function EyeTremorRule(s: SurveyValues, acc: Acc): (r: Acc)
    requires WellFormed(acc)
    ensures WellFormed(r)
  {
    if "eye_tremor" in s.symptoms then WithAdded(acc, "magnesium", 10, "눈 떨림 증상 케어") else acc
  }

  function FatigueRule(s: SurveyValues, acc: Acc): (r: Acc)
    requires WellFormed(acc)
    ensures WellFormed(r)
  {
    if "fatigue" in s.symptoms then
      WithAdded(WithAdded(acc, "vitamin_b_complex", 10, "만성 피로 회복"), "milk_thistle", 5, "피로 누적 관리")
    else acc
  }

  function SleepRule(s: SurveyValues, acc: Acc): (r: Acc)
    requires WellFormed(acc)
    ensures WellFormed(r)
  {
    if "insomnia" in s.symptoms || s.lifestyle.sleepQuality == Poor then
      WithAdded(WithAdded(acc, "magnesium", 5, "수면 질 개선"), "l_theanine", 3, "수면을 위한 이완")
    else acc
  }

  function StressRule(s: SurveyValues, acc: Acc): (r: Acc)
    requires WellFormed(acc)
    ensures WellFormed(r)
  {
    if s.lifestyle.stressLevel == High then
      WithAdded(WithAdded(acc, "magnesium", 5, "스트레스 완화"), "l_theanine", 8, "긴장 완화")
    else acc
  }

  function DigestionRule(s: SurveyValues, acc: Acc): (r: Acc)
    requires WellFormed(acc)
    ensures WellFormed(r)
  {
    if "indigestion" in s.symptoms then WithAdded(acc, "probiotics", 10, "소화 불량 및 가스 개선") else acc
  }

  function HairLossRule(s: SurveyValues, acc: Acc): (r: Acc)
    requires WellFormed(acc)
    ensures WellFormed(r)
  {
    if "hair_loss" in s.symptoms then
      WithAdded(WithAdded(acc, "biotin", 10, "모발/손톱 건강 케어"), "zinc", 5, "세포 분열 및 조직 건강")
    else acc
  }

  function JointRule(s: SurveyValues, acc: Acc): (r: Acc)
    requires WellFormed(acc)
    ensures WellFormed(r)
  {
    if "joint_pain" in s.symptoms then
      WithAdded(WithAdded(acc, "msm", 10, "관절 통증 및 불편감 완화"), "vitamin_d", 3, "뼈 건강 유지")
    else acc
  }

  function ColdRule(s: SurveyValues, acc: Acc): (r: Acc)
    requires WellFormed(acc)
    ensures WellFormed(r)
  {
    if "cold" in s.symptoms then
      WithAdded(WithAdded(WithAdded(acc, "vitamin_c", 8, "면역력 강화"), "zinc", 8, "정상적인 면역 기능"),
                "vitamin_d", 5, "기초 면역 형성")
    else acc
  }

  function SkinRule(s: SurveyValues, acc: Acc): (r: Acc)
    requires WellFormed(acc)
    ensures WellFormed(r)
  {
    if "skin_trouble" in s.symptoms then WithAdded(acc, "omega3", 3, "건조한 피부 개선") else acc
  }

  /** Added for every survey. */
  function BaselineRule(acc: Acc): (r: Acc)
    requires WellFormed(acc)
    ensures WellFormed(r)
  {
    WithAdded(WithAdded(acc, "vitamin_d", 3, "현대인 필수 기초 영양소"), "omega3", 3, "혈행 건강 기초")
  }

  function SymptomRules(s: SurveyValues): (acc: Acc)
    ensures WellFormed(acc)
  {
    EmptyValid();
    BaselineRule(SkinRule(s, ColdRule(s, JointRule(s, HairLossRule(s, DigestionRule(s,
      StressRule(s, SleepRule(s, FatigueRule(s, EyeTremorRule(s, Empty))))))))))
  }

  // ---- phase 2: gap analysis ----

  /** Frequent fish lowers an existing omega3 entry by 5; rare fish adds 5 with a reason. */
  function FishGap(l: Lifestyle, acc: Acc): (r: Acc)
    requires WellFormed(acc)
    ensures WellFormed(r)
  {
    if l.dietFish == Frequent then
      LoweredKeepsWellFormed(acc, "omega3", 5);
      WithLowered(acc, "omega3", 5)
    else if l.dietFish == Rare then WithAdded(acc, "omega3", 5, "식단 내 생선 섭취 부족")
    else acc
  }

  /** Frequent vegetables lower an existing vitamin_c entry by 4; rare vegetables add to vitamin_c and probiotics. */
  function VegGap(l: Lifestyle, acc: Acc): (r: Acc)
    requires WellFormed(acc)
    ensures WellFormed(r)
  {
    if l.dietVeg == Frequent then
      LoweredKeepsWellFormed(acc, "vitamin_c", 4);
      WithLowered(acc, "vitamin_c", 4)
    else if l.dietVeg == Rare then
      WithAdded(WithAdded(acc, "vitamin_c", 5, "채소/과일 섭취 부족"), "probiotics", 3, "식이섬유 부족 보완")
    else acc
  }

  function ProteinGap(l: Lifestyle, acc: Acc): (r: Acc)
    requires WellFormed(acc)
    ensures WellFormed(r)
  {
    if l.dietProtein == Rare then
      WithAdded(WithAdded(acc, "zinc", 5, "단백질원 섭취 부족"), "vitamin_b_complex", 3, "에너지원 섭취 부족")
    else acc
  }

  function FastfoodGap(l: Lifestyle, acc: Acc): (r: Acc)
    requires WellFormed(acc)
    ensures WellFormed(r)
  {
    if l.dietQuality == Fastfood then
      WithAdded(WithAdded(acc, "magnesium", 5, "나트륨 배출 및 미네랄 보충"), "probiotics", 5, "장내 환경 개선 시급")
    else acc
  }

  function GapRules(l: Lifestyle, acc: Acc): (r: Acc)
    requires WellFormed(acc)
    ensures WellFormed(r)
  {
    FastfoodGap(l, ProteinGap(l, VegGap(l, FishGap(l, acc))))
  }

  // ---- phase 3: conditions ----

  /** `conditions?.includes("hypertension")`: an absent list includes nothing. */
  predicate HasHypertension(info: BasicInfo) {
    info.conditions.Some? && "hypertension" in info.conditions.value
  }

  function ConditionRules(info: BasicInfo, acc: Acc): (r: Acc)
    requires WellFormed(acc)
    ensures WellFormed(r)
  {
    if HasHypertension(info) then WithAdded(acc, "coq10", 8, "높은 혈압 감소에 도움") else acc
  }

  /** The candidate map after all three phases. */
  function Accumulate(s: SurveyValues): (acc: Acc)
    ensures WellFormed(acc)
  {
    ConditionRules(s.basicInfo, GapRules(s.lifestyle, SymptomRules(s)))
  }

  // ---- phase 4: selection ----

  /** The first reason, followed by " 외 N건" (N more) when there are N further reasons. */
  function MatchReason(reasons: seq<string>): string
    requires reasons != []
  {
    reasons[0] + (if |reasons| > 1 then " 외 " + Decimal.Show(|reasons| - 1) + "건" else "")
  }

  /** `{ ...c.item, matchReason }` for the catalog item of candidate `c`. */
  function ToRecommendation(c: Candidate): Recommendation
    requires c.id in Catalog.CatalogIds && c.reasons != []
  {
    var item := Catalog.Find(c.id).value;
    Recommendation(item.id, item.name, item.description, item.tags, MatchReason(c.reasons), item.searchKeyword)
  }

  /** filter, sort, slice(0, 4), map. */
  function Select(acc: Acc): seq<Recommendation>
    requires WellFormed(acc)
  {
    var vs := Values(acc);
    var ranked := Ranked(vs);
    ValuesWellFormed(acc);
    RankedShape(vs);
    seq(|ranked|, i requires 0 <= i < |ranked| => ToRecommendation(ranked[i]))
  }

  /** The engine's result for a survey. */
  function Recommend(s: SurveyValues): seq<Recommendation> {
    Select(Accumulate(s))
  }

  /** `getRecommendations`: the rules run, in the source's order, against a fresh candidate
      map; each phase is a method of its own. */
  method GetRecommendations(data: SurveyValues) returns (result: seq<Recommendation>)
    ensures result == Recommend(data)
    ensures 0 < |result| <= MaxRecommendations
  {
    var candidates := new CandidateMap();
    ApplySymptomRules(candidates, data);
    ApplyGapRules(candidates, data.lifestyle);
    ApplyConditionRules(candidates, data.basicInfo);
    result := Select(candidates.State());
    SelectShape(candidates.State());
    RecommendationsNeverEmpty(data);
  }

  /** Phase 1: the symptom and lifestyle rules, each a method of its own, then the baseline. */
  method ApplySymptomRules(candidates: CandidateMap, data: SurveyValues)
    requires candidates.State() == Empty
    modifies candidates
    ensures candidates.State() == SymptomRules(data)
  {
    ApplyEyeTremorRule(candidates, data);
    ghost var s1 := candidates.State();
    ApplyFatigueRule(candidates, data);
    ghost var s2 := candidates.State();
    ApplySleepRule(candidates, data);
    ghost var s3 := candidates.State();
    ApplyStressRule(candidates, data);
    ghost var s4 := candidates.State();
    ApplyDigestionRule(candidates, data);
    ghost var s5 := candidates.State();
    ApplyHairLossRule(candidates, data);
    ghost var s6 := candidates.State();
    ApplyJointRule(candidates, data);
    ghost var s7 := candidates.State();
    ApplyColdRule(candidates, data);
    ghost var s8 := candidates.State();
    ApplySkinRule(candidates, data);
    ghost var s9 := candidates.State();
    ApplyBaselineRule(candidates);
    SymptomRulesInSteps(data, s1, s2, s3, s4, s5, s6, s7, s8, s9);
  }

  method ApplyEyeTremorRule(candidates: CandidateMap, data: SurveyValues)
    requires WellFormed(candidates.State())
    modifies candidates
    ensures candidates.State() == EyeTremorRule(data, old(candidates.State()))
  {
    if "eye_tremor" in data.symptoms {
      candidates.AddScore("magnesium", 10, "눈 떨림 증상 케어");
    }
  }

  method ApplyFatigueRule(candidates: CandidateMap, data: SurveyValues)
    requires WellFormed(candidates.State())
    modifies candidates
    ensures candidates.State() == FatigueRule(data, old(candidates.State()))
  {
    if "fatigue" in data.symptoms {
      candidates.AddScore("vitamin_b_complex", 10, "만성 피로 회복");
      candidates.AddScore("milk_thistle", 5, "피로 누적 관리");
    }
  }

  method ApplySleepRule(candidates: CandidateMap, data: SurveyValues)
    requires WellFormed(candidates.State())
    modifies candidates
    ensures candidates.State() == SleepRule(data, old(candidates.State()))
  {
    if "insomnia" in data.symptoms || data.lifestyle.sleepQuality == Poor {
      candidates.AddScore("magnesium", 5, "수면 질 개선");
      candidates.AddScore("l_theanine", 3, "수면을 위한 이완");
    }
  }

  method ApplyStressRule(candidates: CandidateMap, data: SurveyValues)
    requires WellFormed(candidates.State())
    modifies candidates
    ensures candidates.State() == StressRule(data, old(candidates.State()))
  {
    if data.lifestyle.stressLevel == High {
      candidates.AddScore("magnesium", 5, "스트레스 완화");
      candidates.AddScore("l_theanine", 8, "긴장 완화");
    }
  }

  method ApplyDigestionRule(candidates: CandidateMap, data: SurveyValues)
    requires WellFormed(candidates.State())
    modifies candidates
    ensures candidates.State() == DigestionRule(data, old(candidates.State()))
  {
    if "indigestion" in data.symptoms {
      candidates.AddScore("probiotics", 10, "소화 불량 및 가스 개선");
    }
  }

  method ApplyHairLossRule(candidates: CandidateMap, data: SurveyValues)
    requires WellFormed(candidates.State())
    modifies candidates
    ensures candidates.State() == HairLossRule(data, old(candidates.State()))
  {
    if "hair_loss" in data.symptoms {
      candidates.AddScore("biotin", 10, "모발/손톱 건강 케어");
      candidates.AddScore("zinc", 5, "세포 분열 및 조직 건강");
    }
  }

  method ApplyJointRule(candidates: CandidateMap, data: SurveyValues)
    requires WellFormed(candidates.State())
    modifies candidates
    ensures candidates.State() == JointRule(data, old(candidates.State()))
  {
    if "joint_pain" in data.symptoms {
      candidates.AddScore("msm", 10, "관절 통증 및 불편감 완화");
      candidates.AddScore("vitamin_d", 3, "뼈 건강 유지");
    }
  }

  method ApplyColdRule(candidates: CandidateMap, data: SurveyValues)
    requires WellFormed(candidates.State())
    modifies candidates
    ensures candidates.State() == ColdRule(data, old(candidates.State()))
  {
    if "cold" in data.symptoms {
      candidates.AddScore("vitamin_c", 8, "면역력 강화");
      candidates.AddScore("zinc", 8, "정상적인 면역 기능");
      candidates.AddScore("vitamin_d", 5, "기초 면역 형성");
    }
  }

  method ApplySkinRule(candidates: CandidateMap, data: SurveyValues)
    requires WellFormed(candidates.State())
    modifies candidates
    ensures candidates.State() == SkinRule(data, old(candidates.State()))
  {
    if "skin_trouble" in data.symptoms {
      candidates.AddScore("omega3", 3, "건조한 피부 개선");
    }
  }

  method ApplyBaselineRule(candidates: CandidateMap)
    requires WellFormed(candidates.State())
    modifies candidates
    ensures candidates.State() == BaselineRule(old(candidates.State()))
  {
    candidates.AddScore("vitamin_d", 3, "현대인 필수 기초 영양소");
    candidates.AddScore("omega3", 3, "혈행 건강 기초");
  }

  /** Phase 1 is the ten rules applied one after the other to the empty map. */
  lemma SymptomRulesInSteps(data: SurveyValues, s1: Acc, s2: Acc, s3: Acc, s4: Acc, s5: Acc,
                            s6: Acc, s7: Acc, s8: Acc, s9: Acc)
    requires s1 == EyeTremorRule(data, Empty) && s2 == FatigueRule(data, s1)
    requires s3 == SleepRule(data, s2) && s4 == StressRule(data, s3)
    requires s5 == DigestionRule(data, s4) && s6 == HairLossRule(data, s5)
    requires s7 == JointRule(data, s6) && s8 == ColdRule(data, s7) && s9 == SkinRule(data, s8)
    ensures SymptomRules(data) == BaselineRule(s9)
  {
  }

  method ApplyGapRules(candidates: CandidateMap, l: Lifestyle)
    requires WellFormed(candidates.State())
    modifies candidates
    ensures candidates.State() == GapRules(l, old(candidates.State()))
  {
    ghost var before := candidates.State();
    if l.dietFish == Frequent {
      candidates.Lower("omega3", 5);
    } else if l.dietFish == Rare {
      candidates.AddScore("omega3", 5, "식단 내 생선 섭취 부족");
    }
    assert candidates.State() == FishGap(l, before);
    before := candidates.State();
    if l.dietVeg == Frequent {
      candidates.Lower("vitamin_c", 4);
    } else if l.dietVeg == Rare {
      candidates.AddScore("vitamin_c", 5, "채소/과일 섭취 부족");
      candidates.AddScore("probiotics", 3, "식이섬유 부족 보완");
    }
    assert candidates.State() == VegGap(l, before);
    before := candidates.State();
    if l.dietProtein == Rare {
      candidates.AddScore("zinc", 5, "단백질원 섭취 부족");
      candidates.AddScore("vitamin_b_complex", 3, "에너지원 섭취 부족");
    }
    assert candidates.State() == ProteinGap(l, before);
    if l.dietQuality == Fastfood {
      candidates.AddScore("magnesium", 5, "나트륨 배출 및 미네랄 보충");
      candidates.AddScore("probiotics", 5, "장내 환경 개선 시급");
    }
  }

  /** Phase 3: the personal conditions. */
  method ApplyConditionRules(candidates: CandidateMap, info: BasicInfo)
    requires WellFormed(candidates.State())
    modifies candidates
    ensures candidates.State() == ConditionRules(info, old(candidates.State()))
  {
    if HasHypertension(info) {
      candidates.AddScore("coq10", 8, "높은 혈압 감소에 도움");
    }
  }

  // ---- properties of the selection ----

  /** The output is the ranked candidates, each turned into its catalog entry and match
      reason: at most four, all taken from the map with a positive score, in non-increasing
      score order, with no supplement twice. */
  lemma SelectShape(acc: Acc)
    requires WellFormed(acc)
    ensures var ranked := Ranked(Values(acc));
      |Select(acc)| == |ranked| <= MaxRecommendations &&
      SortedDesc(ranked) && UniqueIds(ranked) &&
      forall i :: 0 <= i < |ranked| ==>
        ranked[i].id in acc.table && acc.table[ranked[i].id] == ranked[i] &&
        ranked[i].score > 0 && ranked[i].reasons != [] &&
        Select(acc)[i].id == ranked[i].id &&
        Select(acc)[i].matchReason == MatchReason(ranked[i].reasons)
  {
    var vs := Values(acc);
    ValuesWellFormed(acc);
    RankedShape(vs);
    RankedDistinctIds(vs);
  }

  /** No two recommendations name the same supplement. */
  lemma SelectDistinct(acc: Acc)
    requires WellFormed(acc)
    ensures forall i, j :: 0 <= i < j < |Select(acc)| ==> Select(acc)[i].id != Select(acc)[j].id
  {
    SelectShape(acc);
  }

  /** Every recommendation is a catalog entry, unchanged apart from the added match reason. */
  lemma SelectCatalogEntries(acc: Acc)
    requires WellFormed(acc)
    ensures forall i :: 0 <= i < |Select(acc)| ==>
      var r := Select(acc)[i];
      Catalog.Find(r.id).Some? &&
      var item := Catalog.Find(r.id).value;
      r.name == item.name && r.description == item.description && r.tags == item.tags &&
      r.searchKeyword == item.searchKeyword
  {
    SelectShape(acc);
    var ranked := Ranked(Values(acc));
    forall i | 0 <= i < |Select(acc)|
      ensures Catalog.Find(Select(acc)[i].id).Some?
      ensures var item := Catalog.Find(Select(acc)[i].id).value;
        Select(acc)[i].name == item.name && Select(acc)[i].description == item.description &&
        Select(acc)[i].tags == item.tags && Select(acc)[i].searchKeyword == item.searchKeyword
    {
      assert Select(acc)[i] == ToRecommendation(ranked[i]);
      CatalogEntryOf(ranked[i]);
    }
  }

  /** The recommendation made from a candidate is the catalog entry for its id. */
  lemma CatalogEntryOf(c: Candidate)
    requires c.id in Catalog.CatalogIds && c.reasons != []
    ensures var r := ToRecommendation(c);
      r.id == c.id && Catalog.Find(r.id).Some? &&
      var item := Catalog.Find(r.id).value;
      r.name == item.name && r.description == item.description && r.tags == item.tags &&
      r.searchKeyword == item.searchKeyword
  {
  }

  /** A map holding a positive entry gives a non-empty selection, headed by a score at least
      as high as that entry's. */
  lemma SelectNonEmpty(acc: Acc, k: string)
    requires WellFormed(acc) && k in acc.table && acc.table[k].score > 0
    ensures |Select(acc)| > 0
    ensures Ranked(Values(acc))[0].score >= acc.table[k].score
  {
    var vs := Values(acc);
    var i :| 0 <= i < |acc.order| && acc.order[i] == k;
    assert vs[i] == acc.table[k];
    RankedNonEmpty(vs, vs[i]);
    SelectShape(acc);
  }

  /** A non-positive entry is never recommended. */
  lemma SelectSkipsNonPositive(acc: Acc, k: string)
    requires WellFormed(acc) && k in acc.table && acc.table[k].score <= 0
    ensures forall i :: 0 <= i < |Select(acc)| ==> Select(acc)[i].id != k
  {
    SelectShape(acc);
  }

  /** Only entries of the map are recommended. */
  lemma SelectOnlyFromTable(acc: Acc, k: string)
    requires WellFormed(acc) && k !in acc.table
    ensures forall i :: 0 <= i < |Select(acc)| ==> Select(acc)[i].id != k
  {
    SelectShape(acc);
  }

  /** A single reason is shown as it is; with more, the first reason is followed by " 외 ",
      the number of further reasons as a decimal numeral without leading zeros, and "건".
      A numeral without leading zeros is fixed by its value, so this pins the text. */
  lemma MatchReasonForm(reasons: seq<string>)
    requires reasons != []
    ensures |reasons| == 1 ==> MatchReason(reasons) == reasons[0]
    ensures |reasons| > 1 ==> exists digits ::
      MatchReason(reasons) == reasons[0] + " 외 " + digits + "건" &&
      |digits| > 0 && (|digits| > 1 ==> digits[0] != '0') &&
      (forall i :: 0 <= i < |digits| ==> Decimal.IsDigit(digits[i])) &&
      Decimal.Value(digits) == |reasons| - 1
  {
    if |reasons| > 1 {
      Decimal.ValueOfShow(|reasons| - 1);
      var digits := Decimal.Show(|reasons| - 1);
      assert MatchReason(reasons) == reasons[0] + " 외 " + digits + "건";
    }
  }

  // ---- what each rule touches ----

  lemma EyeTremorRuleFacts(s: SurveyValues, acc: Acc)
    requires WellFormed(acc)
    ensures Frame(acc, EyeTremorRule(s, acc), {"magnesium"})
    ensures NonNegative(acc) ==> NonNegative(EyeTremorRule(s, acc))
  {
  }

  lemma FatigueRuleFacts(s: SurveyValues, acc: Acc)
    requires WellFormed(acc)
    ensures Frame(acc, FatigueRule(s, acc), {"vitamin_b_complex", "milk_thistle"})
    ensures NonNegative(acc) ==> NonNegative(FatigueRule(s, acc))
  {
  }

  lemma SleepRuleFacts(s: SurveyValues, acc: Acc)
    requires WellFormed(acc)
    ensures Frame(acc, SleepRule(s, acc), {"magnesium", "l_theanine"})
    ensures NonNegative(acc) ==> NonNegative(SleepRule(s, acc))
  {
  }

  lemma StressRuleFacts(s: SurveyValues, acc: Acc)
    requires WellFormed(acc)
    ensures Frame(acc, StressRule(s, acc), {"magnesium", "l_theanine"})
    ensures NonNegative(acc) ==> NonNegative(StressRule(s, acc))
  {
  }

  lemma DigestionRuleFacts(s: SurveyValues, acc: Acc)
    requires WellFormed(acc)
    ensures Frame(acc, DigestionRule(s, acc), {"probiotics"})
    ensures NonNegative(acc) ==> NonNegative(DigestionRule(s, acc))
  {
  }

  lemma HairLossRuleFacts(s: SurveyValues, acc: Acc)
    requires WellFormed(acc)
    ensures Frame(acc, HairLossRule(s, acc), {"biotin", "zinc"})
    ensures NonNegative(acc) ==> NonNegative(HairLossRule(s, acc))
  {
  }

  lemma JointRuleFacts(s: SurveyValues, acc: Acc)
    requires WellFormed(acc)
    ensures Frame(acc, JointRule(s, acc), {"msm", "vitamin_d"})
    ensures NonNegative(acc) ==> NonNegative(JointRule(s, acc))
  {
  }

  lemma ColdRuleFacts(s: SurveyValues, acc: Acc)
    requires WellFormed(acc)
    ensures Frame(acc, ColdRule(s, acc), {"vitamin_c", "zinc", "vitamin_d"})
    ensures NonNegative(acc) ==> NonNegative(ColdRule(s, acc))
  {
  }

  lemma SkinRuleFacts(s: SurveyValues, acc: Acc)
    requires WellFormed(acc)
    ensures Frame(acc, SkinRule(s, acc), {"omega3"})
    ensures NonNegative(acc) ==> NonNegative(SkinRule(s, acc))
  {
  }

  lemma BaselineRuleFacts(acc: Acc)
    requires WellFormed(acc)
    ensures Frame(acc, BaselineRule(acc), {"vitamin_d", "omega3"})
    ensures NonNegative(acc) ==> NonNegative(BaselineRule(acc))
  {
  }

  lemma FishGapFacts(l: Lifestyle, acc: Acc)
    requires WellFormed(acc)
    ensures Frame(acc, FishGap(l, acc), {"omega3"})
  {
  }

  lemma VegGapFacts(l: Lifestyle, acc: Acc)
    requires WellFormed(acc)
    ensures Frame(acc, VegGap(l, acc), {"vitamin_c", "probiotics"})
  {
  }

  lemma ProteinGapFacts(l: Lifestyle, acc: Acc)
    requires WellFormed(acc)
    ensures Frame(acc, ProteinGap(l, acc), {"zinc", "vitamin_b_complex"})
  {
  }

  lemma FastfoodGapFacts(l: Lifestyle, acc: Acc)
    requires WellFormed(acc)
    ensures Frame(acc, FastfoodGap(l, acc), {"magnesium", "probiotics"})
  {
  }

  lemma ConditionRulesFacts(info: BasicInfo, acc: Acc)
    requires WellFormed(acc)
    ensures Frame(acc, ConditionRules(info, acc), {"coq10"})
  {
  }

  lemma SkinRuleOmega3(s: SurveyValues, acc: Acc)
    requires WellFormed(acc) && "omega3" !in acc.table
    ensures "omega3" in SkinRule(s, acc).table <==> "skin_trouble" in s.symptoms
    ensures "omega3" in SkinRule(s, acc).table ==> SkinRule(s, acc).table["omega3"].score == 3
  {
  }

  /** The baseline adds 3 to vitamin_d and to omega3, creating them when absent. */
  lemma BaselineScores(acc: Acc)
    requires WellFormed(acc)
    ensures "vitamin_d" in BaselineRule(acc).table && "omega3" in BaselineRule(acc).table
    ensures BaselineRule(acc).table["vitamin_d"].score ==
      (if "vitamin_d" in acc.table then acc.table["vitamin_d"].score else 0) + 3
    ensures BaselineRule(acc).table["omega3"].score ==
      (if "omega3" in acc.table then acc.table["omega3"].score else 0) + 3
  {
    var a := WithAdded(acc, "vitamin_d", 3, "현대인 필수 기초 영양소");
    assert "vitamin_d" in a.table;
  }

  /** Frequent fish lowers an omega3 entry by 5 and never creates one. */
  lemma FishGapOmega3(l: Lifestyle, acc: Acc)
    requires WellFormed(acc)
    ensures l.dietFish == Frequent ==>
      ("omega3" in FishGap(l, acc).table <==> "omega3" in acc.table)
    ensures l.dietFish == Frequent && "omega3" in acc.table ==>
      FishGap(l, acc).table["omega3"] == acc.table["omega3"].(score := acc.table["omega3"].score - 5)
  {
  }

  /** Frequent vegetables lower a vitamin_c entry by 4 and never create one. */
  lemma VegGapVitaminC(l: Lifestyle, acc: Acc)
    requires WellFormed(acc)
    ensures l.dietVeg == Frequent ==>
      ("vitamin_c" in VegGap(l, acc).table <==> "vitamin_c" in acc.table)
    ensures l.dietVeg == Frequent && "vitamin_c" in acc.table ==>
      VegGap(l, acc).table["vitamin_c"] == acc.table["vitamin_c"].(score := acc.table["vitamin_c"].score - 4)
  {
  }

  // ---- properties of the phases ----

  /** The ids the rules of each phase can touch. */
  const SymptomRuleIds: set<string> :=
    {"magnesium", "vitamin_b_complex", "milk_thistle", "l_theanine", "probiotics", "biotin",
     "zinc", "msm", "vitamin_d", "vitamin_c", "omega3"}
  const GapRuleIds: set<string> :=
    {"omega3", "vitamin_c", "probiotics", "zinc", "vitamin_b_complex", "magnesium"}

  /** How the facts of the first five rules of phase 1 compose, stated over the successive maps. */
  lemma SymptomChainHead(a0: Acc, a1: Acc, a2: Acc, a3: Acc, a4: Acc, a5: Acc)
    requires a0 == Empty
    requires Frame(a0, a1, {"magnesium"}) && (NonNegative(a0) ==> NonNegative(a1))
    requires Frame(a1, a2, {"vitamin_b_complex", "milk_thistle"}) && (NonNegative(a1) ==> NonNegative(a2))
    requires Frame(a2, a3, {"magnesium", "l_theanine"}) && (NonNegative(a2) ==> NonNegative(a3))
    requires Frame(a3, a4, {"magnesium", "l_theanine"}) && (NonNegative(a3) ==> NonNegative(a4))
    requires Frame(a4, a5, {"probiotics"}) && (NonNegative(a4) ==> NonNegative(a5))
    ensures Frame(a0, a5, {"magnesium", "vitamin_b_complex", "milk_thistle", "l_theanine", "probiotics"})
    ensures NonNegative(a5)
  {
    assert NonNegative(a0);
  }

  /** How the facts of the remaining rules of phase 1 compose with those of the first five. */
  lemma SymptomChainTail(a0: Acc, a5: Acc, a6: Acc, a7: Acc, a8: Acc, a9: Acc, a10: Acc)
    requires a0 == Empty
    requires Frame(a0, a5, {"magnesium", "vitamin_b_complex", "milk_thistle", "l_theanine", "probiotics"})
    requires NonNegative(a5)
    requires Frame(a5, a6, {"biotin", "zinc"}) && (NonNegative(a5) ==> NonNegative(a6))
    requires Frame(a6, a7, {"msm", "vitamin_d"}) && (NonNegative(a6) ==> NonNegative(a7))
    requires Frame(a7, a8, {"vitamin_c", "zinc", "vitamin_d"}) && (NonNegative(a7) ==> NonNegative(a8))
    requires Frame(a8, a9, {"omega3"}) && (NonNegative(a8) ==> NonNegative(a9))
    requires Frame(a9, a10, {"vitamin_d", "omega3"}) && (NonNegative(a9) ==> NonNegative(a10))
    ensures NonNegative(a9) && NonNegative(a10)
    ensures Frame(a0, a10, SymptomRuleIds)
  {
  }

  /** No rule before the skin rule touches omega3, so it is absent when that rule runs. */
  lemma NoOmega3BeforeSkinRule(a0: Acc, a5: Acc, a6: Acc, a7: Acc, a8: Acc)
    requires a0 == Empty
    requires Frame(a0, a5, {"magnesium", "vitamin_b_complex", "milk_thistle", "l_theanine", "probiotics"})
    requires Frame(a5, a6, {"biotin", "zinc"})
    requires Frame(a6, a7, {"msm", "vitamin_d"})
    requires Frame(a7, a8, {"vitamin_c", "zinc", "vitamin_d"})
    ensures "omega3" !in a8.table
  {
    FrameAbsent(a0, a5, {"magnesium", "vitamin_b_complex", "milk_thistle", "l_theanine", "probiotics"}, "omega3");
    FrameAbsent(a5, a6, {"biotin", "zinc"}, "omega3");
    FrameAbsent(a6, a7, {"msm", "vitamin_d"}, "omega3");
    FrameAbsent(a7, a8, {"vitamin_c", "zinc", "vitamin_d"}, "omega3");
  }

  /** Phase 1 creates entries only for its own ids and never a negative score; vitamin_d ends
      at 3 or more, and omega3 at exactly 3, or 6 with skin trouble. */
  lemma SymptomRulesFacts(s: SurveyValues)
    ensures Frame(Empty, SymptomRules(s), SymptomRuleIds) && NonNegative(SymptomRules(s))
    ensures "vitamin_d" in SymptomRules(s).table && SymptomRules(s).table["vitamin_d"].score >= 3
    ensures "omega3" in SymptomRules(s).table &&
      SymptomRules(s).table["omega3"].score == if "skin_trouble" in s.symptoms then 6 else 3
  {
    EmptyValid();
    var a1 := EyeTremorRule(s, Empty);
    EyeTremorRuleFacts(s, Empty);
    var a2 := FatigueRule(s, a1);
    FatigueRuleFacts(s, a1);
    var a3 := SleepRule(s, a2);
    SleepRuleFacts(s, a2);
    var a4 := StressRule(s, a3);
    StressRuleFacts(s, a3);
    var a5 := DigestionRule(s, a4);
    DigestionRuleFacts(s, a4);
    var a6 := HairLossRule(s, a5);
    HairLossRuleFacts(s, a5);
    var a7 := JointRule(s, a6);
    JointRuleFacts(s, a6);
    var a8 := ColdRule(s, a7);
    ColdRuleFacts(s, a7);
    var a9 := SkinRule(s, a8);
    SkinRuleFacts(s, a8);
    var a10 := BaselineRule(a9);
    BaselineRuleFacts(a9);
    SymptomChainHead(Empty, a1, a2, a3, a4, a5);
    SymptomChainTail(Empty, a5, a6, a7, a8, a9, a10);
    NoOmega3BeforeSkinRule(Empty, a5, a6, a7, a8);
    SkinRuleOmega3(s, a8);
    BaselineScores(a9);
    assert SymptomRules(s) == a10;
  }

  /** How the facts of the single rules of phase 2 compose, stated over the successive maps. */
  lemma GapChain(a0: Acc, a1: Acc, a2: Acc, a3: Acc, a4: Acc)
    requires Frame(a0, a1, {"omega3"})
    requires Frame(a1, a2, {"vitamin_c", "probiotics"})
    requires Frame(a2, a3, {"zinc", "vitamin_b_complex"})
    requires Frame(a3, a4, {"magnesium", "probiotics"})
    ensures Frame(a0, a4, GapRuleIds)
    ensures "omega3" in a1.table ==> "omega3" in a4.table && a4.table["omega3"] == a1.table["omega3"]
  {
  }

  /** Phase 2 creates entries only for its own ids and leaves every other entry as it was. */
  lemma GapRulesFrame(l: Lifestyle, acc: Acc)
    requires WellFormed(acc)
    ensures Frame(acc, GapRules(l, acc), GapRuleIds)
    ensures l.dietFish == Frequent && "omega3" in acc.table ==>
      "omega3" in GapRules(l, acc).table &&
      GapRules(l, acc).table["omega3"].score == acc.table["omega3"].score - 5
  {
    var a1 := FishGap(l, acc);
    FishGapFacts(l, acc);
    FishGapOmega3(l, acc);
    var a2 := VegGap(l, a1);
    VegGapFacts(l, a1);
    var a3 := ProteinGap(l, a2);
    ProteinGapFacts(l, a2);
    var a4 := FastfoodGap(l, a3);
    FastfoodGapFacts(l, a3);
    GapChain(acc, a1, a2, a3, a4);
    assert GapRules(l, acc) == a4;
  }

  /** Which of the ids the later phases look at lie outside the ids the earlier phases touch. */
  lemma PhaseIdsApart()
    ensures "coq10" !in SymptomRuleIds && "coq10" !in GapRuleIds
    ensures "vitamin_d" !in GapRuleIds && "vitamin_d" !in {"coq10"} && "omega3" !in {"coq10"}
  {
  }

  /** An entry outside the ids two successive updates may touch survives both unchanged. */
  lemma KeptThrough(a: Acc, b: Acc, c: Acc, x: set<string>, y: set<string>, k: string)
    requires Frame(a, b, x) && Frame(b, c, y)
    requires k !in x && k !in y
    ensures k in c.table <==> k in a.table
    ensures k in a.table ==> c.table[k] == a.table[k]
  {
  }

  /** The one rule of phase 3 adds coq10 exactly for hypertension, with 8 points and its reason. */
  lemma ConditionRulesCoq10(info: BasicInfo, acc: Acc)
    requires WellFormed(acc) && "coq10" !in acc.table
    ensures "coq10" in ConditionRules(info, acc).table <==> HasHypertension(info)
    ensures HasHypertension(info) ==>
      ConditionRules(info, acc).table["coq10"] == Candidate("coq10", 8, ["높은 혈압 감소에 도움"])
  {
    if HasHypertension(info) {
      AddedEffect(acc, "coq10", 8, "높은 혈압 감소에 도움");
    }
  }

  // ---- properties of the engine ----

  /** vitamin_d always receives the baseline 3 and no later rule touches it, so the result is
      never empty and its first entry scores at least 3. */
  lemma RecommendationsNeverEmpty(s: SurveyValues)
    ensures |Recommend(s)| > 0
    ensures Ranked(Values(Accumulate(s)))[0].score >= 3
  {
    var a := SymptomRules(s);
    SymptomRulesFacts(s);
    var g := GapRules(s.lifestyle, a);
    GapRulesFrame(s.lifestyle, a);
    var c := ConditionRules(s.basicInfo, g);
    ConditionRulesFacts(s.basicInfo, g);
    PhaseIdsApart();
    KeptThrough(a, g, c, GapRuleIds, {"coq10"}, "vitamin_d");
    assert Accumulate(s) == c;
    SelectNonEmpty(c, "vitamin_d");
  }

  /** coq10 is a candidate exactly when the conditions list hypertension, and then it holds
      8 points and its one reason; absent conditions therefore never yield coq10. */
  lemma HypertensionAddsCoq10(s: SurveyValues)
    ensures "coq10" in Accumulate(s).table <==> HasHypertension(s.basicInfo)
    ensures HasHypertension(s.basicInfo) ==>
      Accumulate(s).table["coq10"] == Candidate("coq10", 8, ["높은 혈압 감소에 도움"])
    ensures s.basicInfo.conditions == None ==> forall i :: 0 <= i < |Recommend(s)| ==> Recommend(s)[i].id != "coq10"
  {
    var a := SymptomRules(s);
    SymptomRulesFacts(s);
    var g := GapRules(s.lifestyle, a);
    GapRulesFrame(s.lifestyle, a);
    PhaseIdsApart();
    KeptThrough(Empty, a, g, SymptomRuleIds, GapRuleIds, "coq10");
    ConditionRulesCoq10(s.basicInfo, g);
    assert Accumulate(s) == ConditionRules(s.basicInfo, g);
    if !HasHypertension(s.basicInfo) {
      SelectOnlyFromTable(Accumulate(s), "coq10");
    }
  }

  /** With frequent fish and no skin trouble, omega3 ends at 3 - 5 = -2 and is never recommended. */
  lemma FrequentFishDropsOmega3(s: SurveyValues)
    requires s.lifestyle.dietFish == Frequent && "skin_trouble" !in s.symptoms
    ensures "omega3" in Accumulate(s).table && Accumulate(s).table["omega3"].score == -2
    ensures forall i :: 0 <= i < |Recommend(s)| ==> Recommend(s)[i].id != "omega3"
  {
    var a := SymptomRules(s);
    SymptomRulesFacts(s);
    var g := GapRules(s.lifestyle, a);
    GapRulesFrame(s.lifestyle, a);
    var c := ConditionRules(s.basicInfo, g);
    ConditionRulesFacts(s.basicInfo, g);
    PhaseIdsApart();
    FrameKeeps(g, c, {"coq10"}, "omega3");
    assert Accumulate(s) == c;
    SelectSkipsNonPositive(c, "omega3");
  }
}
