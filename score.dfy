/** The wellness score: 100 minus fixed deductions chosen by the lifestyle
    answers, minus 3 per symptom entry, clamped below at 0. */
module HealthScore {
  import opened Wrappers
  import opened Survey

  // ---- the deductions, one per answer ----

  /** Any sleep time other than less_5 and 5_7 (including strings the form never offers) costs nothing. */
  function SleepTimeDeduction(t: string): (d: nat)
    ensures d <= 10 && (d == 10 <==> t == "less_5")
    ensures d == 0 <==> t != "less_5" && t != "5_7"
  {
    if t == "less_5" then 10 else if t == "5_7" then 5 else 0
  }

  /** Good sleep costs nothing, poor sleep the most. */
  function SleepQualityDeduction(q: SleepQuality): (d: nat)
    ensures d <= 7 && (d == 0 <==> q == Good) && (d == 7 <==> q == Poor)
  {
    match q
    case Good => 0
    case Fair => 3
    case Poor => 7
  }

  /** A balanced diet costs nothing, fast food the most. */
  function DietQualityDeduction(d: DietQuality): (r: nat)
    ensures r <= 10 && (r == 0 <==> d == Balanced) && (r == 10 <==> d == Fastfood)
  {
    match d
    case Balanced => 0
    case Irregular => 5
    case Fastfood => 10
  }

  /** vegetables, fish and protein each cost something only when eaten rarely. */
  function RareDeduction(f: Frequency, amount: nat): (d: nat)
    ensures d <= amount && (amount > 0 ==> (d == amount <==> f == Rare))
    ensures f != Rare ==> d == 0
  {
    if f == Rare then amount else 0
  }

  /** Only not exercising at all costs something. */
  function ExerciseDeduction(e: Exercise): (d: nat)
    ensures d <= 10 && (d == 0 <==> e != NoExercise)
  {
    if e == NoExercise then 10 else 0
  }

  /** Low stress costs nothing, high stress the most. */
  function StressDeduction(t: Stress): (d: nat)
    ensures d <= 10 && (d == 0 <==> t == Low) && (d == 10 <==> t == High)
  {
    match t
    case Low => 0
    case Medium => 5
    case High => 10
  }

  /** All lifestyle deductions together; every answer set costs at most 58. */
  function LifestyleDeduction(l: Lifestyle): (d: nat)
    ensures d <= 58
  {
    SleepTimeDeduction(l.sleepTime) + SleepQualityDeduction(l.sleepQuality) +
    DietQualityDeduction(l.dietQuality) +
    RareDeduction(l.dietVeg, 5) + RareDeduction(l.dietFish, 3) + RareDeduction(l.dietProtein, 3) +
    ExerciseDeduction(l.exerciseFrequency) + StressDeduction(l.stressLevel)
  }

  /** The reference definition of the score: every symptom entry counts, duplicates included.
      It lies in [0, 100] and is 100 exactly for a survey that costs nothing. */
  function Score(s: SurveyValues): (r: int)
    ensures 0 <= r <= 100
    ensures r == 100 <==> LifestyleDeduction(s.lifestyle) == 0 && s.symptoms == []
  {
    var raw := 100 - LifestyleDeduction(s.lifestyle) - 3 * |s.symptoms|;
    if raw < 0 then 0 else raw
  }

  /** The score as the source computes it: a running total updated rule by rule. */
  method CalculateHealthScore(data: SurveyValues) returns (result: int)
    ensures result == Score(data)
    ensures 0 <= result <= 100
  {
    var l := data.lifestyle;
    var score := 100;

    if l.sleepTime == "less_5" {
      score := score - 10;
    } else if l.sleepTime == "5_7" {
      score := score - 5;
    }
    if l.sleepQuality != Good {
      score := score - (if l.sleepQuality == Poor then 7 else 3);
    }
    assert score == 100 - SleepTimeDeduction(l.sleepTime) - SleepQualityDeduction(l.sleepQuality);

    if l.dietQuality == Fastfood {
      score := score - 10;
    } else if l.dietQuality == Irregular {
      score := score - 5;
    }

    if l.dietVeg == Rare { score := score - 5; }
    if l.dietFish == Rare { score := score - 3; }
    if l.dietProtein == Rare { score := score - 3; }
    assert score == 100 - SleepTimeDeduction(l.sleepTime) - SleepQualityDeduction(l.sleepQuality)
      - DietQualityDeduction(l.dietQuality)
      - RareDeduction(l.dietVeg, 5) - RareDeduction(l.dietFish, 3) - RareDeduction(l.dietProtein, 3);

    if l.exerciseFrequency == NoExercise { score := score - 10; }
    if l.stressLevel == High {
      score := score - 10;
    } else if l.stressLevel == Medium {
      score := score - 5;
    }
    assert score == 100 - LifestyleDeduction(l);

    score := score - |data.symptoms| * 3;

    result := if 0 > score then 0 else score;
  }

  // ---- properties of the score ----

  /** The three groups of lifestyle answers cost at most 17 (sleep), 21 (diet) and 20
      (exercise and stress), and the worst answers of each group reach that bound. */
  lemma GroupMaxima(l: Lifestyle)
    ensures SleepTimeDeduction(l.sleepTime) + SleepQualityDeduction(l.sleepQuality) <= 17
    ensures DietQualityDeduction(l.dietQuality) + RareDeduction(l.dietVeg, 5) +
      RareDeduction(l.dietFish, 3) + RareDeduction(l.dietProtein, 3) <= 21
    ensures ExerciseDeduction(l.exerciseFrequency) + StressDeduction(l.stressLevel) <= 20
    ensures l.sleepTime == "less_5" && l.sleepQuality == Poor ==>
      SleepTimeDeduction(l.sleepTime) + SleepQualityDeduction(l.sleepQuality) == 17
    ensures l.dietQuality == Fastfood && l.dietVeg == Rare && l.dietFish == Rare && l.dietProtein == Rare ==>
      DietQualityDeduction(l.dietQuality) + RareDeduction(l.dietVeg, 5) +
      RareDeduction(l.dietFish, 3) + RareDeduction(l.dietProtein, 3) == 21
  {
  }

  /** A survey that passed the schema has at least one symptom, so it never scores above 97. */
  lemma ValidScoreAtMost97(s: SurveyValues)
    requires Valid(s)
    ensures Score(s) <= 97
  {
  }

  /** Before the clamp the score falls by exactly 3 per extra symptom entry; after it, by at most 3. */
  lemma ExtraSymptomCostsAtMostThree(s: SurveyValues, symptom: string)
    ensures var t := s.(symptoms := s.symptoms + [symptom]);
      Score(t) <= Score(s) <= Score(t) + 3 &&
      (Score(t) > 0 ==> Score(t) == Score(s) - 3)
  {
  }

  /** With symptoms taken once each from the form's nine options, the score never drops
      below 15, so the clamp at 0 only matters for lists with repeated or foreign entries. */
  lemma {:induction false} FormSymptomsNeverClamp(s: SurveyValues)
    requires Distinct(s.symptoms)
    requires forall i :: 0 <= i < |s.symptoms| ==> s.symptoms[i] in SymptomIdSet
    ensures Score(s) >= 15
  {
    SymptomIdSetMatchesOptions();
    DistinctLength(s.symptoms);
    var elems := set x | x in s.symptoms;
    assert elems <= SymptomIdSet;
    SubsetCardinality(elems, SymptomIdSet);
  }

  lemma SubsetCardinality(a: set<string>, b: set<string>)
    requires a <= b
    ensures |a| <= |b|
  {
    assert b == a + (b - a);
  }

  lemma {:induction false} DistinctLength(xs: seq<string>)
    requires Distinct(xs)
    ensures |set x | x in xs| == |xs|
  {
    if xs != [] {
      var tail := xs[1..];
      DistinctLength(tail);
      assert (set x | x in xs) == {xs[0]} + (set x | x in tail);
      assert xs[0] !in tail;
    }
  }

  /** Scenario: worst answers everywhere with two symptoms give 36. */
  lemma WorstAnswersTwoSymptoms(info: BasicInfo)
    ensures Score(SurveyValues(info,
      Lifestyle("less_5", Poor, Fastfood, Rare, Rare, Rare, NoExercise, High),
      ["eye_tremor", "fatigue"])) == 36
  {
  }

  /** Scenario: best answers with one symptom give 97. */
  lemma BestAnswersOneSymptom(info: BasicInfo)
    ensures Score(SurveyValues(info,
      Lifestyle("7_9", Good, Balanced, Frequent, Frequent, Frequent, FivePlus, Low),
      ["cold"])) == 97
  {
  }
}
