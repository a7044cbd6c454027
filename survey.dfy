/** The survey record the engine consumes, and the schema that admits it.
    Closed enumerations become datatypes; each has its wire name and a parser
    that accepts exactly the listed names. `ParseSurvey` is the schema's
    accept/reject decision on a raw (all-string) record. */
module Survey {
  import opened Wrappers

  datatype Gender = Male | Female
  datatype SleepQuality = Good | Fair | Poor
  datatype DietQuality = Balanced | Irregular | Fastfood
  /** Shared by dietFish, dietVeg and dietProtein. */
  datatype Frequency = Rare | Moderate | Frequent
  datatype Exercise = NoExercise | OneToTwo | ThreeToFour | FivePlus
  datatype Stress = Low | Medium | High

  datatype BasicInfo = BasicInfo(
    age: string,
    gender: Gender,
    height: string,
    weight: string,
    conditions: Option<seq<string>>,
    medications: Option<string>)

  /** `sleepTime` is a free string: the form offers less_5, 5_7, 7_9 and more_9,
      but the schema only asks for a non-empty string. */
  datatype Lifestyle = Lifestyle(
    sleepTime: string,
    sleepQuality: SleepQuality,
    dietQuality: DietQuality,
    dietFish: Frequency,
    dietVeg: Frequency,
    dietProtein: Frequency,
    exerciseFrequency: Exercise,
    stressLevel: Stress)

  datatype SurveyValues = SurveyValues(basicInfo: BasicInfo, lifestyle: Lifestyle, symptoms: seq<string>)

  /** The constraints of the schema that the types above do not already enforce. */
  predicate Valid(s: SurveyValues) {
    |s.basicInfo.age| > 0 && |s.basicInfo.height| > 0 && |s.basicInfo.weight| > 0 &&
    |s.lifestyle.sleepTime| > 0 &&
    |s.symptoms| > 0
  }

  // ---- enumeration vocabularies ----

  const GenderNames: seq<string> := ["male", "female"]
  const SleepQualityNames: seq<string> := ["good", "fair", "poor"]
  const DietQualityNames: seq<string> := ["balanced", "irregular", "fastfood"]
  const FrequencyNames: seq<string> := ["rare", "moderate", "frequent"]
  const ExerciseNames: seq<string> := ["none", "1-2", "3-4", "5+"]
  const StressNames: seq<string> := ["low", "medium", "high"]

  function GenderName(g: Gender): string {
    match g
    case Male => "male"
    case Female => "female"
  }

  function ParseGender(s: string): (r: Option<Gender>)
    ensures r.Some? <==> s in GenderNames
    ensures r.Some? ==> GenderName(r.value) == s
  {
    if s == "male" then Some(Male)
    else if s == "female" then Some(Female)
    else None
  }

  function SleepQualityName(q: SleepQuality): string {
    match q
    case Good => "good"
    case Fair => "fair"
    case Poor => "poor"
  }

  function ParseSleepQuality(s: string): (r: Option<SleepQuality>)
    ensures r.Some? <==> s in SleepQualityNames
    ensures r.Some? ==> SleepQualityName(r.value) == s
  {
    if s == "good" then Some(Good)
    else if s == "fair" then Some(Fair)
    else if s == "poor" then Some(Poor)
    else None
  }

  function DietQualityName(d: DietQuality): string {
    match d
    case Balanced => "balanced"
    case Irregular => "irregular"
    case Fastfood => "fastfood"
  }

  function ParseDietQuality(s: string): (r: Option<DietQuality>)
    ensures r.Some? <==> s in DietQualityNames
    ensures r.Some? ==> DietQualityName(r.value) == s
  {
    if s == "balanced" then Some(Balanced)
    else if s == "irregular" then Some(Irregular)
    else if s == "fastfood" then Some(Fastfood)
    else None
  }

  function FrequencyName(f: Frequency): string {
    match f
    case Rare => "rare"
    case Moderate => "moderate"
    case Frequent => "frequent"
  }

  function ParseFrequency(s: string): (r: Option<Frequency>)
    ensures r.Some? <==> s in FrequencyNames
    ensures r.Some? ==> FrequencyName(r.value) == s
  {
    if s == "rare" then Some(Rare)
    else if s == "moderate" then Some(Moderate)
    else if s == "frequent" then Some(Frequent)
    else None
  }

  function ExerciseName(e: Exercise): string {
    match e
    case NoExercise => "none"
    case OneToTwo => "1-2"
    case ThreeToFour => "3-4"
    case FivePlus => "5+"
  }

  function ParseExercise(s: string): (r: Option<Exercise>)
    ensures r.Some? <==> s in ExerciseNames
    ensures r.Some? ==> ExerciseName(r.value) == s
  {
    if s == "none" then Some(NoExercise)
    else if s == "1-2" then Some(OneToTwo)
    else if s == "3-4" then Some(ThreeToFour)
    else if s == "5+" then Some(FivePlus)
    else None
  }

  function StressName(t: Stress): string {
    match t
    case Low => "low"
    case Medium => "medium"
    case High => "high"
  }

  function ParseStress(s: string): (r: Option<Stress>)
    ensures r.Some? <==> s in StressNames
    ensures r.Some? ==> StressName(r.value) == s
  {
    if s == "low" then Some(Low)
    else if s == "medium" then Some(Medium)
    else if s == "high" then Some(High)
    else None
  }

  // ---- the schema on raw input ----

  /** A survey as it arrives from the form: every enumerated field is still a string. */
  datatype RawSurvey = RawSurvey(
    age: string, gender: string, height: string, weight: string,
    conditions: Option<seq<string>>, medications: Option<string>,
    sleepTime: string, sleepQuality: string, dietQuality: string,
    dietFish: string, dietVeg: string, dietProtein: string,
    exerciseFrequency: string, stressLevel: string,
    symptoms: seq<string>)

  /** Every field constraint of the schema, stated on the raw record. */
  predicate Admissible(raw: RawSurvey) {
    |raw.age| > 0 && raw.gender in GenderNames && |raw.height| > 0 && |raw.weight| > 0 &&
    |raw.sleepTime| > 0 && raw.sleepQuality in SleepQualityNames &&
    raw.dietQuality in DietQualityNames && raw.dietFish in FrequencyNames &&
    raw.dietVeg in FrequencyNames && raw.dietProtein in FrequencyNames &&
    raw.exerciseFrequency in ExerciseNames && raw.stressLevel in StressNames &&
    |raw.symptoms| > 0
  }

  /** The raw record a typed survey came from. */
  function ToRaw(s: SurveyValues): RawSurvey {
    RawSurvey(
      s.basicInfo.age, GenderName(s.basicInfo.gender), s.basicInfo.height, s.basicInfo.weight,
      s.basicInfo.conditions, s.basicInfo.medications,
      s.lifestyle.sleepTime, SleepQualityName(s.lifestyle.sleepQuality),
      DietQualityName(s.lifestyle.dietQuality), FrequencyName(s.lifestyle.dietFish),
      FrequencyName(s.lifestyle.dietVeg), FrequencyName(s.lifestyle.dietProtein),
      ExerciseName(s.lifestyle.exerciseFrequency), StressName(s.lifestyle.stressLevel),
      s.symptoms)
  }

  /** The schema's verdict: the typed survey when every constraint holds, otherwise None. */
  function ParseSurvey(raw: RawSurvey): (r: Option<SurveyValues>)
    ensures r.Some? <==> Admissible(raw)
    ensures r.Some? ==> Valid(r.value) && ToRaw(r.value) == raw
  {
    var g := ParseGender(raw.gender);
    var sq := ParseSleepQuality(raw.sleepQuality);
    var dq := ParseDietQuality(raw.dietQuality);
    var fish := ParseFrequency(raw.dietFish);
    var veg := ParseFrequency(raw.dietVeg);
    var protein := ParseFrequency(raw.dietProtein);
    var ex := ParseExercise(raw.exerciseFrequency);
    var st := ParseStress(raw.stressLevel);
    if |raw.age| > 0 && g.Some? && |raw.height| > 0 && |raw.weight| > 0 &&
       |raw.sleepTime| > 0 && sq.Some? && dq.Some? && fish.Some? && veg.Some? &&
       protein.Some? && ex.Some? && st.Some? && |raw.symptoms| > 0
    then
      Some(SurveyValues(
        BasicInfo(raw.age, g.value, raw.height, raw.weight, raw.conditions, raw.medications),
        Lifestyle(raw.sleepTime, sq.value, dq.value, fish.value, veg.value, protein.value, ex.value, st.value),
        raw.symptoms))
    else
      None
  }

  /** Parsing the raw form of a valid survey gives that survey back. */
  lemma ParseToRaw(s: SurveyValues)
    requires Valid(s)
    ensures ParseSurvey(ToRaw(s)) == Some(s)
  {
    assert ParseGender(GenderName(s.basicInfo.gender)) == Some(s.basicInfo.gender);
    assert ParseSleepQuality(SleepQualityName(s.lifestyle.sleepQuality)) == Some(s.lifestyle.sleepQuality);
    assert ParseDietQuality(DietQualityName(s.lifestyle.dietQuality)) == Some(s.lifestyle.dietQuality);
    assert ParseFrequency(FrequencyName(s.lifestyle.dietFish)) == Some(s.lifestyle.dietFish);
    assert ParseFrequency(FrequencyName(s.lifestyle.dietVeg)) == Some(s.lifestyle.dietVeg);
    assert ParseFrequency(FrequencyName(s.lifestyle.dietProtein)) == Some(s.lifestyle.dietProtein);
    assert ParseExercise(ExerciseName(s.lifestyle.exerciseFrequency)) == Some(s.lifestyle.exerciseFrequency);
    assert ParseStress(StressName(s.lifestyle.stressLevel)) == Some(s.lifestyle.stressLevel);
  }

  /** The schema asks nothing of the symptom list but that it is non-empty: repeated entries
      and ids the form does not offer are accepted alike. */
  lemma SymptomsOnlyNonEmpty(raw: RawSurvey, symptoms: seq<string>)
    requires |raw.symptoms| > 0
    ensures ParseSurvey(raw.(symptoms := symptoms)).Some? <==> ParseSurvey(raw).Some? && |symptoms| > 0
  {
  }

  /** `conditions` and `medications` are optional: present or absent, with any contents, they
      never decide acceptance. */
  lemma OptionalFieldsIgnored(raw: RawSurvey, conditions: Option<seq<string>>, medications: Option<string>)
    ensures ParseSurvey(raw.(conditions := conditions, medications := medications)).Some? <==>
      ParseSurvey(raw).Some?
  {
  }

  // ---- option vocabularies offered by the form ----

  datatype OptionItem = OptionItem(id: string, labelText: string)

  const SymptomOptions: seq<OptionItem> := [
    OptionItem("eye_tremor", "눈 떨림"),
    OptionItem("fatigue", "만성 피로"),
    OptionItem("indigestion", "소화 불량/가스"),
    OptionItem("skin_trouble", "피부 트러블"),
    OptionItem("hair_loss", "탈모/손톱 깨짐"),
    OptionItem("joint_pain", "관절 통증"),
    OptionItem("insomnia", "불면증"),
    OptionItem("anxiety", "불안/초조"),
    OptionItem("cold", "잦은 감기/면역 저하")
  ]

  const ConditionOptions: seq<OptionItem> := [
    OptionItem("hypertension", "고혈압"),
    OptionItem("diabetes", "당뇨"),
    OptionItem("allergy", "알레르기"),
    OptionItem("none", "없음")
  ]

  function Ids(opts: seq<OptionItem>): (ids: seq<string>)
    ensures |ids| == |opts|
    ensures forall i :: 0 <= i < |opts| ==> ids[i] == opts[i].id
  {
    seq(|opts|, i requires 0 <= i < |opts| => opts[i].id)
  }

  /** The symptom ids the form offers, as a set. */
  const SymptomIdSet: set<string> := {"eye_tremor", "fatigue", "indigestion", "skin_trouble",
    "hair_loss", "joint_pain", "insomnia", "anxiety", "cold"}

  lemma SymptomIdSetMatchesOptions()
    ensures |SymptomIdSet| == 9
    ensures forall x :: x in SymptomIdSet <==> x in Ids(SymptomOptions)
  {
    var ids := Ids(SymptomOptions);
    assert ids == ["eye_tremor", "fatigue", "indigestion", "skin_trouble",
      "hair_loss", "joint_pain", "insomnia", "anxiety", "cold"];
  }

  /** Every enumeration name parses back to its value. */
  lemma EnumNamesRoundTrip()
    ensures forall g :: ParseGender(GenderName(g)) == Some(g)
    ensures forall q :: ParseSleepQuality(SleepQualityName(q)) == Some(q)
    ensures forall d :: ParseDietQuality(DietQualityName(d)) == Some(d)
    ensures forall f :: ParseFrequency(FrequencyName(f)) == Some(f)
    ensures forall e :: ParseExercise(ExerciseName(e)) == Some(e)
    ensures forall t :: ParseStress(StressName(t)) == Some(t)
  {
  }

  lemma VocabulariesDistinct()
    ensures |SymptomOptions| == 9 && Distinct(Ids(SymptomOptions))
    ensures |ConditionOptions| == 4 && Distinct(Ids(ConditionOptions))
    ensures "hypertension" in Ids(ConditionOptions)
  {
    assert Ids(ConditionOptions)[0] == "hypertension";
  }
}
