/** The two stage classifiers of codes/functionality.py: each maps one
    (age, temperature) sample of a run to an evolutionary-stage label by a
    first-match-wins chain of guarded rules. Temperatures and ages are exact
    reals: the source compares floats with exact `==`, `<` and `>`. */
module Stages {

  /** Every label either classifier can produce (`'unknown'` is shared). */
  datatype Stage = PreWarmup | Warmup | Hotcore | PreShock | Shock | PostShock | Unknown

  /** The string a record stores in its `stage` column. */
  function Label(s: Stage): string
  {
    match s
    case PreWarmup => "pre-warmup"
    case Warmup => "warmup"
    case Hotcore => "hotcore"
    case PreShock => "pre-shock"
    case Shock => "shock"
    case PostShock => "post-shock"
    case Unknown => "unknown"
  }

  /** Distinct stages are stored as distinct strings. */
  lemma LabelInjective(a: Stage, b: Stage)
    requires Label(a) == Label(b)
    ensures a == b
  {
  }

  /** How long a hot core, or a post-shock phase, is followed: 1e5 years. */
  const StageLifetime: real := 100000.0

  /** The four labels of the hot-core family. */
  predicate IsHotcoreLabel(s: Stage)
  {
    s == PreWarmup || s == Warmup || s == Hotcore || s == Unknown
  }

  /** The four labels of the shock family. */
  predicate IsShockLabel(s: Stage)
  {
    s == PreShock || s == Shock || s == PostShock || s == Unknown
  }

  /** `hotcore_stage(temp, age, initialTemp, final_temp, age_for_final_temp)`. */
  function HotcoreStage(temp: real, age: real, initialTemp: real, finalTemp: real, ageForFinalTemp: real): (r: Stage)
    ensures IsHotcoreLabel(r)
    ensures r == PreWarmup <==> temp == initialTemp
    ensures r == Warmup <==> initialTemp < temp < finalTemp
    ensures r == Hotcore <==>
              temp != initialTemp && temp == finalTemp && age <= ageForFinalTemp + StageLifetime
    ensures temp < initialTemp && temp != finalTemp ==> r == Unknown
    ensures temp > finalTemp && temp != initialTemp ==> r == Unknown
    ensures temp == finalTemp && temp != initialTemp && age > ageForFinalTemp + StageLifetime ==> r == Unknown
  {
    if temp == initialTemp then PreWarmup
    else if temp > initialTemp && temp < finalTemp then Warmup
    else if temp == finalTemp && age <= ageForFinalTemp + StageLifetime then Hotcore
    else Unknown
  }

  /** `shock_stage(age, temp, initialTemp, age_for_post_shock)`. */
  function ShockStage(age: real, temp: real, initialTemp: real, ageForPostShock: real): (r: Stage)
    ensures IsShockLabel(r)
    ensures r == PreShock <==> age == 0.0 && temp == initialTemp
    ensures r == Shock <==> temp > initialTemp
    ensures r == PostShock <==>
              temp == initialTemp && age != 0.0 &&
              ageForPostShock <= age < ageForPostShock + StageLifetime
    ensures temp < initialTemp ==> r == Unknown
    ensures (temp == initialTemp && age != 0.0 &&
             (age < ageForPostShock || age >= ageForPostShock + StageLifetime)) ==> r == Unknown
  {
    if age == 0.0 && temp == initialTemp then PreShock
    else if temp > initialTemp then Shock
    else if temp == initialTemp && age >= ageForPostShock && age < ageForPostShock + StageLifetime then PostShock
    else Unknown
  }

  /** The hot-core scenario: initialTemp 15, final_temp 300, final temperature
      first reached at age 1000. */
  lemma HotcoreScenario()
    ensures HotcoreStage(15.0, 0.0, 15.0, 300.0, 1000.0) == PreWarmup
    ensures HotcoreStage(150.0, 500.0, 15.0, 300.0, 1000.0) == Warmup
    ensures HotcoreStage(300.0, 1000.0, 15.0, 300.0, 1000.0) == Hotcore
    ensures HotcoreStage(300.0, 1000.0 + StageLifetime - 1.0, 15.0, 300.0, 1000.0) == Hotcore
    ensures HotcoreStage(300.0, 1000.0 + StageLifetime + 1.0, 15.0, 300.0, 1000.0) == Unknown
  {
  }

  /** The shock scenario: initialTemp 20, post-shock age 20. */
  lemma ShockScenario()
    ensures ShockStage(0.0, 20.0, 20.0, 20.0) == PreShock
    ensures ShockStage(10.0, 45.0, 20.0, 20.0) == Shock
    ensures ShockStage(20.0, 20.0, 20.0, 20.0) == PostShock
    ensures ShockStage(StageLifetime + 21.0, 20.0, 20.0, 20.0) == Unknown
  {
  }
}
