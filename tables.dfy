/**
 * The static reference data of the scoring engine: the per-category
 * normalisation coefficients and the per-metric standards
 * (s-core-ai-coach/constants.ts), with the enumerations they are keyed by
 * (s-core-ai-coach/types.ts).
 */
module Tables {

  datatype AgeGroup = U10 | U12 | U15 | U18
  datatype Gender = Male | Female
  datatype MetricType = Time | Distance | Reps | Points

  /** A threshold ladder: index k - 1 holds the threshold for score k. */
  type Ladder = s: seq<real> | |s| == 5 witness [0.0, 0.0, 0.0, 0.0, 0.0]

  datatype MasterStandard = MasterStandard(metric: string, kind: MetricType, thresholds: Ladder)

  /**
   * A category lookup key: the source spells it `${ageGroup}_${genderCode}`
   * ("U18_M", ..., "U10_F") and types it as a closed union of those eight
   * strings, which this pair stands for.
   */
  datatype CategoryKey = CategoryKey(age: AgeGroup, gender: Gender)

  const CategoryCoefficients: map<CategoryKey, real> := map[
    CategoryKey(U18, Male) := 1.0,
    CategoryKey(U18, Female) := 1.15,
    CategoryKey(U15, Male) := 1.2,
    CategoryKey(U15, Female) := 1.35,
    CategoryKey(U12, Male) := 1.45,
    CategoryKey(U12, Female) := 1.6,
    CategoryKey(U10, Male) := 1.75,
    CategoryKey(U10, Female) := 1.9
  ]

  /** The coefficient of a category: positive, and neutral (1.0) for U18 males. */
  function Coefficient(a: AgeGroup, g: Gender): (c: real)
    ensures c > 0.0
    ensures a == U18 && g == Male ==> c == 1.0
  {
    assert a.U10? || a.U12? || a.U15? || a.U18?;
    assert g.Male? || g.Female?;
    CategoryCoefficients[CategoryKey(a, g)]
  }

  /** Younger age groups rank higher: U18 < U15 < U12 < U10. */
  function Youth(a: AgeGroup): nat {
    match a
    case U18 => 0
    case U15 => 1
    case U12 => 2
    case U10 => 3
  }

  const MasterStandards: map<string, MasterStandard> := map[
    "run10m" := MasterStandard("10m走", Time, [2.5, 2.2, 1.9, 1.7, 1.5]),
    "run30m" := MasterStandard("30m走", Time, [5.5, 5.0, 4.6, 4.3, 4.0]),
    "agility" := MasterStandard("敏捷性", Time, [6.5, 6.0, 5.5, 5.0, 4.5]),
    "verticalJump" := MasterStandard("垂直跳び", Distance, [30.0, 40.0, 50.0, 60.0, 70.0]),
    "tripleJump" := MasterStandard("立ち三段跳び", Distance, [4.0, 5.0, 6.0, 7.0, 8.0]),
    "sitUps" := MasterStandard("上体起こし", Reps, [15.0, 20.0, 25.0, 30.0, 35.0]),
    "coordination" := MasterStandard("コーディネーション", Time, [10.0, 9.0, 8.0, 7.0, 6.0]),
    "endurance" := MasterStandard("持久力", Distance, [400.0, 800.0, 1200.0, 1600.0, 2000.0]),
    "dribble" := MasterStandard("ドリブル", Time, [12.0, 11.0, 10.0, 9.0, 8.0]),
    "lifting" := MasterStandard("リフティング", Reps, [10.0, 30.0, 50.0, 100.0, 200.0]),
    "shortPass" := MasterStandard("ショートパス", Points, [1.0, 2.0, 3.0, 4.0, 5.0]),
    "longPass" := MasterStandard("ロングパス", Points, [1.0, 2.0, 3.0, 4.0, 5.0]),
    "shoot" := MasterStandard("シュート", Points, [1.0, 2.0, 3.0, 4.0, 5.0])
  ]

  predicate StrictlyIncreasing(t: Ladder) {
    forall i, j :: 0 <= i < j < 5 ==> t[i] < t[j]
  }

  predicate StrictlyDecreasing(t: Ladder) {
    forall i, j :: 0 <= i < j < 5 ==> t[i] > t[j]
  }

  /** The keys of the time-typed standards. */
  const TimeMetrics: set<string> := {"run10m", "run30m", "agility", "coordination", "dribble"}

  /** The keys of the point-typed standards (1-5 ratings entered directly). */
  const PointMetrics: set<string> := {"shortPass", "longPass", "shoot"}

  /** The table has an entry for each of the eight category keys, and every entry is positive. */
  lemma CoefficientTableComplete()
    ensures forall a, g :: CategoryKey(a, g) in CategoryCoefficients
    ensures forall k :: k in CategoryCoefficients ==> CategoryCoefficients[k] > 0.0
  {
    forall a: AgeGroup, g: Gender ensures CategoryKey(a, g) in CategoryCoefficients {
      assert a.U10? || a.U12? || a.U15? || a.U18?;
      assert g.Male? || g.Female?;
    }
  }

  /**
   * For a fixed gender the coefficient strictly grows as the age group gets
   * younger, and within an age group the female coefficient exceeds the male one.
   */
  lemma CoefficientOrdering(a1: AgeGroup, a2: AgeGroup, g: Gender, a: AgeGroup)
    ensures Youth(a1) < Youth(a2) ==> Coefficient(a1, g) < Coefficient(a2, g)
    ensures Coefficient(a, Male) < Coefficient(a, Female)
  {
  }

  /** Time ladders get stricter (smaller) with the score; all other ladders larger. */
  lemma LadderDirections()
    ensures forall k :: k in MasterStandards ==> (MasterStandards[k].kind == Time <==> k in TimeMetrics)
    ensures forall k :: k in MasterStandards && MasterStandards[k].kind == Time ==>
              StrictlyDecreasing(MasterStandards[k].thresholds)
    ensures forall k :: k in MasterStandards && MasterStandards[k].kind != Time ==>
              StrictlyIncreasing(MasterStandards[k].thresholds)
  {
  }

  /** The three point-typed standards are exactly the pass and shoot ratings, all with ladder 1..5. */
  lemma PointLadders()
    ensures forall k :: k in MasterStandards ==> (MasterStandards[k].kind == Points <==> k in PointMetrics)
    ensures forall k :: k in MasterStandards && MasterStandards[k].kind == Points ==>
              MasterStandards[k].thresholds == [1.0, 2.0, 3.0, 4.0, 5.0]
  {
  }

  /** `dribble` is itself time-typed, so naming it alongside the time type changes no branch. */
  lemma DribbleIsTime()
    ensures "dribble" in MasterStandards && MasterStandards["dribble"].kind == Time
  {
  }
}
