/**
 * The score normaliser and the composite builder (s-core-ai-coach/utils.ts):
 * one raw measurement becomes an integer score 1..5, and a full set of
 * measurements becomes the 21-field score record.
 */
module Scoring {
  import opened Tables

  /** Whether an adjusted value reaches a threshold: at most it for times, at least it otherwise. */
  predicate Meets(v: real, threshold: real, lowerIsBetter: bool) {
    if lowerIsBetter then v <= threshold else v >= threshold
  }

  /**
   * The value brought to the neutral (U18 male) scale: a time is divided by the
   * coefficient, a distance or a count is multiplied by it, a 1..5 rating is kept.
   */
  function Normalize(value: real, coefficient: real, kind: MetricType): (r: real)
    requires coefficient > 0.0
    ensures kind == Time ==> r * coefficient == value
    ensures (kind == Distance || kind == Reps) ==> r / coefficient == value
    ensures kind == Points ==> r == value
  {
    match kind
    case Time => value / coefficient
    case Distance => value * coefficient
    case Reps => value * coefficient
    case Points => value
  }

  /**
   * The threshold ladder walked from the best score down: the result is the
   * highest score k in 2..5 whose threshold (index k - 1) the value meets, and 1
   * when none is met. Index 0 is never consulted.
   */
  function LadderScore(v: real, t: Ladder, lowerIsBetter: bool): (r: int)
    ensures 1 <= r <= 5
    ensures r >= 2 ==> Meets(v, t[r - 1], lowerIsBetter)
    ensures forall j :: r <= j < 5 ==> !Meets(v, t[j], lowerIsBetter)
  {
    if lowerIsBetter then
      if v <= t[4] then 5
      else if v <= t[3] then 4
      else if v <= t[2] then 3
      else if v <= t[1] then 2
      else 1
    else
      if v >= t[4] then 5
      else if v >= t[3] then 4
      else if v >= t[2] then 3
      else if v >= t[1] then 2
      else 1
  }

  /** The fixed score an unknown metric key receives. */
  const UnknownMetricScore := 3

  /** `calculateScore`: the 1..5 score of one raw measurement in a category. */
  function CalculateScore(value: real, age: AgeGroup, gender: Gender, metricKey: string): (r: int)
    ensures 1 <= r <= 5
    ensures metricKey !in MasterStandards ==> r == UnknownMetricScore
  {
    var coefficient := Coefficient(age, gender);
    if metricKey !in MasterStandards then UnknownMetricScore
    else
      var standard := MasterStandards[metricKey];
      var normalized := Normalize(value, coefficient, standard.kind);
      LadderScore(normalized, standard.thresholds, standard.kind == Time || metricKey == "dribble")
  }

  /** The adjusted value CalculateScore compares with the ladder of a known metric. */
  function Adjusted(value: real, age: AgeGroup, gender: Gender, metricKey: string): real
    requires metricKey in MasterStandards
  {
    Normalize(value, Coefficient(age, gender), MasterStandards[metricKey].kind)
  }

  /**
   * For a known metric the score is the highest k in 2..5 whose threshold the
   * adjusted value meets (<= for time-typed metrics, >= for the others), else 1;
   * the `dribble` special case coincides with the time type.
   */
  lemma CalculateScoreIsHighestMet(value: real, age: AgeGroup, gender: Gender, metricKey: string)
    requires metricKey in MasterStandards
    ensures var r := CalculateScore(value, age, gender, metricKey);
            var t := MasterStandards[metricKey].thresholds;
            var lower := MasterStandards[metricKey].kind == Time;
            && (r >= 2 ==> Meets(Adjusted(value, age, gender, metricKey), t[r - 1], lower))
            && (forall j :: r <= j < 5 ==> !Meets(Adjusted(value, age, gender, metricKey), t[j], lower))
  {
    DribbleIsTime();
  }

  /** thresholds[0] never influences the score. */
  lemma FirstThresholdUnread(v: real, t: Ladder, x: real, lowerIsBetter: bool)
    ensures LadderScore(v, t, lowerIsBetter) == LadderScore(v, t[0 := x], lowerIsBetter)
  {
  }

  /** Walking any ladder from the top is monotone: a better value never scores lower. */
  lemma LadderScoreMonotone(v1: real, v2: real, t: Ladder, lowerIsBetter: bool)
    requires if lowerIsBetter then v2 <= v1 else v1 <= v2
    ensures LadderScore(v1, t, lowerIsBetter) <= LadderScore(v2, t, lowerIsBetter)
  {
  }

  /**
   * With the category fixed, a faster time never lowers a time-typed score, and a
   * larger distance, count or rating never lowers the other scores.
   */
  lemma CalculateScoreMonotone(v1: real, v2: real, age: AgeGroup, gender: Gender, metricKey: string)
    requires v1 <= v2
    ensures metricKey in MasterStandards && MasterStandards[metricKey].kind == Time ==>
              CalculateScore(v2, age, gender, metricKey) <= CalculateScore(v1, age, gender, metricKey)
    ensures metricKey in MasterStandards && MasterStandards[metricKey].kind != Time ==>
              CalculateScore(v1, age, gender, metricKey) <= CalculateScore(v2, age, gender, metricKey)
  {
    if metricKey in MasterStandards {
      DribbleIsTime();
      var c := Coefficient(age, gender);
      var s := MasterStandards[metricKey];
      var n1, n2 := Normalize(v1, c, s.kind), Normalize(v2, c, s.kind);
      var lower := s.kind == Time || metricKey == "dribble";
      if s.kind == Time {
        assert n1 <= n2 by { assert n1 * c <= n2 * c; }
        LadderScoreMonotone(n2, n1, s.thresholds, lower);
      } else {
        assert n1 <= n2 by {
          if s.kind != Points { assert v1 * c <= v2 * c; }
        }
        LadderScoreMonotone(n1, n2, s.thresholds, lower);
      }
    }
  }

  /**
   * For a non-negative measurement a category with a larger coefficient (a
   * younger or female athlete) never receives a lower score for the same value.
   */
  lemma LargerCoefficientNeverLowers(value: real, a1: AgeGroup, g1: Gender, a2: AgeGroup, g2: Gender, metricKey: string)
    requires value >= 0.0
    requires Coefficient(a1, g1) <= Coefficient(a2, g2)
    ensures CalculateScore(value, a1, g1, metricKey) <= CalculateScore(value, a2, g2, metricKey)
  {
    if metricKey in MasterStandards {
      DribbleIsTime();
      var c1, c2 := Coefficient(a1, g1), Coefficient(a2, g2);
      var s := MasterStandards[metricKey];
      var n1, n2 := Normalize(value, c1, s.kind), Normalize(value, c2, s.kind);
      var lower := s.kind == Time || metricKey == "dribble";
      if s.kind == Time {
        assert n2 <= n1 by {
          assert n1 * c1 == value == n2 * c2;
          assert n1 >= 0.0;
          assert n1 * c1 <= n1 * c2;
          assert (n1 - n2) * c2 >= 0.0;
        }
        LadderScoreMonotone(n1, n2, s.thresholds, lower);
      } else {
        assert n1 <= n2 by {
          if s.kind != Points { assert value * c1 <= value * c2; }
        }
        LadderScoreMonotone(n1, n2, s.thresholds, lower);
      }
    }
  }

  /** A U18 male sprinting 10 m in 1.60 s scores 4 (1.5 < 1.60 <= 1.7). */
  lemma Run10mExample()
    ensures CalculateScore(1.6, U18, Male, "run10m") == 4
  {
  }

  datatype PhysicalMeasurements = PhysicalMeasurements(
    run10m: real,
    run30m_1: real, run30m_2: real,
    agilityL: real, agilityR: real,
    verticalJump_1: real, verticalJump_2: real, verticalJump_3: real,
    tripleJump: real,
    sitUps: real,
    coordination: real,
    yoYoDistance: real)

  datatype TechnicalMeasurements = TechnicalMeasurements(
    dribble: real,
    lifting: real,
    shortPassR: real, shortPassL: real,
    longPassR: real, longPassL: real,
    shootL: real, shootR: real)

  /** The score record: 17 integer leaf scores and 4 bilateral composites. */
  datatype Scores = Scores(
    run10m: real,
    run30m: real,
    agility: real,
    agilityR: real,
    agilityL: real,
    verticalJump: real,
    tripleJump: real,
    sitUps: real,
    coordination: real,
    endurance: real,
    dribble: real,
    lifting: real,
    shortPass: real,
    longPass: real,
    shoot: real,
    shortPassR: real,
    shortPassL: real,
    longPassR: real,
    longPassL: real,
    shootR: real,
    shootL: real)

  function Min(x: real, y: real): real {
    if x <= y then x else y
  }

  function Max(x: real, y: real): real {
    if x >= y then x else y
  }

  /** An integer score 1..5. */
  predicate IsLevel(x: real) {
    1.0 <= x <= 5.0 && x.Floor as real == x
  }

  /** A half-step score 1, 1.5, ..., 5: the mean of two levels. */
  predicate IsHalfStep(x: real) {
    var n := (2.0 * x).Floor;
    2 <= n <= 10 && n as real == 2.0 * x
  }

  /**
   * The score of one leaf measurement under its own standard, which must exist:
   * the ladder score of the adjusted value, never the default 3.
   */
  function Leaf(value: real, age: AgeGroup, gender: Gender, metricKey: string): (r: real)
    requires metricKey in MasterStandards
    ensures IsLevel(r)
    ensures r == LadderScore(Adjusted(value, age, gender, metricKey), MasterStandards[metricKey].thresholds,
                             MasterStandards[metricKey].kind == Time) as real
  {
    DribbleIsTime();
    CalculateScore(value, age, gender, metricKey) as real
  }

  /**
   * The shape of a record the builder produces: every leaf (side fields
   * included) is an integer level and every composite is the mean of its sides.
   */
  predicate WellFormed(s: Scores) {
    && IsLevel(s.run10m) && IsLevel(s.run30m) && IsLevel(s.agilityL) && IsLevel(s.agilityR)
    && IsLevel(s.verticalJump) && IsLevel(s.tripleJump) && IsLevel(s.sitUps) && IsLevel(s.coordination)
    && IsLevel(s.endurance) && IsLevel(s.dribble) && IsLevel(s.lifting)
    && IsLevel(s.shortPassR) && IsLevel(s.shortPassL) && IsLevel(s.longPassR) && IsLevel(s.longPassL)
    && IsLevel(s.shootR) && IsLevel(s.shootL)
    && s.agility == (s.agilityR + s.agilityL) / 2.0
    && s.shortPass == (s.shortPassR + s.shortPassL) / 2.0
    && s.longPass == (s.longPassR + s.longPassL) / 2.0
    && s.shoot == (s.shootR + s.shootL) / 2.0
  }

  /**
   * `processScores`: the 30 m sprint is scored on the faster trial, the vertical
   * jump on the highest of three, every other leaf on its own measurement
   * (yoYoDistance under `endurance`), and each bilateral composite is the mean
   * of its two side scores.
   */
  function ProcessScores(physical: PhysicalMeasurements, technical: TechnicalMeasurements,
                         age: AgeGroup, gender: Gender): (s: Scores)
    ensures WellFormed(s)
    ensures s.run10m == Leaf(physical.run10m, age, gender, "run10m")
    ensures s.run30m == Leaf(Min(physical.run30m_1, physical.run30m_2), age, gender, "run30m")
    ensures s.verticalJump == Leaf(Max(Max(physical.verticalJump_1, physical.verticalJump_2), physical.verticalJump_3),
                                   age, gender, "verticalJump")
    ensures s.tripleJump == Leaf(physical.tripleJump, age, gender, "tripleJump")
    ensures s.sitUps == Leaf(physical.sitUps, age, gender, "sitUps")
    ensures s.coordination == Leaf(physical.coordination, age, gender, "coordination")
    ensures s.endurance == Leaf(physical.yoYoDistance, age, gender, "endurance")
    ensures s.dribble == Leaf(technical.dribble, age, gender, "dribble")
    ensures s.lifting == Leaf(technical.lifting, age, gender, "lifting")
    ensures s.agilityR == Leaf(physical.agilityR, age, gender, "agility")
    ensures s.agilityL == Leaf(physical.agilityL, age, gender, "agility")
    ensures s.shortPassR == Leaf(technical.shortPassR, age, gender, "shortPass")
    ensures s.shortPassL == Leaf(technical.shortPassL, age, gender, "shortPass")
    ensures s.longPassR == Leaf(technical.longPassR, age, gender, "longPass")
    ensures s.longPassL == Leaf(technical.longPassL, age, gender, "longPass")
    ensures s.shootR == Leaf(technical.shootR, age, gender, "shoot")
    ensures s.shootL == Leaf(technical.shootL, age, gender, "shoot")
  {
    var best30m := Min(physical.run30m_1, physical.run30m_2);
    var bestVertical := Max(Max(physical.verticalJump_1, physical.verticalJump_2), physical.verticalJump_3);
    var agiR := Leaf(physical.agilityR, age, gender, "agility");
    var agiL := Leaf(physical.agilityL, age, gender, "agility");
    var spR := Leaf(technical.shortPassR, age, gender, "shortPass");
    var spL := Leaf(technical.shortPassL, age, gender, "shortPass");
    var lpR := Leaf(technical.longPassR, age, gender, "longPass");
    var lpL := Leaf(technical.longPassL, age, gender, "longPass");
    var sR := Leaf(technical.shootR, age, gender, "shoot");
    var sL := Leaf(technical.shootL, age, gender, "shoot");
    Scores(
      run10m := Leaf(physical.run10m, age, gender, "run10m"),
      run30m := Leaf(best30m, age, gender, "run30m"),
      agility := (agiR + agiL) / 2.0,
      agilityR := agiR,
      agilityL := agiL,
      verticalJump := Leaf(bestVertical, age, gender, "verticalJump"),
      tripleJump := Leaf(physical.tripleJump, age, gender, "tripleJump"),
      sitUps := Leaf(physical.sitUps, age, gender, "sitUps"),
      coordination := Leaf(physical.coordination, age, gender, "coordination"),
      endurance := Leaf(physical.yoYoDistance, age, gender, "endurance"),
      dribble := Leaf(technical.dribble, age, gender, "dribble"),
      lifting := Leaf(technical.lifting, age, gender, "lifting"),
      shortPass := (spR + spL) / 2.0,
      longPass := (lpR + lpL) / 2.0,
      shoot := (sR + sL) / 2.0,
      shortPassR := spR,
      shortPassL := spL,
      longPassR := lpR,
      longPassL := lpL,
      shootR := sR,
      shootL := sL)
  }

  /**
   * Scoring the best trial equals taking the best of the trial scores: the
   * 30 m score is the larger of the two trials' scores and the vertical-jump
   * score the largest of the three.
   */
  lemma BestTrialIsBestScore(physical: PhysicalMeasurements, technical: TechnicalMeasurements,
                             age: AgeGroup, gender: Gender)
    ensures var s := ProcessScores(physical, technical, age, gender);
            && s.run30m == Max(Leaf(physical.run30m_1, age, gender, "run30m"),
                               Leaf(physical.run30m_2, age, gender, "run30m"))
            && s.verticalJump == Max(Max(Leaf(physical.verticalJump_1, age, gender, "verticalJump"),
                                         Leaf(physical.verticalJump_2, age, gender, "verticalJump")),
                                     Leaf(physical.verticalJump_3, age, gender, "verticalJump"))
  {
    var p := physical;
    assert MasterStandards["run30m"].kind == Time;
    assert MasterStandards["verticalJump"].kind == Distance;
    CalculateScoreMonotone(Min(p.run30m_1, p.run30m_2), Max(p.run30m_1, p.run30m_2), age, gender, "run30m");
    var v12 := Max(p.verticalJump_1, p.verticalJump_2);
    var v := Max(v12, p.verticalJump_3);
    CalculateScoreMonotone(Min(p.verticalJump_1, p.verticalJump_2), v12, age, gender, "verticalJump");
    CalculateScoreMonotone(Min(v12, p.verticalJump_3), v, age, gender, "verticalJump");
  }

  /** Two trials of 4.9 s and 5.1 s are scored on 4.9 s. */
  lemma Best30mExample(physical: PhysicalMeasurements, technical: TechnicalMeasurements, age: AgeGroup, gender: Gender)
    requires physical.run30m_1 == 4.9 && physical.run30m_2 == 5.1
    ensures ProcessScores(physical, technical, age, gender).run30m == Leaf(4.9, age, gender, "run30m")
  {
  }

  /** Every field of a well-formed record lies in [1, 5]; the composites are half-steps. */
  lemma WellFormedInRange(s: Scores)
    requires WellFormed(s)
    ensures forall i :: 0 <= i < 21 ==> 1.0 <= Values(s)[i] <= 5.0
    ensures IsHalfStep(s.agility) && IsHalfStep(s.shortPass) && IsHalfStep(s.longPass) && IsHalfStep(s.shoot)
  {
    MeanOfLevelsIsHalfStep(s.agilityR, s.agilityL);
    MeanOfLevelsIsHalfStep(s.shortPassR, s.shortPassL);
    MeanOfLevelsIsHalfStep(s.longPassR, s.longPassL);
    MeanOfLevelsIsHalfStep(s.shootR, s.shootL);
  }

  lemma MeanOfLevelsIsHalfStep(x: real, y: real)
    requires IsLevel(x) && IsLevel(y)
    ensures IsHalfStep((x + y) / 2.0) && 1.0 <= (x + y) / 2.0 <= 5.0
  {
    assert 2.0 * ((x + y) / 2.0) == x + y;
    assert (x.Floor + y.Floor) as real == x + y;
  }

  /** The 21 score values in the record's key order (`Object.values`). */
  function Values(s: Scores): (vs: seq<real>)
    ensures |vs| == 21
  {
    [s.run10m, s.run30m, s.agility, s.agilityR, s.agilityL, s.verticalJump, s.tripleJump,
     s.sitUps, s.coordination, s.endurance, s.dribble, s.lifting, s.shortPass, s.longPass,
     s.shoot, s.shortPassR, s.shortPassL, s.longPassR, s.longPassL, s.shootR, s.shootL]
  }
}
