/**
 * Feedback lookup, weakness advice, athlete classification and advisory lookup
 * (s-core-ai-coach/utils/analysisUtils.ts).
 */
module Analysis {
  import opened Options
  import opened Scoring

  datatype AthleteType = SuperAce | PhysicalMonster | Technician | Potential | Bottleneck

  /**
   * One entry of the feedback table. It is a heap object: a lookup returns the
   * table's own entry, so every holder of it sees a later write to it.
   */
  class FeedbackEntry {
    var intelligence: string
    var advice: string

    constructor (intelligence: string, advice: string)
      ensures this.intelligence == intelligence && this.advice == advice
    {
      this.intelligence := intelligence;
      this.advice := advice;
    }
  }

  /** The per-level entries of one item. */
  type FeedbackTable = map<int, FeedbackEntry>

  /** The feedback table (data/feedbackMaster), keyed by item label, with a "default" item. */
  type FeedbackMaster = map<string, FeedbackTable>

  const DefaultItem: string := "default"

  predicate HasAllLevels(t: FeedbackTable) {
    forall l :: 1 <= l <= 5 ==> l in t
  }

  /** What getFeedback itself relies on: a "default" item with all five levels. */
  predicate HasDefault(m: FeedbackMaster) {
    DefaultItem in m && HasAllLevels(m[DefaultItem])
  }

  /** What callers that dereference the entry rely on: every item has all five levels. */
  predicate Complete(m: FeedbackMaster) {
    HasDefault(m) && forall k :: k in m ==> HasAllLevels(m[k])
  }

  /** All entry objects of the table. */
  function Entries(m: FeedbackMaster): set<FeedbackEntry> {
    set k, l | k in m && l in m[k] :: m[k][l]
  }

  /** JavaScript's Math.round: the nearest integer, halves rounded upward. */
  function JsRound(x: real): (n: int)
    ensures n as real - 0.5 <= x < n as real + 0.5
  {
    (x + 0.5).Floor
  }

  /** The feedback level of a score: its rounding, clamped into 1..5. */
  function SafeLevel(score: real): (l: int)
    ensures 1 <= l <= 5
    ensures 1 <= JsRound(score) <= 5 ==> l == JsRound(score)
    ensures JsRound(score) < 1 ==> l == 1
    ensures JsRound(score) > 5 ==> l == 5
  {
    var n := JsRound(score);
    if n < 1 then 1 else if n > 5 then 5 else n
  }

  /** Composite half-steps round upward: 1.5 reads as level 2 and 4.5 as level 5. */
  lemma HalfStepsRoundUp(x: real)
    requires IsHalfStep(x)
    ensures SafeLevel(x) as real == x || SafeLevel(x) as real == x + 0.5
  {
    var n := (2.0 * x).Floor;
    if n % 2 == 0 {
      assert x == (n / 2) as real;
    } else {
      assert x + 0.5 == (n / 2 + 1) as real;
    }
  }

  /**
   * `getFeedback`: the entry at the score's level of the item's own table, or of
   * the "default" table when the item has none; None (JavaScript's undefined)
   * only when the item's own table lacks that level.
   */
  function GetFeedback(master: FeedbackMaster, itemKey: string, score: real): (r: Option<FeedbackEntry>)
    requires HasDefault(master)
    ensures r.Some? ==> r.value in Entries(master)
    ensures itemKey !in master ==> r == Some(master[DefaultItem][SafeLevel(score)])
    ensures itemKey in master ==> (r.Some? <==> SafeLevel(score) in master[itemKey])
    ensures itemKey in master && r.Some? ==> r.value == master[itemKey][SafeLevel(score)]
  {
    var level := SafeLevel(score);
    var table := if itemKey in master then master[itemKey] else master[DefaultItem];
    if level in table then Some(table[level]) else None
  }

  /** On a complete table every lookup yields an entry; an unknown item yields the default one. */
  lemma FeedbackTotal(master: FeedbackMaster, itemKey: string, score: real)
    requires Complete(master)
    ensures GetFeedback(master, itemKey, score).Some?
  {
  }

  const BalancedMessage: string := "現在のパフォーマンスは非常にバランスが取れています。長所をさらに磨き、チームの核を目指しましょう。"

  /** The entries with score at most 2, in entry order. */
  function WeakEntries(scores: seq<(string, real)>): (w: seq<(string, real)>)
    ensures |w| <= |scores|
  {
    if scores == [] then []
    else
      var last := scores[|scores| - 1];
      WeakEntries(scores[..|scores| - 1]) + (if last.1 <= 2.0 then [last] else [])
  }

  /** The weak entries are exactly the entries scoring at most 2. */
  lemma {:induction false} WeakEntriesMembers(scores: seq<(string, real)>)
    ensures forall x :: x in WeakEntries(scores) ==> x in scores && x.1 <= 2.0
    ensures forall x :: x in scores && x.1 <= 2.0 ==> x in WeakEntries(scores)
  {
    if scores != [] {
      var init := scores[..|scores| - 1];
      WeakEntriesMembers(init);
      assert scores == init + [scores[|scores| - 1]];
    }
  }

  function WeaknessLine(key: string, fb: FeedbackEntry): string
    reads fb
  {
    "【" + key + "】" + fb.intelligence + " " + fb.advice
  }

  /** One line per weak entry, built from the feedback looked up under the entry's own key. */
  function WeakLines(master: FeedbackMaster, w: seq<(string, real)>): (lines: seq<string>)
    requires Complete(master)
    reads Entries(master)
    ensures |lines| == |w|
  {
    if w == [] then []
    else
      var last := w[|w| - 1];
      WeakLines(master, w[..|w| - 1]) + [WeaknessLine(last.0, GetFeedback(master, last.0, last.1).value)]
  }

  /** Line i is built from weak entry i. */
  lemma {:induction false} WeakLinesAt(master: FeedbackMaster, w: seq<(string, real)>)
    requires Complete(master)
    ensures forall i :: 0 <= i < |w| ==>
              WeakLines(master, w)[i] == WeaknessLine(w[i].0, GetFeedback(master, w[i].0, w[i].1).value)
  {
    if w != [] {
      var init := w[..|w| - 1];
      WeakLinesAt(master, init);
      assert forall i :: 0 <= i < |init| ==> init[i] == w[i];
    }
  }

  /** One more entry adds at most its own line. */
  lemma WeakLinesStep(master: FeedbackMaster, scores: seq<(string, real)>, i: nat)
    requires Complete(master) && i < |scores|
    ensures WeakLines(master, WeakEntries(scores[..i + 1])) ==
            WeakLines(master, WeakEntries(scores[..i])) +
            (if scores[i].1 <= 2.0
             then [WeaknessLine(scores[i].0, GetFeedback(master, scores[i].0, scores[i].1).value)] else [])
  {
    var w := WeakEntries(scores[..i]);
    assert scores[..i + 1][..i] == scores[..i];
    assert WeakEntries(scores[..i + 1]) == w + (if scores[i].1 <= 2.0 then [scores[i]] else []);
    if scores[i].1 <= 2.0 {
      var x := scores[i];
      assert (w + [x])[..|w|] == w;
      assert WeakLines(master, w + [x]) ==
             WeakLines(master, w) + [WeaknessLine(x.0, GetFeedback(master, x.0, x.1).value)];
    } else {
      assert w + [] == w;
    }
  }

  /**
   * `generateWeaknessAdvice`: one line per entry scoring at most 2, in entry
   * order, or the single balanced-profile message when there is none; never empty.
   */
  method GenerateWeaknessAdvice(master: FeedbackMaster, scores: seq<(string, real)>) returns (weaknesses: seq<string>)
    requires Complete(master)
    ensures |weaknesses| >= 1
    ensures WeakEntries(scores) == [] ==> weaknesses == [BalancedMessage]
    ensures WeakEntries(scores) != [] ==> weaknesses == WeakLines(master, WeakEntries(scores))
  {
    weaknesses := [];
    var i := 0;
    while i < |scores|
      invariant 0 <= i <= |scores|
      invariant weaknesses == WeakLines(master, WeakEntries(scores[..i]))
    {
      var (key, score) := scores[i];
      WeakLinesStep(master, scores, i);
      if score <= 2.0 {
        var feedback := GetFeedback(master, key, score).value;
        weaknesses := weaknesses + [WeaknessLine(key, feedback)];
      }
      i := i + 1;
    }
    assert scores[..i] == scores;
    if |weaknesses| == 0 {
      weaknesses := weaknesses + [BalancedMessage];
    }
  }

  /** The number of values at most `bound`. */
  function CountAtMost(xs: seq<real>, bound: real): nat {
    if xs == [] then 0
    else CountAtMost(xs[..|xs| - 1], bound) + (if xs[|xs| - 1] <= bound then 1 else 0)
  }

  /** No value at most the bound exactly when the count is 0. */
  lemma {:induction false} CountAtMostZero(xs: seq<real>, bound: real)
    ensures CountAtMost(xs, bound) == 0 <==> forall i :: 0 <= i < |xs| ==> xs[i] > bound
  {
    if xs != [] {
      var init := xs[..|xs| - 1];
      CountAtMostZero(init, bound);
      assert forall i :: 0 <= i < |init| ==> init[i] == xs[i];
    }
  }

  /** The count reaches 2 exactly when two distinct positions hold values at most the bound. */
  lemma {:induction false} CountAtMostTwo(xs: seq<real>, bound: real)
    ensures CountAtMost(xs, bound) >= 2 <==>
            exists i, j :: 0 <= i < j < |xs| && xs[i] <= bound && xs[j] <= bound
  {
    if xs != [] {
      var n := |xs| - 1;
      var init := xs[..n];
      CountAtMostTwo(init, bound);
      CountAtMostZero(init, bound);
      assert forall i :: 0 <= i < n ==> init[i] == xs[i];
      if CountAtMost(xs, bound) >= 2 {
        if CountAtMost(init, bound) < 2 {
          assert xs[n] <= bound && CountAtMost(init, bound) == 1;
          var i :| 0 <= i < n && init[i] <= bound;
          assert xs[i] <= bound && xs[n] <= bound;
        }
      }
      if exists i, j :: 0 <= i < j < |xs| && xs[i] <= bound && xs[j] <= bound {
        var i, j :| 0 <= i < j < |xs| && xs[i] <= bound && xs[j] <= bound;
        if j < n {
          assert init[i] <= bound && init[j] <= bound;
          assert CountAtMost(init, bound) >= 2;
        } else {
          assert init[i] <= bound;
          assert CountAtMost(init, bound) >= 1;
        }
      }
    }
  }

  /** Scores at most this count as a severe weakness. */
  const WeaknessBound: real := 1.5

  /** Averages at least this count as excellent. */
  const ExcellenceBound: real := 4.0

  /** How many of the 21 fields (sides and composites included) are severe weaknesses. */
  function OnesCount(s: Scores): nat {
    CountAtMost(Values(s), WeaknessBound)
  }

  function PhysAvg(s: Scores): real {
    (s.run10m + s.run30m + s.agility + s.verticalJump + s.tripleJump) / 5.0
  }

  function TechAvg(s: Scores): real {
    (s.dribble + s.lifting + s.shortPass + s.longPass + s.shoot) / 5.0
  }

  /**
   * `categorizeAthlete`: two or more severe weaknesses make a BOTTLENECK;
   * otherwise the physical and technical averages against 4.0 split the rest
   * into four exclusive classes.
   */
  function CategorizeAthlete(s: Scores): (t: AthleteType)
    ensures t == Bottleneck <==> OnesCount(s) >= 2
    ensures t == SuperAce <==> OnesCount(s) < 2 && PhysAvg(s) >= ExcellenceBound && TechAvg(s) >= ExcellenceBound
    ensures t == PhysicalMonster <==> OnesCount(s) < 2 && PhysAvg(s) >= ExcellenceBound && TechAvg(s) < ExcellenceBound
    ensures t == Technician <==> OnesCount(s) < 2 && PhysAvg(s) < ExcellenceBound && TechAvg(s) >= ExcellenceBound
    ensures t == Potential <==> OnesCount(s) < 2 && PhysAvg(s) < ExcellenceBound && TechAvg(s) < ExcellenceBound
  {
    if OnesCount(s) >= 2 then Bottleneck
    else
      var physAvg := PhysAvg(s);
      var techAvg := TechAvg(s);
      if physAvg >= ExcellenceBound && techAvg >= ExcellenceBound then SuperAce
      else if physAvg >= ExcellenceBound then PhysicalMonster
      else if techAvg >= ExcellenceBound then Technician
      else Potential
  }

  /** BOTTLENECK exactly when two distinct fields of the record are at most 1.5. */
  lemma BottleneckIffTwoWeak(s: Scores)
    ensures CategorizeAthlete(s) == Bottleneck <==>
            exists i, j :: 0 <= i < j < 21 && Values(s)[i] <= WeaknessBound && Values(s)[j] <= WeaknessBound
  {
    CountAtMostTwo(Values(s), WeaknessBound);
  }

  /** A single severe weakness never forces BOTTLENECK: the averages decide. */
  lemma SingleWeaknessTolerated(s: Scores, i: nat)
    requires i < 21 && Values(s)[i] <= WeaknessBound
    requires forall j :: 0 <= j < 21 && j != i ==> Values(s)[j] > WeaknessBound
    ensures CategorizeAthlete(s) != Bottleneck
  {
    BottleneckIffTwoWeak(s);
  }

  /** One bilateral pair suffices: agilityR = 1 with agilityL <= 2 puts both agilityR and the composite at most 1.5. */
  lemma BilateralPairBottleneck(s: Scores)
    requires WellFormed(s)
    requires s.agilityR == 1.0 && s.agilityL <= 2.0
    ensures CategorizeAthlete(s) == Bottleneck
  {
    assert Values(s)[2] == s.agility <= WeaknessBound;
    assert Values(s)[3] == s.agilityR <= WeaknessBound;
    BottleneckIffTwoWeak(s);
  }

  /**
   * sitUps, coordination, endurance and the side fields never enter the
   * averages: two records that agree on the ten averaged fields and are not
   * BOTTLENECK get the same class.
   */
  lemma AveragesIgnoreOtherFields(s1: Scores, s2: Scores)
    requires s1.run10m == s2.run10m && s1.run30m == s2.run30m && s1.agility == s2.agility
    requires s1.verticalJump == s2.verticalJump && s1.tripleJump == s2.tripleJump
    requires s1.dribble == s2.dribble && s1.lifting == s2.lifting && s1.shortPass == s2.shortPass
    requires s1.longPass == s2.longPass && s1.shoot == s2.shoot
    requires CategorizeAthlete(s1) != Bottleneck && CategorizeAthlete(s2) != Bottleneck
    ensures CategorizeAthlete(s1) == CategorizeAthlete(s2)
  {
  }

  /** Rule 1 takes priority: two scores of 1 and all others 5 is BOTTLENECK, not SUPER_ACE. */
  lemma BottleneckPrecedesExcellence(s: Scores)
    requires s == Scores(5.0, 5.0, 5.0, 5.0, 5.0, 5.0, 5.0, 1.0, 1.0, 5.0, 5.0, 5.0, 5.0, 5.0,
                         5.0, 5.0, 5.0, 5.0, 5.0, 5.0, 5.0)
    ensures PhysAvg(s) >= ExcellenceBound && TechAvg(s) >= ExcellenceBound
    ensures CategorizeAthlete(s) == Bottleneck
  {
    assert Values(s)[7] <= WeaknessBound && Values(s)[8] <= WeaknessBound;
    BottleneckIffTwoWeak(s);
  }

  /** physAvg 4.2, techAvg 3.0 and no severe weakness is PHYSICAL_MONSTER. */
  lemma PhysicalMonsterExample(s: Scores)
    requires s == Scores(5.0, 4.0, 4.0, 4.0, 4.0, 4.0, 4.0, 3.0, 3.0, 3.0, 3.0, 3.0, 3.0, 3.0,
                         3.0, 3.0, 3.0, 3.0, 3.0, 3.0, 3.0)
    ensures PhysAvg(s) == 4.2 && TechAvg(s) == 3.0
    ensures CategorizeAthlete(s) == PhysicalMonster
  {
    CountAtMostZero(Values(s), WeaknessBound);
  }

  datatype AdviceItem = AdviceItem(title: string, improvement: string, keyPoint: string, goal: string)

  /** An advisory pattern of data/advisoryMaster, reduced to the two fields the result uses. */
  datatype AdvisoryPattern = AdvisoryPattern(playStyle: string, advice: seq<AdviceItem>)

  type AdvisoryMaster = map<AthleteType, AdvisoryPattern>

  /** The advisory table defines a pattern for each of the five athlete types. */
  predicate AdvisoryComplete(m: AdvisoryMaster) {
    forall t: AthleteType :: t in m
  }

  /** `getAdvisoryPattern`: the table's pattern for the type; total on a complete table. */
  function GetAdvisoryPattern(m: AdvisoryMaster, t: AthleteType): (p: AdvisoryPattern)
    requires AdvisoryComplete(m)
    ensures t in m && p == m[t]
  {
    m[t]
  }

  /** `analyzePlayStyle`: the play-style label of the type's pattern. */
  function AnalyzePlayStyle(m: AdvisoryMaster, t: AthleteType): (style: string)
    requires AdvisoryComplete(m)
    ensures style == GetAdvisoryPattern(m, t).playStyle
  {
    m[t].playStyle
  }
}
