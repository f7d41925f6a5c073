/**
 * The self-contained prototype scorer (s-core-ai-coach/ScoreAnalyzer.tsx): its
 * own threshold tables keyed by category and item strings, a strategy
 * classifier over a score dictionary, and the scoring and feedback steps of
 * `handleAnalyze`. Its rules differ from the main engine's on purpose.
 */
module Prototype {
  import opened Options
  import Tables
  import Scoring

  datatype PlayerType = SuperAce | PhysicalMonster | Technician | Potential | BottleneckFix

  datatype FeedbackContent = FeedbackContent(intelligence: string, advice: string)

  datatype StrategyPhase = StrategyPhase(title: string, analysis: string, action: string, goal: string)

  datatype StrategyPlan = StrategyPlan(playerType: PlayerType, description: string,
                                       phase1: StrategyPhase, phase2: StrategyPhase)

  /** The evaluation comments, per item and per integer level. */
  const FeedbackMaster: map<string, map<int, FeedbackContent>> := map[
    "10m走" := map[
      1 := FeedbackContent("スタートの反応が遅れています。音を聞いてから動くのではなく、音を予測する準備が必要です。", "『準備がすべてだ。』合図が鳴る前に心の中でフライングするくらいの集中力を持て。"),
      2 := FeedbackContent("構えの重心が高く、一歩目に体重が乗っていません。低い姿勢で地面を強く蹴りましょう。", "『失敗を恐れるな。』転ぶギリギリまで前傾姿勢を保つ勇気があれば、景色は変わる。"),
      3 := FeedbackContent("標準的なスタートですが、腕振りが小さいため加速が鈍くなっています。", "『昨日より今日。』0.1秒を削るための地道な反復練習だけが、ライバルとの差を作る。"),
      4 := FeedbackContent("鋭い飛び出しです。このスピードを後半の疲れた時間帯でも出せるかが課題です。", "『満足は成長の敵だ。』今の速さに満足するな。いつでもこのスタートを切れるタフさを身につけろ。"),
      5 := FeedbackContent("圧倒的なロケットスタート！チームNo.1の武器です。相手の逆を突く駆け引きも磨きましょう。", "『頂点に立ち続けることの方が難しい。』この武器を錆びさせないために、誰よりもスタート練習にこだわろう。")],
    "持久走" := map[
      1 := FeedbackContent("ペース配分が不安定で後半失速しています。一定のリズムで走る感覚を養いましょう。", "『継続は力なり。』走ることに王道なし。毎日のランニングだけが、君を強くしてくれる。"),
      2 := FeedbackContent("呼吸が乱れるのが早いです。肩の力を抜いてリラックスして走りましょう。", "『苦しみを楽しめ。』息が上がる苦しさは、心肺機能が強化されている音だ。"),
      3 := FeedbackContent("平均的なスタミナですが、勝負所でスプリントする余裕がありません。", "『自分との戦いに勝て。』足が止まりそうな時、動かすのは筋肉じゃない、意志の力だ。"),
      4 := FeedbackContent("試合を通して戦える体力があります。次は効果的にサボり、効果的に爆発するメリハリを覚えましょう。", "『昨日の自分を超えろ。』体力があるからこそ、人より多くボールに絡める。"),
      5 := FeedbackContent("驚異的なスタミナ！ピッチのどこにでも顔を出せる心臓を持っています。", "『奇跡は足元から生まれる。』90分間走り切る君の姿が、仲間に勇気を与え、勝利を引き寄せる。")]]

  /** The two-phase plan per player type. */
  const StrategyMaster: map<PlayerType, StrategyPlan> := map[
    SuperAce := StrategyPlan(SuperAce, "【スーパーエース型】フィジカル・技術ともにトップレベル。チームを勝たせる責任と、更なる高みを目指すメンタリティが求められます。",
      StrategyPhase("ハイテンポな状況下での意思決定速度の向上", "能力は完成されています。次は「認知スピード」が課題です。", "ボールを受ける前の首振り頻度を1.5倍にする。", "プレッシャー下でも常に最適解を選べるインテリジェンス。"),
      StrategyPhase("静止状態からの爆発的アクションの戦術的利用", "能力を「崩し」のスイッチとして使います。", "緩急の「緩」を意図的に作り出し、一瞬の加速で無力化する。", "相手が分かっていても止められない必殺の突破パターン確立。")),
    PhysicalMonster := StrategyPlan(PhysicalMonster, "【フィジカルモンスター型】圧倒的な身体能力が武器。技術が追いつけば手がつけられない選手になります。",
      StrategyPhase("トップスピードからの「減速技術」の習得", "突っ込みすぎてボールを失う場面があります。", "全力疾走から1歩で止まるストップ動作の習得。", "スピードを自在にコントロールできる支配力の獲得。"),
      StrategyPhase("身体優位性を活かしたシール技術", "接触時に相手を弾き飛ばす体の使い方が必要です。", "相手とボールの間に体を入れるスクリーンプレーの強化。", "ミスをフィジカルで帳消しにし、強引に運べる推進力の構築。")),
    Technician := StrategyPlan(Technician, "【テクニシャン型】ボール扱いのセンスは抜群。フィジカル強度を高めれば、より輝ける選手です。",
      StrategyPhase("コンタクトプレー下での「技術発揮強度」の向上", "寄せられるとバランスを崩す傾向があります。", "相手に体を当てられた状態でのボールキープ練習。", "激しいプレスを受けても重心がブレない強靭な司令塔へ。"),
      StrategyPhase("高強度のプレーを持続させるエンジンの搭載", "終盤の精度低下を防ぐ体力が必要です。", "心拍数が上がった状態で正確に蹴るインターバルトレーニング。", "相手がバテた時間帯に最も輝けるゲームチェンジャー。")),
    Potential := StrategyPlan(Potential, "【ポテンシャル型】伸びしろ十分の原石。まずは「これなら勝てる」という絶対的な武器を一つ作りましょう。",
      StrategyPhase("一点突破のための「絶対的な武器」の作成", "相手に脅威を与える「怖さ」がまだ不足しています。", "今回の計測で最も数値が高かった項目を重点的に鍛える。", "「〇〇なら誰にも負けない」という自信とアイデンティティの確保。"),
      StrategyPhase("プロアスリートとしての「基礎体力ベース」の構築", "武器を90分間繰り返せる土台が必要です。", "週3回の体幹トレーニングと食事管理。", "上のカテゴリーでも怪我せず戦えるフィジカルの土台完成。")),
    BottleneckFix := StrategyPlan(BottleneckFix, "【基礎救済型】素晴らしい才能を持っていますが、一部の弱点がプレーの選択肢を狭めています。",
      StrategyPhase("パフォーマンスを制限する「弱点の穴埋め」", "評価「1」の項目が足かせになっています。", "評価が低い項目を毎日15分の補強練習でケアする。", "弱点を平均レベルまで引き上げ、イージーミスをなくす。"),
      StrategyPhase("克服した弱点と長所の統合", "弱点が改善されれば、本来の武器がより活きてきます。", "苦手だったプレーを練習試合で積極的にトライする。", "苦手意識を消去し、プレーの幅を倍増させる。"))]

  /** The thresholds for scores 5, 4, 3 and 2 (a record keyed 5, 4, 3, 2). */
  datatype Criteria = Criteria(at5: real, at4: real, at3: real, at2: real)

  /** The thresholds per category string and item string. */
  const ScoringMaster: map<string, map<string, Criteria>> := map[
    "U12_男子" := map["10m走" := Criteria(1.98, 2.04, 2.10, 2.22),
                      "持久走" := Criteria(1680.0, 1400.0, 1120.0, 840.0)],
    "U15_男子" := map["10m走" := Criteria(1.73, 1.78, 1.84, 1.94),
                      "持久走" := Criteria(2160.0, 1800.0, 1440.0, 1080.0)],
    "U18_男子" := map["10m走" := Criteria(1.65, 1.70, 1.75, 1.85),
                      "持久走" := Criteria(2400.0, 2000.0, 1600.0, 1200.0)]]

  /** The category whose table an unknown category uses. */
  const FallbackCategory := "U18_男子"

  /** The criteria an item without a table entry is scored against. */
  const DefaultCriteria := Criteria(0.0, 0.0, 0.0, 0.0)

  /** The items for which a smaller value is better. */
  const DescendingItems: seq<string> := ["10m走", "30m走", "アジリティ", "ドリブル"]

  function CategoryTable(category: string): map<string, Criteria> {
    if category in ScoringMaster then ScoringMaster[category] else ScoringMaster[FallbackCategory]
  }

  function CriteriaFor(category: string, item: string): Criteria {
    var table := CategoryTable(category);
    if item in table then table[item] else DefaultCriteria
  }

  /** The threshold for score k. */
  function Threshold(c: Criteria, k: int): real
    requires 2 <= k <= 5
  {
    if k == 5 then c.at5 else if k == 4 then c.at4 else if k == 3 then c.at3 else c.at2
  }

  /** The criteria laid out as the main engine's ladder (index k - 1 holds the threshold for k). */
  function AsLadder(c: Criteria): Tables.Ladder {
    [0.0, c.at2, c.at3, c.at4, c.at5]
  }

  /**
   * `calculateScore`: the same top-down ladder as the main engine, without a
   * category coefficient. The result is the highest k in 2..5 whose threshold
   * the value meets (<= for descending items, >= otherwise), else 1.
   */
  function CalculateScore(category: string, item: string, value: real): (r: int)
    ensures 1 <= r <= 5
    ensures r >= 2 ==> Scoring.Meets(value, Threshold(CriteriaFor(category, item), r), item in DescendingItems)
    ensures forall k :: r < k <= 5 ==> !Scoring.Meets(value, Threshold(CriteriaFor(category, item), k), item in DescendingItems)
  {
    var c := CriteriaFor(category, item);
    var r := Scoring.LadderScore(value, AsLadder(c), item in DescendingItems);
    assert forall k :: 2 <= k <= 5 ==> AsLadder(c)[k - 1] == Threshold(c, k);
    r
  }

  /** An unknown category is scored as U18 male. */
  lemma UnknownCategoryUsesU18(category: string, item: string, value: real)
    requires category !in ScoringMaster
    ensures CalculateScore(category, item, value) == CalculateScore(FallbackCategory, item, value)
  {
  }

  /**
   * An item without criteria is scored against zeros: an ascending item scores 5
   * exactly when its value is at least 0 and 1 otherwise, a descending item 5
   * exactly when its value is at most 0 and 1 otherwise.
   */
  lemma UnknownItemUsesZeroCriteria(category: string, item: string, value: real)
    requires item !in CategoryTable(category)
    ensures item !in DescendingItems ==>
              (CalculateScore(category, item, value) == 5 <==> value >= 0.0) &&
              (value < 0.0 ==> CalculateScore(category, item, value) == 1)
    ensures item in DescendingItems ==>
              (CalculateScore(category, item, value) == 5 <==> value <= 0.0) &&
              (value > 0.0 ==> CalculateScore(category, item, value) == 1)
  {
    assert CriteriaFor(category, item) == DefaultCriteria;
  }

  /** Thresholds that get stricter towards score 5. */
  predicate Ordered(c: Criteria, descending: bool) {
    if descending then c.at5 < c.at4 < c.at3 < c.at2 else c.at5 > c.at4 > c.at3 > c.at2
  }

  /** Every table row is ordered in its item's direction: 10m走 descends, 持久走 ascends. */
  lemma ScoringMasterOrdered(category: string, item: string)
    requires category in ScoringMaster && item in ScoringMaster[category]
    ensures Ordered(ScoringMaster[category][item], item in DescendingItems)
  {
    assert "10m走" in DescendingItems by { assert DescendingItems[0] == "10m走"; }
    assert "持久走" !in DescendingItems;
  }

  /** On ordered criteria, scoring at least k is the same as meeting the threshold for k. */
  lemma {:induction false} AtLeastIffMet(c: Criteria, value: real, descending: bool, k: int)
    requires Ordered(c, descending) && 2 <= k <= 5
    ensures Scoring.LadderScore(value, AsLadder(c), descending) >= k <==> Scoring.Meets(value, Threshold(c, k), descending)
  {
    var r := Scoring.LadderScore(value, AsLadder(c), descending);
    assert forall j :: 2 <= j <= 5 ==> AsLadder(c)[j - 1] == Threshold(c, j);
    if r >= k {
      assert Scoring.Meets(value, Threshold(c, r), descending);
      assert descending ==> Threshold(c, r) <= Threshold(c, k);
      assert !descending ==> Threshold(c, r) >= Threshold(c, k);
    }
  }

  /** For the tabled categories and items, a score of at least k means the threshold for k is met, and back. */
  lemma TabledScoreAtLeastIffMet(category: string, item: string, value: real, k: int)
    requires category in ScoringMaster && item in ScoringMaster[category] && 2 <= k <= 5
    ensures CalculateScore(category, item, value) >= k <==>
            Scoring.Meets(value, Threshold(ScoringMaster[category][item], k), item in DescendingItems)
  {
    ScoringMasterOrdered(category, item);
    AtLeastIffMet(ScoringMaster[category][item], value, item in DescendingItems, k);
  }

  /** The physical and technical items the averages read. */
  const PhysicalItems: seq<string> := ["10m走", "持久走", "垂直跳び"]
  const TechnicalItems: seq<string> := ["ドリブル", "シュート", "パス"]

  /** The keys whose score is exactly 1. */
  function ExactOnes(scores: map<string, real>): set<string> {
    set k | k in scores && scores[k] == 1.0
  }

  /** A missing item counts as 3. */
  function ItemOr3(scores: map<string, real>, k: string): real {
    if k in scores then scores[k] else 3.0
  }

  function SumOf(scores: map<string, real>, items: seq<string>): real {
    if items == [] then 0.0 else SumOf(scores, items[..|items| - 1]) + ItemOr3(scores, items[|items| - 1])
  }

  /** A three-item sum is the sum of the three items. */
  lemma SumOfThree(scores: map<string, real>, a: string, b: string, c: string)
    ensures SumOf(scores, [a, b, c]) == ItemOr3(scores, a) + ItemOr3(scores, b) + ItemOr3(scores, c)
  {
    assert [a][..0] == [];
    assert SumOf(scores, [a]) == ItemOr3(scores, a);
    assert [a, b][..1] == [a];
    assert SumOf(scores, [a, b]) == SumOf(scores, [a]) + ItemOr3(scores, b);
    assert [a, b, c][..2] == [a, b];
  }

  function Average(scores: map<string, real>, items: seq<string>): real
    requires items != []
  {
    SumOf(scores, items) / |items| as real
  }

  /**
   * The type `getStrategyPlan` picks: two or more exact 1s make "Bottleneck Fix";
   * otherwise the physical and technical averages against 4 split the rest into
   * four exclusive types.
   */
  function StrategyType(scores: map<string, real>): (t: PlayerType)
    ensures t == BottleneckFix <==> |ExactOnes(scores)| >= 2
    ensures t == SuperAce <==> (|ExactOnes(scores)| < 2 &&
               Average(scores, PhysicalItems) >= 4.0 && Average(scores, TechnicalItems) >= 4.0)
    ensures t == PhysicalMonster <==> (|ExactOnes(scores)| < 2 &&
               Average(scores, PhysicalItems) >= 4.0 && Average(scores, TechnicalItems) < 4.0)
    ensures t == Technician <==> (|ExactOnes(scores)| < 2 &&
               Average(scores, PhysicalItems) < 4.0 && Average(scores, TechnicalItems) >= 4.0)
    ensures t == Potential <==> (|ExactOnes(scores)| < 2 &&
               Average(scores, PhysicalItems) < 4.0 && Average(scores, TechnicalItems) < 4.0)
  {
    if |ExactOnes(scores)| >= 2 then BottleneckFix
    else
      var phyAvg := Average(scores, PhysicalItems);
      var techAvg := Average(scores, TechnicalItems);
      if phyAvg >= 4.0 && techAvg >= 4.0 then SuperAce
      else if phyAvg >= 4.0 then PhysicalMonster
      else if techAvg >= 4.0 then Technician
      else Potential
  }

  /** `getStrategyPlan`: the plan for the picked type, which carries that type. */
  function GetStrategyPlan(scores: map<string, real>): (p: StrategyPlan)
    ensures p.playerType == StrategyType(scores)
    ensures p in StrategyMaster.Values
  {
    StrategyPlanTyped();
    StrategyMaster[StrategyType(scores)]
  }

  /** Every type has a plan, and the plan stored under a type names that type. */
  lemma StrategyPlanTyped()
    ensures forall t :: t in StrategyMaster && StrategyMaster[t].playerType == t
  {
    forall t
      ensures t in StrategyMaster && StrategyMaster[t].playerType == t
    {
      assert t.SuperAce? || t.PhysicalMonster? || t.Technician? || t.Potential? || t.BottleneckFix?;
    }
  }

  /** "Bottleneck Fix" exactly when two different items score exactly 1. */
  lemma BottleneckIffTwoExactOnes(scores: map<string, real>)
    ensures StrategyType(scores) == BottleneckFix <==>
            exists k1, k2 :: k1 in scores && k2 in scores && k1 != k2 && scores[k1] == 1.0 && scores[k2] == 1.0
  {
    var ones := ExactOnes(scores);
    if |ones| >= 2 {
      var k1 :| k1 in ones;
      assert |ones - {k1}| >= 1;
      var k2 :| k2 in ones - {k1};
      assert k1 in scores && k2 in scores && k1 != k2 && scores[k1] == 1.0 && scores[k2] == 1.0;
    }
    if exists k1, k2 :: k1 in scores && k2 in scores && k1 != k2 && scores[k1] == 1.0 && scores[k2] == 1.0 {
      var k1, k2 :| k1 in scores && k2 in scores && k1 != k2 && scores[k1] == 1.0 && scores[k2] == 1.0;
      assert {k1, k2} <= ones;
      assert |{k1, k2}| == 2;
      SubsetCardinality({k1, k2}, ones);
    }
  }

  lemma SubsetCardinality(a: set<string>, b: set<string>)
    requires a <= b
    ensures |a| <= |b|
  {
    assert b == a + (b - a);
  }

  /** Only an exact 1 counts: two half-step 1.5 ratings (possible after the clamp) do not. */
  lemma HalfStepsAreNotBottleneck()
    ensures StrategyType(map["ドリブル" := 1.5, "シュート" := 1.5]) == Potential
  {
    var m := map["ドリブル" := 1.5, "シュート" := 1.5];
    assert ExactOnes(m) == {};
    SumOfThree(m, "ドリブル", "シュート", "パス");
    SumOfThree(m, "10m走", "持久走", "垂直跳び");
  }

  /** With nothing measured every average is 3: a "Potential" athlete. */
  lemma NothingMeasuredIsPotential()
    ensures StrategyType(map[]) == Potential
  {
    assert ExactOnes(map[]) == {};
    SumOfThree(map[], "ドリブル", "シュート", "パス");
    SumOfThree(map[], "10m走", "持久走", "垂直跳び");
  }

  /** The sum over items that do not include k ignores k's score. */
  lemma {:induction false} SumIgnoresOtherKeys(scores: map<string, real>, items: seq<string>, k: string, v: real)
    requires k !in items
    ensures SumOf(scores[k := v], items) == SumOf(scores, items)
  {
    if items != [] {
      SumIgnoresOtherKeys(scores, items[..|items| - 1], k, v);
    }
  }

  /**
   * An item outside the six averaged ones changes the type only through the
   * count of exact 1s: setting it to a non-1 score over a non-1 score changes nothing.
   */
  lemma TypeIgnoresOtherItems(scores: map<string, real>, k: string, v: real)
    requires k !in PhysicalItems && k !in TechnicalItems
    requires v != 1.0 && (k in scores ==> scores[k] != 1.0)
    ensures StrategyType(scores[k := v]) == StrategyType(scores)
  {
    assert ExactOnes(scores[k := v]) == ExactOnes(scores);
    SumIgnoresOtherKeys(scores, PhysicalItems, k, v);
    SumIgnoresOtherKeys(scores, TechnicalItems, k, v);
  }

  /** The items entered as 1..5 ratings and clamped rather than scored. */
  const RatedItems: seq<string> := ["ドリブル", "シュート", "パス"]

  /** `Math.min(5, Math.max(1, v))`. */
  function Clamp(v: real): (r: real)
    ensures 1.0 <= r <= 5.0
    ensures 1.0 <= v <= 5.0 ==> r == v
    ensures v < 1.0 ==> r == 1.0
    ensures v > 5.0 ==> r == 5.0
  {
    if v > 5.0 then 5.0 else if v < 1.0 then 1.0 else v
  }

  /** The score one parsed input receives in `handleAnalyze`. */
  function ItemScore(category: string, key: string, value: real): (r: real)
    ensures 1.0 <= r <= 5.0
    ensures key in RatedItems ==> r == Clamp(value)
    ensures key !in RatedItems ==> r == CalculateScore(category, key, value) as real
  {
    if key in RatedItems then Clamp(value) else CalculateScore(category, key, value) as real
  }

  /** A form input: its key and its parsed number, None where parsing gives NaN. */
  type Input = (string, Option<real>)

  predicate DistinctKeys(inputs: seq<Input>) {
    forall i, j :: 0 <= i < j < |inputs| ==> inputs[i].0 != inputs[j].0
  }

  /** The score dictionary the `forEach` builds: one entry per parsed input. */
  function ScoresOf(category: string, inputs: seq<Input>): (m: map<string, real>)
    ensures forall k :: k in m <==> k in OrderOf(inputs)
  {
    if inputs == [] then map[]
    else
      var last := inputs[|inputs| - 1];
      var m := ScoresOf(category, inputs[..|inputs| - 1]);
      if last.1.Some? then m[last.0 := ItemScore(category, last.0, last.1.value)] else m
  }

  /** The dictionary's keys in insertion order: the parsed inputs' keys, in input order. */
  function OrderOf(inputs: seq<Input>): seq<string> {
    if inputs == [] then []
    else
      var last := inputs[|inputs| - 1];
      OrderOf(inputs[..|inputs| - 1]) + (if last.1.Some? then [last.0] else [])
  }

  /** Whether the key was entered with a number. */
  predicate Parsed(inputs: seq<Input>, k: string) {
    exists i :: 0 <= i < |inputs| && inputs[i].0 == k && inputs[i].1.Some?
  }

  /**
   * The dictionary holds exactly the parsed inputs: NaN inputs are left out, and
   * every score lies in [1, 5].
   */
  lemma {:induction false} ScoresOfDomain(category: string, inputs: seq<Input>)
    ensures forall k :: k in ScoresOf(category, inputs) <==> Parsed(inputs, k)
    ensures forall k :: k in ScoresOf(category, inputs) ==> 1.0 <= ScoresOf(category, inputs)[k] <= 5.0
  {
    if inputs != [] {
      var init := inputs[..|inputs| - 1];
      ScoresOfDomain(category, init);
      forall k
        ensures Parsed(inputs, k) <==> Parsed(init, k) || (inputs[|inputs| - 1].0 == k && inputs[|inputs| - 1].1.Some?)
      {
        if Parsed(init, k) {
          var i :| 0 <= i < |init| && init[i].0 == k && init[i].1.Some?;
          assert inputs[i] == init[i];
        }
        if Parsed(inputs, k) {
          var i :| 0 <= i < |inputs| && inputs[i].0 == k && inputs[i].1.Some?;
          if i < |init| {
            assert init[i] == inputs[i];
          }
        }
      }
    }
  }

  /** With distinct keys, each parsed input's score is the one its own value earns. */
  lemma {:induction false} ScoresOfValue(category: string, inputs: seq<Input>, i: nat)
    requires DistinctKeys(inputs)
    requires i < |inputs| && inputs[i].1.Some?
    ensures inputs[i].0 in ScoresOf(category, inputs)
    ensures ScoresOf(category, inputs)[inputs[i].0] == ItemScore(category, inputs[i].0, inputs[i].1.value)
  {
    if i < |inputs| - 1 {
      var init := inputs[..|inputs| - 1];
      assert init[i] == inputs[i];
      ScoresOfValue(category, init, i);
    }
  }

  /** With distinct keys the key order lists each key once. */
  lemma {:induction false} OrderOfDistinct(inputs: seq<Input>)
    requires DistinctKeys(inputs)
    ensures forall i, j :: 0 <= i < j < |OrderOf(inputs)| ==> OrderOf(inputs)[i] != OrderOf(inputs)[j]
  {
    if inputs != [] {
      var init := inputs[..|inputs| - 1];
      var last := inputs[|inputs| - 1];
      OrderOfDistinct(init);
      OrderOfKeys(init);
      if last.1.Some? {
        forall i | 0 <= i < |init|
          ensures init[i].0 != last.0
        {
          assert init[i] == inputs[i];
        }
        assert last.0 !in OrderOf(init);
      }
    }
  }

  /** Every key in the key order is the key of some input. */
  lemma {:induction false} OrderOfKeys(inputs: seq<Input>)
    ensures forall k :: k in OrderOf(inputs) ==> exists i :: 0 <= i < |inputs| && inputs[i].0 == k
  {
    if inputs != [] {
      var init := inputs[..|inputs| - 1];
      OrderOfKeys(init);
      forall k | k in OrderOf(inputs)
        ensures exists i :: 0 <= i < |inputs| && inputs[i].0 == k
      {
        if k in OrderOf(init) {
          var i :| 0 <= i < |init| && init[i].0 == k;
          assert inputs[i] == init[i];
        } else {
          assert inputs[|inputs| - 1].0 == k;
        }
      }
    }
  }

  /** The scoring `forEach` of `handleAnalyze`. */
  method ComputeScores(category: string, inputs: seq<Input>) returns (scores: map<string, real>, order: seq<string>)
    ensures scores == ScoresOf(category, inputs)
    ensures order == OrderOf(inputs)
  {
    scores, order := map[], [];
    var i := 0;
    while i < |inputs|
      invariant 0 <= i <= |inputs|
      invariant scores == ScoresOf(category, inputs[..i])
      invariant order == OrderOf(inputs[..i])
    {
      assert inputs[..i + 1][..i] == inputs[..i];
      var (key, parsed) := inputs[i];
      if parsed.Some? {
        scores := scores[key := ItemScore(category, key, parsed.value)];
        order := order + [key];
      }
      i := i + 1;
    }
    assert inputs[..i] == inputs;
  }

  /** The fallback comment: "needs basic training" up to 2, "good performance" above. */
  function FallbackContent(score: real): FeedbackContent {
    FeedbackContent(if score <= 2.0 then "基礎トレーニングが必要です。" else "良いパフォーマンスです。", "『継続は力なり。』")
  }

  /** Whether the comment table has an entry for the item at this (integral) score. */
  predicate HasContent(key: string, score: real) {
    key in FeedbackMaster && score.Floor as real == score && score.Floor in FeedbackMaster[key]
  }

  /** `FEEDBACK_MASTER[key]?.[score]`, falling back when absent. */
  function ContentFor(key: string, score: real): (c: FeedbackContent)
    ensures HasContent(key, score) ==> c == FeedbackMaster[key][score.Floor]
    ensures !HasContent(key, score) ==> c == FallbackContent(score)
  {
    if HasContent(key, score) then FeedbackMaster[key][score.Floor] else FallbackContent(score)
  }

  /**
   * The table has comments exactly for 10m走 and 持久走 at the integer levels 1..5;
   * every other item, and every non-integral rating, gets the fallback.
   */
  lemma ContentCoverage(key: string, score: real)
    ensures HasContent(key, score) <==>
            (key == "10m走" || key == "持久走") && score.Floor as real == score && 1 <= score.Floor <= 5
  {
  }

  datatype FeedbackItem = FeedbackItem(item: string, score: real, intelligence: string, advice: string)

  /** The feedback list: one item per dictionary key, in key order. */
  function FeedbackList(order: seq<string>, scores: map<string, real>): (r: seq<FeedbackItem>)
    requires forall k :: k in order ==> k in scores
    ensures |r| == |order|
    ensures forall i :: 0 <= i < |r| ==> r[i].item == order[i] && r[i].score == scores[order[i]]
    ensures forall i :: 0 <= i < |r| ==>
              r[i].intelligence == ContentFor(order[i], scores[order[i]]).intelligence &&
              r[i].advice == ContentFor(order[i], scores[order[i]]).advice
  {
    seq(|order|, i requires 0 <= i < |order| =>
      var content := ContentFor(order[i], scores[order[i]]);
      FeedbackItem(order[i], scores[order[i]], content.intelligence, content.advice))
  }

  datatype AnalyzeReport = AnalyzeReport(strategy: StrategyPlan, feedbacks: seq<FeedbackItem>)

  /**
   * `handleAnalyze`: one feedback item per parsed input, in input order, each
   * with a score in [1, 5], and the plan for the dictionary's type.
   */
  method HandleAnalyze(category: string, inputs: seq<Input>) returns (report: AnalyzeReport)
    requires DistinctKeys(inputs)
    ensures report.strategy == GetStrategyPlan(ScoresOf(category, inputs))
    ensures report.feedbacks == FeedbackList(OrderOf(inputs), ScoresOf(category, inputs))
    ensures |report.feedbacks| == |OrderOf(inputs)|
    ensures forall i :: 0 <= i < |report.feedbacks| ==> 1.0 <= report.feedbacks[i].score <= 5.0
    ensures forall i, j :: 0 <= i < j < |report.feedbacks| ==> report.feedbacks[i].item != report.feedbacks[j].item
  {
    var scores, order := ComputeScores(category, inputs);
    ScoresOfDomain(category, inputs);
    OrderOfDistinct(inputs);
    var feedbacks := FeedbackList(order, scores);
    var strategy := GetStrategyPlan(scores);
    report := AnalyzeReport(strategy, feedbacks);
  }
}
