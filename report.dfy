/**
 * Result assembly of `handleInput2Submit` (s-core-ai-coach/App.tsx): the
 * physical and technical feedback records, the in-place overlay of the AI
 * comments onto the shared feedback entries, and the assembled result.
 */
module Report {
  import opened Options
  import opened Tables
  import opened Scoring
  import opened Analysis

  /** The keys of the score record, as used by the feedback records and the AI comments. */
  datatype MetricKey =
    | Run10m | Run30m | AgilityR | AgilityL | Agility | VerticalJump | TripleJump
    | SitUps | Coordination | Endurance
    | Dribble | Lifting | ShortPassR | ShortPassL | ShortPass | LongPassR | LongPassL | LongPass
    | ShootR | ShootL | Shoot

  /** The keys of the physical feedback record, in insertion order. */
  const PhysicalKeys: seq<MetricKey> :=
    [Run10m, Run30m, AgilityR, AgilityL, Agility, VerticalJump, TripleJump, SitUps, Coordination, Endurance]

  /** The keys of the technical feedback record, in insertion order. */
  const TechnicalKeys: seq<MetricKey> :=
    [Dribble, Lifting, ShortPassR, ShortPassL, ShortPass, LongPassR, LongPassL, LongPass, ShootR, ShootL, Shoot]

  /** The feedback-table label each key is looked up under; R, L and composite share one. */
  function Label(k: MetricKey): string {
    match k
    case Run10m => "10m走"
    case Run30m => "30m走"
    case AgilityR | AgilityL | Agility => "敏捷性"
    case VerticalJump => "垂直跳び"
    case TripleJump => "立ち三段跳び"
    case SitUps => "上体起こし"
    case Coordination => "コーディネーション"
    case Endurance => "持久力"
    case Dribble => "ドリブル"
    case Lifting => "リフティング"
    case ShortPassR | ShortPassL | ShortPass => "ショートパス"
    case LongPassR | LongPassL | LongPass => "ロングパス"
    case ShootR | ShootL | Shoot => "シュート"
  }

  /** The standard a key's score is computed under in ProcessScores. */
  function StandardKey(k: MetricKey): string {
    match k
    case Run10m => "run10m"
    case Run30m => "run30m"
    case AgilityR | AgilityL | Agility => "agility"
    case VerticalJump => "verticalJump"
    case TripleJump => "tripleJump"
    case SitUps => "sitUps"
    case Coordination => "coordination"
    case Endurance => "endurance"
    case Dribble => "dribble"
    case Lifting => "lifting"
    case ShortPassR | ShortPassL | ShortPass => "shortPass"
    case LongPassR | LongPassL | LongPass => "longPass"
    case ShootR | ShootL | Shoot => "shoot"
  }

  /** The score record's field under a key. */
  function ScoreOf(s: Scores, k: MetricKey): real {
    match k
    case Run10m => s.run10m
    case Run30m => s.run30m
    case AgilityR => s.agilityR
    case AgilityL => s.agilityL
    case Agility => s.agility
    case VerticalJump => s.verticalJump
    case TripleJump => s.tripleJump
    case SitUps => s.sitUps
    case Coordination => s.coordination
    case Endurance => s.endurance
    case Dribble => s.dribble
    case Lifting => s.lifting
    case ShortPassR => s.shortPassR
    case ShortPassL => s.shortPassL
    case ShortPass => s.shortPass
    case LongPassR => s.longPassR
    case LongPassL => s.longPassL
    case LongPass => s.longPass
    case ShootR => s.shootR
    case ShootL => s.shootL
    case Shoot => s.shoot
  }

  /** Every label is the metric name of the standard the key is scored under. */
  lemma LabelsAreStandardNames(k: MetricKey)
    ensures StandardKey(k) in MasterStandards && Label(k) == MasterStandards[StandardKey(k)].metric
  {
  }

  /** A feedback record (Record<string, MetricFeedback>): its keys in insertion order and their entries. */
  datatype FeedbackRecord = FeedbackRecord(keys: seq<MetricKey>, entries: map<MetricKey, FeedbackEntry>) {
    predicate Valid() {
      (forall i, j :: 0 <= i < j < |keys| ==> keys[i] != keys[j])
      && (forall k :: k in entries <==> k in keys)
    }
  }

  /** The record over `keys` holding, under each key, the feedback for its label and score. */
  function FeedbackFor(master: FeedbackMaster, s: Scores, keys: seq<MetricKey>): (r: FeedbackRecord)
    requires Complete(master)
    requires forall i, j :: 0 <= i < j < |keys| ==> keys[i] != keys[j]
    ensures r.Valid() && r.keys == keys
    ensures forall k :: k in r.entries ==> r.entries[k] == GetFeedback(master, Label(k), ScoreOf(s, k)).value
    ensures r.entries.Values <= Entries(master)
  {
    FeedbackRecord(keys, map k | k in keys :: GetFeedback(master, Label(k), ScoreOf(s, k)).value)
  }

  /** The physical feedback record: exactly ten distinct keys. */
  function PhysicalFeedbacks(master: FeedbackMaster, s: Scores): (r: FeedbackRecord)
    requires Complete(master)
    ensures r.Valid() && r.keys == PhysicalKeys && |r.keys| == 10
    ensures r.entries.Values <= Entries(master)
  {
    FeedbackFor(master, s, PhysicalKeys)
  }

  /** The technical feedback record: exactly eleven distinct keys. */
  function TechnicalFeedbacks(master: FeedbackMaster, s: Scores): (r: FeedbackRecord)
    requires Complete(master)
    ensures r.Valid() && r.keys == TechnicalKeys && |r.keys| == 11
    ensures r.entries.Values <= Entries(master)
  {
    FeedbackFor(master, s, TechnicalKeys)
  }

  /**
   * Entries are the table's own objects: two keys with one label whose scores
   * round to the same level hold the very same entry (e.g. agilityR, agilityL, agility).
   */
  lemma SameLabelSameLevelAlias(master: FeedbackMaster, s: Scores, keys: seq<MetricKey>, k1: MetricKey, k2: MetricKey)
    requires Complete(master)
    requires forall i, j :: 0 <= i < j < |keys| ==> keys[i] != keys[j]
    requires k1 in keys && k2 in keys
    requires Label(k1) == Label(k2) && SafeLevel(ScoreOf(s, k1)) == SafeLevel(ScoreOf(s, k2))
    ensures FeedbackFor(master, s, keys).entries[k1] == FeedbackFor(master, s, keys).entries[k2]
  {
  }

  datatype PhysicalComments = PhysicalComments(
    run10m: Option<string>, run30m: Option<string>, agilityR: Option<string>, agilityL: Option<string>,
    verticalJump: Option<string>, tripleJump: Option<string>, sitUps: Option<string>,
    coordination: Option<string>, endurance: Option<string>)

  datatype TechnicalComments = TechnicalComments(
    dribble: Option<string>, lifting: Option<string>, shortPassR: Option<string>, shortPassL: Option<string>,
    longPassR: Option<string>, longPassL: Option<string>, shootR: Option<string>, shootL: Option<string>)

  /** The AI collaborator's answer (services/geminiService.ts), given as a plain value. */
  datatype AiResponse = AiResponse(
    aiAdvice: seq<AdviceItem>, physicalSummary: string, technicalSummary: string, playStyle: string,
    physicalComments: PhysicalComments, technicalComments: TechnicalComments)

  /** `physicalComments[key]`: the schema has no field for the composite key. */
  function PhysicalComment(c: PhysicalComments, k: MetricKey): Option<string> {
    match k
    case Run10m => c.run10m
    case Run30m => c.run30m
    case AgilityR => c.agilityR
    case AgilityL => c.agilityL
    case VerticalJump => c.verticalJump
    case TripleJump => c.tripleJump
    case SitUps => c.sitUps
    case Coordination => c.coordination
    case Endurance => c.endurance
    case _ => None
  }

  /** `technicalComments[key]`: the schema has no field for the composite keys. */
  function TechnicalComment(c: TechnicalComments, k: MetricKey): Option<string> {
    match k
    case Dribble => c.dribble
    case Lifting => c.lifting
    case ShortPassR => c.shortPassR
    case ShortPassL => c.shortPassL
    case LongPassR => c.longPassR
    case LongPassL => c.longPassL
    case ShootR => c.shootR
    case ShootL => c.shootL
    case _ => None
  }

  /** The comments present for the given keys. */
  function PhysicalCommentMap(c: PhysicalComments, keys: seq<MetricKey>): (m: map<MetricKey, string>)
    ensures forall k :: k in m <==> k in keys && PhysicalComment(c, k).Some?
    ensures forall k :: k in m ==> m[k] == PhysicalComment(c, k).value
  {
    map k | k in keys && PhysicalComment(c, k).Some? :: PhysicalComment(c, k).value
  }

  function TechnicalCommentMap(c: TechnicalComments, keys: seq<MetricKey>): (m: map<MetricKey, string>)
    ensures forall k :: k in m <==> k in keys && TechnicalComment(c, k).Some?
    ensures forall k :: k in m ==> m[k] == TechnicalComment(c, k).value
  {
    map k | k in keys && TechnicalComment(c, k).Some? :: TechnicalComment(c, k).value
  }

  /** A comment counts when it is present and non-empty (JavaScript truthiness of a string). */
  predicate Truthy(comments: map<MetricKey, string>, k: MetricKey) {
    k in comments && comments[k] != ""
  }

  /** The writes the merge loop performs, in key order: (entry, comment) for each key with a truthy comment. */
  function Writes(keys: seq<MetricKey>, entries: map<MetricKey, FeedbackEntry>, comments: map<MetricKey, string>)
    : (w: seq<(FeedbackEntry, string)>)
    requires forall k :: k in keys ==> k in entries
    ensures |w| <= |keys|
  {
    if keys == [] then []
    else
      var k := keys[|keys| - 1];
      Writes(keys[..|keys| - 1], entries, comments) + (if Truthy(comments, k) then [(entries[k], comments[k])] else [])
  }

  /** The `intelligence` an entry shows after a list of writes: the last one aimed at it, else `base`. */
  function Overlay(w: seq<(FeedbackEntry, string)>, e: FeedbackEntry, base: string): string {
    if w == [] then base
    else if w[|w| - 1].0 == e then w[|w| - 1].1
    else Overlay(w[..|w| - 1], e, base)
  }

  /** Writing two lists in turn is writing their concatenation. */
  lemma {:induction false} OverlayAppend(w1: seq<(FeedbackEntry, string)>, w2: seq<(FeedbackEntry, string)>,
                                          e: FeedbackEntry, base: string)
    ensures Overlay(w1 + w2, e, base) == Overlay(w2, e, Overlay(w1, e, base))
  {
    if w2 != [] {
      var init := w2[..|w2| - 1];
      assert (w1 + w2)[..|w1 + w2| - 1] == w1 + init;
      OverlayAppend(w1, init, e, base);
    } else {
      assert w1 + w2 == w1;
    }
  }

  /** An entry no write aims at keeps its text. */
  lemma {:induction false} OverlayUntouched(w: seq<(FeedbackEntry, string)>, e: FeedbackEntry, base: string)
    requires forall i :: 0 <= i < |w| ==> w[i].0 != e
    ensures Overlay(w, e, base) == base
  {
    if w != [] {
      var init := w[..|w| - 1];
      assert forall i :: 0 <= i < |init| ==> init[i] == w[i];
      OverlayUntouched(init, e, base);
    }
  }

  /** The last write aimed at an entry decides its text. */
  lemma {:induction false} OverlayLastWriteWins(w: seq<(FeedbackEntry, string)>, e: FeedbackEntry, base: string, i: nat)
    requires i < |w| && w[i].0 == e
    requires forall j :: i < j < |w| ==> w[j].0 != e
    ensures Overlay(w, e, base) == w[i].1
  {
    if i < |w| - 1 {
      var init := w[..|w| - 1];
      assert forall j :: 0 <= j < |init| ==> init[j] == w[j];
      OverlayLastWriteWins(init, e, base, i);
    }
  }

  /** A write (entry, text) that some key of the record with a truthy comment performs. */
  predicate FromTruthyKey(keys: seq<MetricKey>, entries: map<MetricKey, FeedbackEntry>,
                          comments: map<MetricKey, string>, x: (FeedbackEntry, string))
    requires forall k :: k in keys ==> k in entries
  {
    exists k :: k in keys && Truthy(comments, k) && x == (entries[k], comments[k])
  }

  /** Every write comes from a key of the record whose comment is truthy. */
  lemma {:induction false} WritesFromTruthyComments(keys: seq<MetricKey>, entries: map<MetricKey, FeedbackEntry>,
                                                    comments: map<MetricKey, string>)
    requires forall k :: k in keys ==> k in entries
    ensures forall i :: 0 <= i < |Writes(keys, entries, comments)| ==>
              FromTruthyKey(keys, entries, comments, Writes(keys, entries, comments)[i])
  {
    if keys != [] {
      var init := keys[..|keys| - 1];
      var last := keys[|keys| - 1];
      assert forall k :: k in init ==> k in keys;
      WritesFromTruthyComments(init, entries, comments);
      var w0 := Writes(init, entries, comments);
      var w := Writes(keys, entries, comments);
      forall i | 0 <= i < |w|
        ensures FromTruthyKey(keys, entries, comments, w[i])
      {
        assert w == w0 + (if Truthy(comments, last) then [(entries[last], comments[last])] else []);
        if i < |w0| {
          assert FromTruthyKey(init, entries, comments, w0[i]);
          var k :| k in init && Truthy(comments, k) && w0[i] == (entries[k], comments[k]);
          assert k in keys && w[i] == w0[i];
        } else {
          assert last in keys && Truthy(comments, last);
          assert w[i] == (entries[last], comments[last]);
        }
      }
    }
  }

  /**
   * An entry's text changes only through a key of the record that holds it and
   * has a truthy comment, and then it becomes that comment.
   */
  lemma OverrideOnlyFromTruthyComment(keys: seq<MetricKey>, entries: map<MetricKey, FeedbackEntry>,
                                      comments: map<MetricKey, string>, e: FeedbackEntry, base: string)
    requires forall k :: k in keys ==> k in entries
    requires Overlay(Writes(keys, entries, comments), e, base) != base
    ensures exists k :: k in keys && entries[k] == e && Truthy(comments, k) &&
                        Overlay(Writes(keys, entries, comments), e, base) == comments[k]
  {
    var w := Writes(keys, entries, comments);
    WritesFromTruthyComments(keys, entries, comments);
    if forall i :: 0 <= i < |w| ==> w[i].0 != e {
      OverlayUntouched(w, e, base);
    }
    var i :| 0 <= i < |w| && w[i].0 == e && forall j :: i < j < |w| ==> w[j].0 != e by {
      LastIndexExists(w, e);
    }
    OverlayLastWriteWins(w, e, base, i);
  }

  lemma LastIndexExists(w: seq<(FeedbackEntry, string)>, e: FeedbackEntry)
    requires exists i :: 0 <= i < |w| && w[i].0 == e
    ensures exists i :: 0 <= i < |w| && w[i].0 == e && forall j :: i < j < |w| ==> w[j].0 != e
  {
    var i :| 0 <= i < |w| && w[i].0 == e;
    while exists j :: i < j < |w| && w[j].0 == e
      invariant 0 <= i < |w| && w[i].0 == e
      decreases |w| - i
    {
      var j :| i < j < |w| && w[j].0 == e;
      i := j;
    }
  }

  /** The writes over two runs of keys are the writes of the first run, then those of the second. */
  lemma {:induction false} WritesAppend(a: seq<MetricKey>, b: seq<MetricKey>, entries: map<MetricKey, FeedbackEntry>,
                                        comments: map<MetricKey, string>)
    requires forall k :: k in a + b ==> k in entries
    ensures Writes(a + b, entries, comments) == Writes(a, entries, comments) + Writes(b, entries, comments)
  {
    if b == [] {
      assert a + b == a;
    } else {
      var init := b[..|b| - 1];
      assert (a + b)[..|a + b| - 1] == a + init;
      assert (a + b)[|a + b| - 1] == b[|b| - 1];
      WritesAppend(a, init, entries, comments);
    }
  }

  /**
   * A shared entry shows the comment of the last key, in key order, whose comment
   * is truthy and whose entry it is: if no later key with a truthy comment holds
   * the same entry, the entry of key j shows key j's comment.
   */
  lemma LaterCommentWins(keys: seq<MetricKey>, entries: map<MetricKey, FeedbackEntry>,
                         comments: map<MetricKey, string>, j: nat, base: string)
    requires forall k :: k in keys ==> k in entries
    requires j < |keys| && Truthy(comments, keys[j])
    requires forall m :: j < m < |keys| && Truthy(comments, keys[m]) ==> entries[keys[m]] != entries[keys[j]]
    ensures Overlay(Writes(keys, entries, comments), entries[keys[j]], base) == comments[keys[j]]
  {
    var e := entries[keys[j]];
    var upTo, rest := keys[..j + 1], keys[j + 1..];
    assert keys == upTo + rest;
    WritesAppend(upTo, rest, entries, comments);
    assert upTo[..|upTo| - 1] == keys[..j];
    assert Writes(upTo, entries, comments) == Writes(keys[..j], entries, comments) + [(e, comments[keys[j]])];
    assert forall k :: k in rest ==> k in keys;
    WritesFromTruthyComments(rest, entries, comments);
    var w := Writes(rest, entries, comments);
    forall i | 0 <= i < |w|
      ensures w[i].0 != e
    {
      assert FromTruthyKey(rest, entries, comments, w[i]);
      var k :| k in rest && Truthy(comments, k) && w[i] == (entries[k], comments[k]);
      var m :| 0 <= m < |rest| && rest[m] == k;
      assert keys[j + 1 + m] == k;
    }
    OverlayAppend(Writes(upTo, entries, comments), w, e, base);
    OverlayUntouched(w, e, Overlay(Writes(upTo, entries, comments), e, base));
  }

  /**
   * Items missing from the comment table all fall back to the one default table,
   * so two of them at the same level receive the same entry object, and a comment
   * written for one shows under the other as well.
   */
  lemma DefaultFallbackAliasesAcrossItems(master: FeedbackMaster, item1: string, item2: string, s1: real, s2: real)
    requires HasDefault(master)
    requires item1 !in master && item2 !in master && SafeLevel(s1) == SafeLevel(s2)
    ensures GetFeedback(master, item1, s1) == GetFeedback(master, item2, s2)
  {
  }

  /** The composite keys have no AI comment field, so no write ever targets them by key. */
  lemma CompositesNeverCommented(pc: PhysicalComments, tc: TechnicalComments)
    ensures Agility !in PhysicalCommentMap(pc, PhysicalKeys)
    ensures ShortPass !in TechnicalCommentMap(tc, TechnicalKeys)
    ensures LongPass !in TechnicalCommentMap(tc, TechnicalKeys)
    ensures Shoot !in TechnicalCommentMap(tc, TechnicalKeys)
  {
  }

  /**
   * The merge loop over a record (`Object.keys(...).forEach`): each key with a
   * truthy comment overwrites its entry's `intelligence`, in key order, so an
   * entry shared by several keys ends with the last of their comments; `advice`
   * is never written.
   */
  method MergeComments(rec: FeedbackRecord, comments: map<MetricKey, string>)
    requires forall k :: k in rec.keys ==> k in rec.entries
    modifies rec.entries.Values
    ensures forall e :: e in rec.entries.Values ==>
              e.intelligence == Overlay(Writes(rec.keys, rec.entries, comments), e, old(e.intelligence))
    ensures forall e :: e in rec.entries.Values ==> e.advice == old(e.advice)
  {
    var i := 0;
    while i < |rec.keys|
      invariant 0 <= i <= |rec.keys|
      invariant forall e :: e in rec.entries.Values ==>
                  e.intelligence == Overlay(Writes(rec.keys[..i], rec.entries, comments), e, old(e.intelligence))
      invariant forall e :: e in rec.entries.Values ==> e.advice == old(e.advice)
    {
      var key := rec.keys[i];
      ghost var w := Writes(rec.keys[..i], rec.entries, comments);
      assert rec.keys[..i + 1][..i] == rec.keys[..i];
      if key in comments && comments[key] != "" {
        var entry := rec.entries[key];
        entry.intelligence := comments[key];
        assert Writes(rec.keys[..i + 1], rec.entries, comments) == w + [(entry, comments[key])];
        assert (w + [(entry, comments[key])])[..|w|] == w;
      } else {
        assert Writes(rec.keys[..i + 1], rec.entries, comments) == w + [];
        assert w + [] == w;
      }
      i := i + 1;
    }
    assert rec.keys[..i] == rec.keys;
  }

  /** The athlete profile, reduced to what scoring reads. */
  datatype AthleteInfo = AthleteInfo(ageGroup: AgeGroup, gender: Gender)

  datatype AnalysisResult = AnalysisResult(
    scores: Scores,
    physical: PhysicalMeasurements,
    technical: TechnicalMeasurements,
    physicalFeedbacks: FeedbackRecord,
    technicalFeedbacks: FeedbackRecord,
    physicalSummary: string,
    technicalSummary: string,
    aiAdvice: seq<AdviceItem>,
    playStyle: string,
    inspirationalQuote: string,
    athleteType: AthleteType)

  /** All writes of the two merge loops, physical first. */
  function AllWrites(master: FeedbackMaster, s: Scores, ai: AiResponse): seq<(FeedbackEntry, string)>
    requires Complete(master)
  {
    var phys := PhysicalFeedbacks(master, s);
    var tech := TechnicalFeedbacks(master, s);
    Writes(phys.keys, phys.entries, PhysicalCommentMap(ai.physicalComments, PhysicalKeys))
    + Writes(tech.keys, tech.entries, TechnicalCommentMap(ai.technicalComments, TechnicalKeys))
  }

  /** Both merge loops of `handleInput2Submit`, physical record first. */
  method MergeAll(master: FeedbackMaster, s: Scores, ai: AiResponse)
    requires Complete(master)
    modifies Entries(master)
    ensures forall e :: e in Entries(master) ==> e.intelligence == Overlay(AllWrites(master, s, ai), e, old(e.intelligence))
    ensures forall e :: e in Entries(master) ==> e.advice == old(e.advice)
  {
    var physFeedbacks := PhysicalFeedbacks(master, s);
    var techFeedbacks := TechnicalFeedbacks(master, s);
    var physComments := PhysicalCommentMap(ai.physicalComments, PhysicalKeys);
    var techComments := TechnicalCommentMap(ai.technicalComments, TechnicalKeys);
    ghost var w1 := Writes(physFeedbacks.keys, physFeedbacks.entries, physComments);
    ghost var w2 := Writes(techFeedbacks.keys, techFeedbacks.entries, techComments);
    WritesTargetRecord(physFeedbacks.keys, physFeedbacks.entries, physComments);
    WritesTargetRecord(techFeedbacks.keys, techFeedbacks.entries, techComments);
    MergeComments(physFeedbacks, physComments);
    label betweenMerges:
    MergeComments(techFeedbacks, techComments);
    forall e | e in Entries(master)
      ensures e.intelligence == Overlay(w1 + w2, e, old(e.intelligence))
    {
      if e !in physFeedbacks.entries.Values {
        OverlayUntouched(w1, e, old(e.intelligence));
      }
      if e !in techFeedbacks.entries.Values {
        OverlayUntouched(w2, e, old@betweenMerges(e.intelligence));
      }
      OverlayAppend(w1, w2, e, old(e.intelligence));
    }
  }

  /**
   * `handleInput2Submit` without its UI state and I/O: nothing without an
   * athlete profile; otherwise scores, class, both feedback records with the AI
   * comments overlaid on the shared entries, the summaries from the AI answer,
   * the advice and play style from the class's advisory pattern (not from the AI
   * answer), the quote at the given index, and the inputs unchanged.
   */
  method HandleInput2Submit(athlete: Option<AthleteInfo>, phys: PhysicalMeasurements, tech: TechnicalMeasurements,
                            ai: AiResponse, quoteIndex: nat, master: FeedbackMaster, advisory: AdvisoryMaster,
                            quotes: seq<string>)
    returns (result: Option<AnalysisResult>)
    requires Complete(master) && AdvisoryComplete(advisory)
    requires quoteIndex < |quotes|
    modifies Entries(master)
    ensures athlete.None? ==> result.None? && forall e :: e in Entries(master) ==> e.intelligence == old(e.intelligence)
    ensures athlete.Some? ==> result.Some?
    ensures result.Some? ==>
              var s := ProcessScores(phys, tech, athlete.value.ageGroup, athlete.value.gender);
              var r := result.value;
              && r.scores == s && r.physical == phys && r.technical == tech
              && r.athleteType == CategorizeAthlete(s)
              && r.physicalFeedbacks == PhysicalFeedbacks(master, s)
              && r.technicalFeedbacks == TechnicalFeedbacks(master, s)
              && r.physicalSummary == ai.physicalSummary && r.technicalSummary == ai.technicalSummary
              && r.aiAdvice == GetAdvisoryPattern(advisory, r.athleteType).advice
              && r.playStyle == GetAdvisoryPattern(advisory, r.athleteType).playStyle
              && r.inspirationalQuote == quotes[quoteIndex]
              && forall e :: e in Entries(master) ==>
                   e.intelligence == Overlay(AllWrites(master, s, ai), e, old(e.intelligence))
    ensures forall e :: e in Entries(master) ==> e.advice == old(e.advice)
  {
    if athlete.None? {
      return None;
    }
    var info := athlete.value;
    var scores := ProcessScores(phys, tech, info.ageGroup, info.gender);
    var athleteType := CategorizeAthlete(scores);
    var pattern := GetAdvisoryPattern(advisory, athleteType);
    var physFeedbacks := PhysicalFeedbacks(master, scores);
    var techFeedbacks := TechnicalFeedbacks(master, scores);
    MergeAll(master, scores, ai);
    var quote := quotes[quoteIndex];
    result := Some(AnalysisResult(
      scores := scores,
      physical := phys,
      technical := tech,
      physicalFeedbacks := physFeedbacks,
      technicalFeedbacks := techFeedbacks,
      physicalSummary := ai.physicalSummary,
      technicalSummary := ai.technicalSummary,
      aiAdvice := pattern.advice,
      playStyle := pattern.playStyle,
      inspirationalQuote := quote,
      athleteType := athleteType));
  }

  /** Every write aims at an entry of the record being merged. */
  lemma {:induction false} WritesTargetRecord(keys: seq<MetricKey>, entries: map<MetricKey, FeedbackEntry>,
                                              comments: map<MetricKey, string>)
    requires forall k :: k in keys ==> k in entries
    ensures forall i :: 0 <= i < |Writes(keys, entries, comments)| ==> Writes(keys, entries, comments)[i].0 in entries.Values
  {
    if keys != [] {
      var init := keys[..|keys| - 1];
      assert forall k :: k in init ==> k in keys;
      WritesTargetRecord(init, entries, comments);
    }
  }

  /** With no comment at all, the merge writes nothing, so every entry keeps its text. */
  lemma NoCommentsNoWrites(keys: seq<MetricKey>, entries: map<MetricKey, FeedbackEntry>)
    requires forall k :: k in keys ==> k in entries
    ensures Writes(keys, entries, map[]) == []
    ensures forall e: FeedbackEntry, base: string :: Overlay(Writes(keys, entries, map[]), e, base) == base
  {
    if keys != [] {
      NoCommentsNoWrites(keys[..|keys| - 1], entries);
    }
  }
}
