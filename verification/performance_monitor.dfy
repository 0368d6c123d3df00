/**
 * The prefab performance monitor: four append-only histories (function usage,
 * decision quality, relevance, decision impact) and the summary computed from
 * them (per-function counts and rates, average action counts, and the mean
 * relevance per step in ascending step order).
 */
module PerformanceMonitor {
  import opened Common
  import opened PrefabRecord

  // ------------------------------------------------------------ game states

  /**
   * A game-state dictionary as the monitor and the handler read it: the
   * numeric keys and the boolean keys that are present.
   */
  datatype StateSample = StateSample(numbers: map<string, real>, flags: map<string, bool>)

  /** `state.get(key, 0)`. */
  function Num(s: StateSample, key: string): real
  {
    GetOr(s.numbers, key, 0.0)
  }

  /** `1 if state.get(key, False) else 0`. */
  function FlagBit(s: StateSample, key: string): int
  {
    if GetOr(s.flags, key, false) then 1 else 0
  }

  /** The actions of one step, as the length of each action list by key. */
  type ActionCounts = map<string, nat>

  /** `len(actions.get('attack', [])) + len(actions.get('move', [])) + len(actions.get('ability', []))`. */
  function ActionTotal(a: ActionCounts): nat
  {
    GetOr(a, "attack", 0) + GetOr(a, "move", 0) + GetOr(a, "ability", 0)
  }

  datatype StateChange = StateChange(
    friendlyCountChange: real,
    enemyCountChange: real,
    lowHealthUnitsChange: int,
    actionCount: nat)

  /** The `state_change` dictionary of `record_decision_impact`. */
  function ChangeOf(pre: StateSample, post: StateSample, actions: ActionCounts): StateChange
  {
    StateChange(
      Num(post, "friendly_count") - Num(pre, "friendly_count"),
      Num(post, "enemy_count") - Num(pre, "enemy_count"),
      FlagBit(post, "has_low_health_units") - FlagBit(pre, "has_low_health_units"),
      ActionTotal(actions))
  }

  /** A step that changes nothing records zero deltas. */
  lemma ChangeOfSame(s: StateSample, actions: ActionCounts)
    ensures var c := ChangeOf(s, s, actions);
      c.friendlyCountChange == 0.0 && c.enemyCountChange == 0.0 && c.lowHealthUnitsChange == 0
  {
  }

  /** Swapping the two states negates every delta and keeps the action count. */
  lemma ChangeOfSwapped(pre: StateSample, post: StateSample, actions: ActionCounts)
    ensures var c, d := ChangeOf(pre, post, actions), ChangeOf(post, pre, actions);
      d.friendlyCountChange == -c.friendlyCountChange && d.enemyCountChange == -c.enemyCountChange &&
      d.lowHealthUnitsChange == -c.lowHealthUnitsChange && d.actionCount == c.actionCount
  {
  }

  /** Missing fields are read as zero: against an empty state, a delta is the other state's value. */
  lemma ChangeFromEmpty(post: StateSample, actions: ActionCounts)
    ensures var c := ChangeOf(StateSample(map[], map[]), post, actions);
      c.friendlyCountChange == Num(post, "friendly_count") &&
      c.enemyCountChange == Num(post, "enemy_count") &&
      c.lowHealthUnitsChange == FlagBit(post, "has_low_health_units") &&
      -1 <= c.lowHealthUnitsChange <= 1
  {
  }

  // ------------------------------------------------------------ records

  datatype UsageRecord = UsageRecord(
    funcId: string, funcName: string, step: int, selected: bool, confidence: real, relevance: real)

  datatype QualityRecord = QualityRecord(
    step: int, decisionType: string, functionsUsed: seq<string>,
    /** The numeric keys of the `outcome` dictionary. */
    outcome: map<string, real>,
    gameState: Option<StateSample>)

  datatype RelevanceRecord = RelevanceRecord(
    funcId: string, funcName: string, step: int, relevance: real, gameState: GameState)

  datatype ImpactRecord = ImpactRecord(
    step: int, pre: StateSample, post: StateSample, actions: ActionCounts, change: StateChange)

  // ------------------------------------------------------------ per-function statistics

  datatype FuncStats = FuncStats(
    name: string, totalCount: nat, selectedCount: nat, totalRelevance: real, totalConfidence: real)

  /** One pass of the accumulation loop over a usage record. */
  function Tally(st: FuncStats, r: UsageRecord): FuncStats
  {
    st.(totalCount := st.totalCount + 1,
        totalRelevance := st.totalRelevance + r.relevance,
        totalConfidence := st.totalConfidence + r.confidence,
        selectedCount := st.selectedCount + if r.selected then 1 else 0)
  }

  /** `function_stats` after the accumulation loop over `usage`. */
  function StatsOf(usage: seq<UsageRecord>): map<string, FuncStats>
  {
    if usage == [] then map[]
    else
      var m := StatsOf(usage[..|usage| - 1]);
      var r := usage[|usage| - 1];
      var st := if r.funcId in m then m[r.funcId] else FuncStats(r.funcName, 0, 0, 0.0, 0.0);
      m[r.funcId := Tally(st, r)]
  }

  /** The number of usage records carrying `id`. */
  function UsesOf(usage: seq<UsageRecord>, id: string): nat
  {
    if usage == [] then 0
    else UsesOf(usage[..|usage| - 1], id) + (if usage[|usage| - 1].funcId == id then 1 else 0)
  }

  /** The number of those records that were selected. */
  function SelectionsOf(usage: seq<UsageRecord>, id: string): nat
  {
    if usage == [] then 0
    else
      SelectionsOf(usage[..|usage| - 1], id) +
      (if usage[|usage| - 1].funcId == id && usage[|usage| - 1].selected then 1 else 0)
  }

  /** The name of the first usage record carrying `id`. */
  function FirstName(usage: seq<UsageRecord>, id: string): string
  {
    if usage == [] then ""
    else if UsesOf(usage[..|usage| - 1], id) > 0 then FirstName(usage[..|usage| - 1], id)
    else if usage[|usage| - 1].funcId == id then usage[|usage| - 1].funcName
    else ""
  }

  /**
   * A function has statistics exactly when some record carries its id; its
   * `total_count` is the number of such records, its `selected_count` the
   * selected ones among them (so never more), and its name is taken from the
   * first of them.
   */
  lemma {:induction false} StatsCount(usage: seq<UsageRecord>, id: string)
    ensures id in StatsOf(usage) <==> UsesOf(usage, id) > 0
    ensures SelectionsOf(usage, id) <= UsesOf(usage, id)
    ensures id in StatsOf(usage) ==>
      StatsOf(usage)[id].totalCount == UsesOf(usage, id) &&
      StatsOf(usage)[id].selectedCount == SelectionsOf(usage, id) &&
      StatsOf(usage)[id].name == FirstName(usage, id)
  {
    if usage != [] {
      var init := usage[..|usage| - 1];
      var r := usage[|usage| - 1];
      StatsCount(init, id);
      if r.funcId == id && id in StatsOf(init) {
        assert StatsOf(usage)[id] == Tally(StatsOf(init)[id], r);
      } else if r.funcId == id {
        assert StatsOf(usage)[id] == Tally(FuncStats(r.funcName, 0, 0, 0.0, 0.0), r);
      } else {
        assert StatsOf(usage) == StatsOf(init)[r.funcId := StatsOf(usage)[r.funcId]];
      }
    }
  }

  /** A function's entry in the summary, with the averages added. */
  datatype FuncSummary = FuncSummary(
    name: string, totalCount: nat, selectedCount: nat, totalRelevance: real, totalConfidence: real,
    avgRelevance: real, avgConfidence: real, selectedRate: real)

  /** The second loop: averages and the selection rate, `0.0` for a zero count. */
  function Finish(st: FuncStats): FuncSummary
  {
    var n := st.totalCount as real;
    FuncSummary(st.name, st.totalCount, st.selectedCount, st.totalRelevance, st.totalConfidence,
      if st.totalCount > 0 then st.totalRelevance / n else 0.0,
      if st.totalCount > 0 then st.totalConfidence / n else 0.0,
      if st.totalCount > 0 then st.selectedCount as real / n else 0.0)
  }

  /** Every summarised selection rate lies in [0, 1]. */
  lemma SelectedRateInRange(usage: seq<UsageRecord>, id: string)
    requires id in StatsOf(usage)
    ensures 0.0 <= Finish(StatsOf(usage)[id]).selectedRate <= 1.0
  {
    StatsCount(usage, id);
    var st := StatsOf(usage)[id];
    assert st.selectedCount <= st.totalCount;
    assert st.selectedCount as real <= st.totalCount as real;
  }

  // ------------------------------------------------------------ average actions

  function OutcomeCount(q: QualityRecord, key: string): real
  {
    GetOr(q.outcome, key, 0.0)
  }

  /** The sum of `outcome.get(key, 0)` over the decision records. */
  function OutcomeSum(qs: seq<QualityRecord>, key: string): real
  {
    if qs == [] then 0.0 else OutcomeSum(qs[..|qs| - 1], key) + OutcomeCount(qs[|qs| - 1], key)
  }

  datatype AvgActions = AvgActions(attack: real, move: real, ability: real)

  function AvgActionsOf(qs: seq<QualityRecord>): AvgActions
  {
    AvgActions(MeanOf(qs, "attack_count"), MeanOf(qs, "move_count"), MeanOf(qs, "ability_count"))
  }

  /** The average of `outcome.get(key, 0)` over the decision records, zero when there are none. */
  function MeanOf(qs: seq<QualityRecord>, key: string): real
  {
    if |qs| == 0 then 0.0 else OutcomeSum(qs, key) / (|qs| as real)
  }

  lemma {:induction false} OutcomeSumAppend(qs: seq<QualityRecord>, q: QualityRecord, key: string)
    ensures OutcomeSum(qs + [q], key) == OutcomeSum(qs, key) + OutcomeCount(q, key)
  {
    assert (qs + [q])[..|qs|] == qs;
  }

  /** The mean times the number of decisions is the total count. */
  lemma MeanTotal(qs: seq<QualityRecord>, key: string)
    ensures MeanOf(qs, key) * (|qs| as real) == OutcomeSum(qs, key)
  {
    if qs != [] {
      var n, sum := |qs| as real, OutcomeSum(qs, key);
      assert (sum / n) * n == sum;
    }
  }

  /** One more decision moves the mean to (n * old + new) / (n + 1). */
  lemma MeanStep(qs: seq<QualityRecord>, q: QualityRecord, key: string)
    ensures MeanOf(qs + [q], key) * (|qs| as real + 1.0) == MeanOf(qs, key) * (|qs| as real) + OutcomeCount(q, key)
  {
    MeanTotal(qs, key);
    MeanTotal(qs + [q], key);
    OutcomeSumAppend(qs, q, key);
  }

  /**
   * The averages are running means: with no decisions every average is zero,
   * and one more decision moves each average to (n * old + new) / (n + 1).
   */
  lemma AvgActionsRecord(qs: seq<QualityRecord>, q: QualityRecord)
    ensures AvgActionsOf([]) == AvgActions(0.0, 0.0, 0.0)
    ensures var n := |qs| as real; var a := AvgActionsOf(qs); var b := AvgActionsOf(qs + [q]);
      b.attack * (n + 1.0) == a.attack * n + OutcomeCount(q, "attack_count") &&
      b.move * (n + 1.0) == a.move * n + OutcomeCount(q, "move_count") &&
      b.ability * (n + 1.0) == a.ability * n + OutcomeCount(q, "ability_count")
  {
    MeanStep(qs, q, "attack_count");
    MeanStep(qs, q, "move_count");
    MeanStep(qs, q, "ability_count");
  }

  lemma {:induction false} OutcomeSumBounds(qs: seq<QualityRecord>, key: string, b: real)
    requires forall i :: 0 <= i < |qs| ==> 0.0 <= OutcomeCount(qs[i], key) <= b
    ensures 0.0 <= OutcomeSum(qs, key) <= b * (|qs| as real)
  {
    if qs != [] {
      OutcomeSumBounds(qs[..|qs| - 1], key, b);
    }
  }

  /** An average lies between zero and the largest per-decision count. */
  lemma AvgAttackBounded(qs: seq<QualityRecord>, b: real)
    requires forall i :: 0 <= i < |qs| ==> 0.0 <= OutcomeCount(qs[i], "attack_count") <= b
    ensures 0.0 <= AvgActionsOf(qs).attack
    ensures qs != [] ==> AvgActionsOf(qs).attack <= b
  {
    OutcomeSumBounds(qs, "attack_count", b);
    if qs != [] {
      QuotientBounds(OutcomeSum(qs, "attack_count"), b, |qs| as real);
    }
  }

  lemma QuotientBounds(sum: real, b: real, n: real)
    requires n > 0.0 && 0.0 <= sum <= b * n
    ensures 0.0 <= sum / n <= b
  {
    assert sum / n <= (b * n) / n;
  }

  // ------------------------------------------------------------ relevance trend

  /** `step_relevance`: the relevance values of each step, in record order. */
  function GroupsOf(rs: seq<RelevanceRecord>): map<int, seq<real>>
  {
    if rs == [] then map[]
    else
      var m := GroupsOf(rs[..|rs| - 1]);
      var r := rs[|rs| - 1];
      m[r.step := GetOr(m, r.step, []) + [r.relevance]]
  }

  /** The relevance values of the records at `step`, in record order. */
  function RelevancesAt(rs: seq<RelevanceRecord>, step: int): seq<real>
  {
    if rs == [] then []
    else
      RelevancesAt(rs[..|rs| - 1], step) +
      (if rs[|rs| - 1].step == step then [rs[|rs| - 1].relevance] else [])
  }

  /** Some record was made at `step`. */
  predicate HasStep(rs: seq<RelevanceRecord>, step: int)
  {
    exists k :: 0 <= k < |rs| && rs[k].step == step
  }

  /** Each group holds exactly the relevance values recorded at its step, and is never empty. */
  lemma {:induction false} GroupsExact(rs: seq<RelevanceRecord>, step: int)
    ensures step in GroupsOf(rs) <==> HasStep(rs, step)
    ensures step in GroupsOf(rs) ==> GroupsOf(rs)[step] == RelevancesAt(rs, step) != []
    ensures step !in GroupsOf(rs) ==> RelevancesAt(rs, step) == []
  {
    if rs != [] {
      var init := rs[..|rs| - 1];
      var r := rs[|rs| - 1];
      GroupsExact(init, step);
      if HasStep(init, step) {
        var k :| 0 <= k < |init| && init[k].step == step;
        assert rs[k].step == step;
      }
      if HasStep(rs, step) && r.step != step {
        var k :| 0 <= k < |rs| && rs[k].step == step;
        assert init[k].step == step;
      }
      if r.step == step {
        assert RelevancesAt(rs, step) == RelevancesAt(init, step) + [r.relevance];
        assert HasStep(rs, step);
      }
    }
  }

  /** The distinct steps in order of first appearance (the dictionary's key order). */
  function StepsOf(rs: seq<RelevanceRecord>): (r: seq<int>)
    ensures forall s :: s in r <==> s in GroupsOf(rs)
  {
    if rs == [] then []
    else
      var init := StepsOf(rs[..|rs| - 1]);
      var s := rs[|rs| - 1].step;
      if s in init then init else init + [s]
  }

  predicate Ascending(xs: seq<int>)
  {
    forall i, j :: 0 <= i < j < |xs| ==> xs[i] < xs[j]
  }

  /** Places `x` before the first larger element. */
  function InsertInt(sorted: seq<int>, x: int): (r: seq<int>)
    ensures |r| == |sorted| + 1
    ensures forall y :: y in r <==> y in sorted || y == x
  {
    if sorted == [] || x <= sorted[0] then [x] + sorted
    else [sorted[0]] + InsertInt(sorted[1..], x)
  }

  lemma {:induction false} InsertIntAscending(sorted: seq<int>, x: int)
    requires Ascending(sorted) && x !in sorted
    ensures Ascending(InsertInt(sorted, x))
  {
    var r := InsertInt(sorted, x);
    if sorted == [] {
    } else if x <= sorted[0] {
      forall i, j | 0 <= i < j < |r| ensures r[i] < r[j] {
        if i == 0 && j > 1 {
          assert sorted[0] < sorted[j - 1];
        }
      }
    } else {
      var rest := InsertInt(sorted[1..], x);
      InsertIntAscending(sorted[1..], x);
      forall j | 0 < j < |r| ensures r[0] < r[j] {
        assert r[j] == rest[j - 1];
        assert rest[j - 1] in rest;
        if rest[j - 1] != x {
          var k :| 0 <= k < |sorted[1..]| && sorted[1..][k] == rest[j - 1];
          assert sorted[0] < sorted[k + 1];
        }
      }
    }
  }

  /** `sorted(keys)` for a list of distinct integers. */
  function SortInts(xs: seq<int>): (r: seq<int>)
    ensures |r| == |xs|
    ensures forall y :: y in r <==> y in xs
  {
    if xs == [] then [] else InsertInt(SortInts(xs[..|xs| - 1]), xs[|xs| - 1])
  }

  predicate Distinct(xs: seq<int>)
  {
    forall i, j :: 0 <= i < j < |xs| ==> xs[i] != xs[j]
  }

  lemma {:induction false} SortIntsAscending(xs: seq<int>)
    requires Distinct(xs)
    ensures Ascending(SortInts(xs))
  {
    if xs != [] {
      var init := xs[..|xs| - 1];
      SortIntsAscending(init);
      assert xs[|xs| - 1] !in init;
      InsertIntAscending(SortInts(init), xs[|xs| - 1]);
    }
  }

  lemma {:induction false} StepsDistinct(rs: seq<RelevanceRecord>)
    ensures Distinct(StepsOf(rs))
  {
    if rs != [] {
      StepsDistinct(rs[..|rs| - 1]);
    }
  }

  function Mean(xs: seq<real>): real
  {
    if xs == [] then 0.0 else SumReals(xs) / (|xs| as real)
  }

  datatype TrendPoint = TrendPoint(step: int, avgRelevance: real)

  /** One point per step, in the order given, with the mean of that step's group. */
  function PointsOf(steps: seq<int>, groups: map<int, seq<real>>): seq<TrendPoint>
  {
    seq(|steps|, i requires 0 <= i < |steps| => TrendPoint(steps[i], Mean(GetOr(groups, steps[i], []))))
  }

  function TrendOf(rs: seq<RelevanceRecord>): seq<TrendPoint>
  {
    PointsOf(SortInts(StepsOf(rs)), GroupsOf(rs))
  }

  /** Extending the records by one grows the groups and the step list as the loop does. */
  lemma GroupsStep(rs: seq<RelevanceRecord>, i: nat)
    requires i < |rs|
    ensures var m := GroupsOf(rs[..i]);
      GroupsOf(rs[..i + 1]) == m[rs[i].step := GetOr(m, rs[i].step, []) + [rs[i].relevance]]
    ensures var st := StepsOf(rs[..i]);
      StepsOf(rs[..i + 1]) == if rs[i].step in st then st else st + [rs[i].step]
  {
    assert rs[..i + 1][..i] == rs[..i];
  }

  /** The trend's steps are strictly ascending, so each step has one point. */
  lemma TrendAscending(rs: seq<RelevanceRecord>)
    ensures var t := TrendOf(rs); forall i, j :: 0 <= i < j < |t| ==> t[i].step < t[j].step
  {
    StepsDistinct(rs);
    SortIntsAscending(StepsOf(rs));
  }

  /** Every recorded step has a point in the trend. */
  lemma TrendCoversSteps(rs: seq<RelevanceRecord>, k: nat)
    requires k < |rs|
    ensures var t := TrendOf(rs); exists i :: 0 <= i < |t| && t[i].step == rs[k].step
  {
    var t := TrendOf(rs);
    var steps := SortInts(StepsOf(rs));
    GroupsExact(rs, rs[k].step);
    assert rs[k].step in steps;
    var i :| 0 <= i < |steps| && steps[i] == rs[k].step;
    assert t[i].step == rs[k].step;
  }

  /** Each point is the mean relevance of exactly the records at its step, and there are some. */
  lemma TrendMeans(rs: seq<RelevanceRecord>, i: nat)
    requires i < |TrendOf(rs)|
    ensures var p := TrendOf(rs)[i];
      HasStep(rs, p.step) && RelevancesAt(rs, p.step) != [] &&
      p.avgRelevance == Mean(RelevancesAt(rs, p.step))
  {
    var steps := SortInts(StepsOf(rs));
    assert steps[i] in steps;
    GroupsExact(rs, steps[i]);
  }

  // ------------------------------------------------------------ the summary

  datatype Summary = Summary(
    functionStats: map<string, FuncSummary>,
    totalDecisions: nat,
    avgActions: AvgActions,
    relevanceTrend: seq<TrendPoint>,
    usageHistory: seq<UsageRecord>,
    qualityHistory: seq<QualityRecord>,
    relevanceHistory: seq<RelevanceRecord>,
    decisionImpactHistory: seq<ImpactRecord>)

  function SummaryOf(usage: seq<UsageRecord>, quality: seq<QualityRecord>,
                     relevance: seq<RelevanceRecord>, impact: seq<ImpactRecord>): Summary
  {
    var stats := StatsOf(usage);
    Summary(map id | id in stats :: Finish(stats[id]), |quality|, AvgActionsOf(quality),
            TrendOf(relevance), usage, quality, relevance, impact)
  }

  // ------------------------------------------------------------ the class

  class PrefabPerformanceMonitor {
    var functionUsageHistory: seq<UsageRecord>
    var decisionQualityData: seq<QualityRecord>
    var prefabRelevanceHistory: seq<RelevanceRecord>
    var decisionImpactHistory: seq<ImpactRecord>

    constructor()
      ensures functionUsageHistory == [] && decisionQualityData == []
      ensures prefabRelevanceHistory == [] && decisionImpactHistory == []
    {
      functionUsageHistory, decisionQualityData := [], [];
      prefabRelevanceHistory, decisionImpactHistory := [], [];
    }

    /** `record_function_usage`: appends one usage record and changes nothing else. */
    method RecordFunctionUsage(funcId: string, funcName: string, step: int, selected: bool,
                               confidence: real, relevance: real)
      modifies this
      ensures functionUsageHistory ==
        old(functionUsageHistory) + [UsageRecord(funcId, funcName, step, selected, confidence, relevance)]
      ensures decisionQualityData == old(decisionQualityData)
      ensures prefabRelevanceHistory == old(prefabRelevanceHistory)
      ensures decisionImpactHistory == old(decisionImpactHistory)
    {
      functionUsageHistory := functionUsageHistory +
        [UsageRecord(funcId, funcName, step, selected, confidence, relevance)];
    }

    /** `record_decision_quality`: appends one quality record and changes nothing else. */
    method RecordDecisionQuality(step: int, decisionType: string, functionsUsed: seq<string>,
                                 outcome: map<string, real>, gameState: Option<StateSample>)
      modifies this
      ensures decisionQualityData ==
        old(decisionQualityData) + [QualityRecord(step, decisionType, functionsUsed, outcome, gameState)]
      ensures functionUsageHistory == old(functionUsageHistory)
      ensures prefabRelevanceHistory == old(prefabRelevanceHistory)
      ensures decisionImpactHistory == old(decisionImpactHistory)
    {
      decisionQualityData := decisionQualityData +
        [QualityRecord(step, decisionType, functionsUsed, outcome, gameState)];
    }

    /** `record_prefab_relevance`: appends one relevance record and changes nothing else. */
    method RecordPrefabRelevance(funcId: string, funcName: string, step: int, relevance: real,
                                 gameState: GameState)
      modifies this
      ensures prefabRelevanceHistory ==
        old(prefabRelevanceHistory) + [RelevanceRecord(funcId, funcName, step, relevance, gameState)]
      ensures functionUsageHistory == old(functionUsageHistory)
      ensures decisionQualityData == old(decisionQualityData)
      ensures decisionImpactHistory == old(decisionImpactHistory)
    {
      prefabRelevanceHistory := prefabRelevanceHistory +
        [RelevanceRecord(funcId, funcName, step, relevance, gameState)];
    }

    /** `record_decision_impact`: appends one impact record, with its deltas, and changes nothing else. */
    method RecordDecisionImpact(step: int, pre: StateSample, post: StateSample, actions: ActionCounts)
      modifies this
      ensures decisionImpactHistory ==
        old(decisionImpactHistory) + [ImpactRecord(step, pre, post, actions, ChangeOf(pre, post, actions))]
      ensures functionUsageHistory == old(functionUsageHistory)
      ensures decisionQualityData == old(decisionQualityData)
      ensures prefabRelevanceHistory == old(prefabRelevanceHistory)
    {
      var change := ChangeOf(pre, post, actions);
      decisionImpactHistory := decisionImpactHistory + [ImpactRecord(step, pre, post, actions, change)];
    }

    /** `get_performance_summary`. */
    method GetPerformanceSummary() returns (s: Summary)
      ensures s == SummaryOf(functionUsageHistory, decisionQualityData,
                             prefabRelevanceHistory, decisionImpactHistory)
    {
      var usage := functionUsageHistory;
      var stats: map<string, FuncStats> := map[];
      var i := 0;
      while i < |usage|
        invariant 0 <= i <= |usage|
        invariant stats == StatsOf(usage[..i])
      {
        assert usage[..i + 1][..i] == usage[..i];
        var r := usage[i];
        if r.funcId !in stats {
          stats := stats[r.funcId := FuncStats(r.funcName, 0, 0, 0.0, 0.0)];
        }
        stats := stats[r.funcId := Tally(stats[r.funcId], r)];
        i := i + 1;
      }
      assert usage[..i] == usage;
      var functionStats := map id | id in stats :: Finish(stats[id]);

      var quality := decisionQualityData;
      var avg := AvgActions(0.0, 0.0, 0.0);
      if |quality| > 0 {
        var attack, move, ability := 0.0, 0.0, 0.0;
        var k := 0;
        while k < |quality|
          invariant 0 <= k <= |quality|
          invariant attack == OutcomeSum(quality[..k], "attack_count")
          invariant move == OutcomeSum(quality[..k], "move_count")
          invariant ability == OutcomeSum(quality[..k], "ability_count")
        {
          assert quality[..k + 1][..k] == quality[..k];
          attack := attack + OutcomeCount(quality[k], "attack_count");
          move := move + OutcomeCount(quality[k], "move_count");
          ability := ability + OutcomeCount(quality[k], "ability_count");
          k := k + 1;
        }
        assert quality[..k] == quality;
        var n := |quality| as real;
        avg := AvgActions(attack / n, move / n, ability / n);
      }

      var trend := RelevanceTrend(prefabRelevanceHistory);
      s := Summary(functionStats, |quality|, avg, trend, usage, quality,
                   prefabRelevanceHistory, decisionImpactHistory);
    }

    /** The grouping of relevance values by step, and one mean per step in ascending order. */
    static method RelevanceTrend(rs: seq<RelevanceRecord>) returns (trend: seq<TrendPoint>)
      ensures trend == TrendOf(rs)
    {
      var groups: map<int, seq<real>> := map[];
      var steps: seq<int> := [];
      var i := 0;
      while i < |rs|
        invariant 0 <= i <= |rs|
        invariant groups == GroupsOf(rs[..i]) && steps == StepsOf(rs[..i])
      {
        GroupsStep(rs, i);
        var r := rs[i];
        if r.step !in groups {
          groups := groups[r.step := []];
          steps := steps + [r.step];
        }
        groups := groups[r.step := groups[r.step] + [r.relevance]];
        i := i + 1;
      }
      assert rs[..i] == rs;
      var sorted := SortInts(steps);
      trend := TrendPoints(sorted, groups);
    }
  }

  /** The points loop of `get_performance_summary`: one mean per step, in the given order. */
  method TrendPoints(sorted: seq<int>, groups: map<int, seq<real>>) returns (trend: seq<TrendPoint>)
    ensures trend == PointsOf(sorted, groups)
  {
    trend := [];
    var j := 0;
    while j < |sorted|
      invariant 0 <= j <= |sorted|
      invariant trend == PointsOf(sorted[..j], groups)
    {
      assert sorted[..j + 1] == sorted[..j] + [sorted[j]];
      trend := trend + [TrendPoint(sorted[j], Mean(GetOr(groups, sorted[j], [])))];
      j := j + 1;
    }
    assert sorted[..j] == sorted;
  }
}
