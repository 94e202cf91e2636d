/** What whole runs of the metrics builder keep: the tree shown by each flush, the money counted,
  * and the outputs after a save and a restore.
  */
module MetricsRuns {
  import opened MapSums
  import opened Metrics

  // ---------- One flush ----------

  /** The bookkeeping a flush adds never touches a non-cumulative key outside the throughput section. */
  lemma FlushKeepsKey(s: State, scope: string, k: Key)
    requires |k| >= 2 && !IsCumulative(k) && k[0] != "throughput"
    ensures var base, r := FlushBase(PendingOf(s, scope).buffer), FlushStep(s, scope).1;
            (k in r <==> k in base) && (k in base ==> r[k] == base[k])
  {
    var p := PendingOf(s, scope);
    var base := FlushBase(p.buffer);
    var cum := Accumulated(s.cum, base);
    var unique := s.unique + p.scenarioIds;
    CumKeysAreCumulative(base);
    ThroughputKeepsKey(cum, Counted(WithCum(base, CumKeys(base), cum), unique, p.scenarioIds), k);
  }

  lemma CumKeysAreCumulative(base: Metrics)
    ensures forall c :: c in CumKeys(base) ==> IsCumulative(c)
  {
  }

  lemma ThroughputKeepsKey(cum: Metrics, result: Metrics, k: Key)
    requires |k| >= 2 && !IsCumulative(k) && k[0] != "throughput"
    ensures var r := Throughput(cum, result).1;
            (k in r <==> k in result) && (k in result ==> r[k] == result[k])
  {
  }

  /** Every flush shows a consistent cost tree: leaves as logged, each rollup the sum of what is shown
    * at its immediate children, and `costs/all` the sum of all leaves. Without costs it shows none.
    */
  lemma FlushShowsTheTree(s: State, scope: string)
    requires Hierarchy(s)
    ensures var costs, r := CostsOf(PendingOf(s, scope).buffer), FlushStep(s, scope).1;
            && (forall k :: k in costs && k != ALL ==> k in r && r[k] == costs[k])
            && (costs.Keys != {} ==> ALL in r && r[ALL] == Sum(costs))
            && (costs.Keys == {} ==> forall k :: k in r && |k| >= 2 && !IsCumulative(k) ==> !IsCost(k))
            && (forall p :: p in Parents(costs.Keys) && p != ALL ==>
                  p in r && r[p] == Sum(map c | c in Children(costs, p) :: Get(r, p + [c])))
  {
    var buffer := PendingOf(s, scope).buffer;
    var costs, base, r := CostsOf(buffer), FlushBase(buffer), FlushStep(s, scope).1;
    BaseIsAccumulable(buffer);
    forall k | k in costs && k != ALL
      ensures k in r && r[k] == costs[k]
    {
      FlushKeepsKey(s, scope, k);
    }
    FlushKeepsKey(s, scope, ALL);
    forall k | k in r && |k| >= 2 && !IsCumulative(k) && IsCost(k)
      ensures costs.Keys != {}
    {
      FlushKeepsKey(s, scope, k);
      assert k in buffer ==> k in costs;
    }
    forall p | p in Parents(costs.Keys) && p != ALL
      ensures p in r && r[p] == Sum(map c | c in Children(costs, p) :: Get(r, p + [c]))
    {
      ShownRollup(s, scope, p);
    }
  }

  lemma ShownRollup(s: State, scope: string, p: Key)
    requires Hierarchy(s)
    requires p in Parents(CostsOf(PendingOf(s, scope).buffer).Keys) && p != ALL
    ensures var costs, r := CostsOf(PendingOf(s, scope).buffer), FlushStep(s, scope).1;
            p in r && r[p] == Sum(map c | c in Children(costs, p) :: Get(r, p + [c]))
  {
    hide FlushStep, Sum;
    var buffer := PendingOf(s, scope).buffer;
    var costs, r := CostsOf(buffer), FlushStep(s, scope).1;
    BaseIsAccumulable(buffer);
    ParentsAreTheInnerNodes(costs, p);
    FlushKeepsKey(s, scope, p);
    forall c | c in Children(costs, p)
      ensures Get(r, p + [c]) == ValueAt(costs, p + [c])
    {
      ShownChild(s, scope, p, c);
    }
    RollupIsSumOfChildren(costs, p);
    assert ChildValues(costs, p) == map c | c in Children(costs, p) :: Get(r, p + [c]);
  }

  /** A flush starts from the value the tree shows at each of its nodes. */
  lemma BaseShows(buffer: Metrics, q: Key)
    requires WellKeyed(buffer) && q != ALL
    requires q in CostsOf(buffer) || q in Parents(CostsOf(buffer).Keys)
    ensures q in FlushBase(buffer) && FlushBase(buffer)[q] == ValueAt(CostsOf(buffer), q)
  {
    hide Sum;
    BaseIsAccumulable(buffer);
    ParentsAreTheInnerNodes(CostsOf(buffer), q);
  }

  lemma NextComponent(p: Key, k: Key)
    requires Above(p, k)
    ensures |k| == |p| + 1 ==> k == p + [k[|p|]]
    ensures |k| > |p| + 1 ==> Above(p + [k[|p|]], k)
  {
    AboveMeansPrefix(p, k);
    AboveMeansPrefix(p + [k[|p|]], k);
    assert k[..|p| + 1] == p + [k[|p|]];
    assert |k| == |p| + 1 ==> k == k[..|p| + 1];
  }

  lemma ChildIsNode(costs: Metrics, p: Key, c: string)
    requires CostBuffer(costs) && p in Parents(costs.Keys) && c in Children(costs, p)
    ensures p + [c] in costs || p + [c] in Parents(costs.Keys)
    ensures p + [c] != ALL && IsCost(p + [c]) && !IsCumulative(p + [c])
  {
    hide Parents, WellKeyed;
    ParentsAreTheInnerNodes(costs, p);
    ParentsAreTheInnerNodes(costs, p + [c]);
    var k :| k in Below(costs, p) && c == ComponentAt(k, |p|);
    NextComponent(p, k);
  }

  lemma ShownChild(s: State, scope: string, p: Key, c: string)
    requires Hierarchy(s)
    requires p in Parents(CostsOf(PendingOf(s, scope).buffer).Keys)
    requires c in Children(CostsOf(PendingOf(s, scope).buffer), p)
    ensures Get(FlushStep(s, scope).1, p + [c]) == ValueAt(CostsOf(PendingOf(s, scope).buffer), p + [c])
  {
    hide FlushStep, FlushBase, ValueAt, Parents, Children;
    var buffer := PendingOf(s, scope).buffer;
    assert WellKeyed(buffer);
    BaseIsAccumulable(buffer);
    ChildIsNode(CostsOf(buffer), p, c);
    BaseShows(buffer, p + [c]);
    FlushKeepsKey(s, scope, p + [c]);
  }

  // ---------- The money ----------

  /** The buffered costs, or only those whose path starts with `step_all`. */
  ghost function Selected(m: Metrics, stepAll: bool): Metrics {
    map k | k in m && IsCost(k) && (stepAll ==> |k| >= 2 && k[1] == "step_all") :: m[k]
  }

  ghost function BufferedByScope(s: State, stepAll: bool): map<string, real> {
    map scope | scope in s.pending :: Sum(Selected(s.pending[scope].buffer, stepAll))
  }

  /** The costs that wait in any scope for the next flush. */
  ghost function Buffered(s: State, stepAll: bool): real {
    Sum(BufferedByScope(s, stepAll))
  }

  ghost function AcceptedBy(s: State, op: Op, stepAll: bool): real {
    if op.Add? && Step(s, op).1 == Done && IsCost(op.key) && (stepAll ==> |op.key| >= 2 && op.key[1] == "step_all")
    then op.value
    else 0.0
  }

  ghost function Run(s: State, ops: seq<Op>): State
    decreases |ops|
  {
    if ops == [] then s else Run(Step(s, ops[0]).0, ops[1..])
  }

  ghost function Outputs(s: State, ops: seq<Op>): seq<Output>
    decreases |ops|
  {
    if ops == [] then [] else [Step(s, ops[0]).1] + Outputs(Step(s, ops[0]).0, ops[1..])
  }

  /** All cost values a run accepted, whoever added them. */
  ghost function Accepted(s: State, ops: seq<Op>, stepAll: bool): real
    decreases |ops|
  {
    if ops == [] then 0.0 else AcceptedBy(s, ops[0], stepAll) + Accepted(Step(s, ops[0]).0, ops[1..], stepAll)
  }

  lemma SelectedEmpty(stepAll: bool)
    ensures Sum(Selected(map[], stepAll)) == 0.0
  {
    SumEmpty(Selected(map[], stepAll));
  }

  /** Replacing one scope's pending entry changes the buffered total by that scope alone. */
  lemma BufferedUpdate(s: State, scope: string, p: Pending, stepAll: bool)
    ensures Buffered(s.(pending := s.pending[scope := p]), stepAll)
            == Buffered(s, stepAll)
               - Sum(Selected(PendingOf(s, scope).buffer, stepAll)) + Sum(Selected(p.buffer, stepAll))
  {
    hide Sum;
    var m := BufferedByScope(s, stepAll);
    var value := Sum(Selected(p.buffer, stepAll));
    assert BufferedByScope(s.(pending := s.pending[scope := p]), stepAll) == m[scope := value];
    SumUpdate(m, scope, value);
    SelectedEmpty(stepAll);
  }

  lemma SelectedUpdate(buffer: Metrics, key: Key, value: real, stepAll: bool)
    ensures Sum(Selected(buffer[key := Get(buffer, key) + value], stepAll))
            == Sum(Selected(buffer, stepAll))
               + (if IsCost(key) && (stepAll ==> |key| >= 2 && key[1] == "step_all") then value else 0.0)
  {
    hide Sum;
    var next := Get(buffer, key) + value;
    var before, after := Selected(buffer, stepAll), Selected(buffer[key := next], stepAll);
    if IsCost(key) && (stepAll ==> |key| >= 2 && key[1] == "step_all") {
      assert after == before[key := next];
      SumUpdate(before, key, next);
    } else {
      assert after == before;
    }
  }

  lemma AddMovesMoney(s: State, op: Op, stepAll: bool)
    requires op.Add?
    ensures Step(s, op).0.cum == s.cum
    ensures Buffered(Step(s, op).0, stepAll) == Buffered(s, stepAll) + AcceptedBy(s, op, stepAll)
  {
    hide Sum, Buffered, Selected, Refuses;
    var Add(scope, key, value) := op;
    var p := PendingOf(s, scope);
    if |key| >= 2 && !IsCumulative(key) {
      if Refuses(p.buffer, key) {
        BufferedUpdate(s, scope, p, stepAll);
      } else {
        BufferedUpdate(s, scope, p.(buffer := p.buffer[key := Get(p.buffer, key) + value]), stepAll);
        SelectedUpdate(p.buffer, key, value, stepAll);
      }
    }
  }

  lemma AccumulatedAt(cum: Metrics, base: Metrics, c: Key)
    ensures Get(Accumulated(cum, base), c) == Get(cum, c) + Sum(Feeding(base, c))
  {
    hide Sum, Feeding, CumKeys;
    if c !in CumKeys(base) {
      FeedingNothing(base, c);
    }
  }

  lemma BaseAtAll(buffer: Metrics)
    requires WellKeyed(buffer)
    ensures Get(FlushBase(buffer), ALL) == Sum(CostsOf(buffer))
  {
    var costs := CostsOf(buffer);
    if costs.Keys == {} {
      SumEmpty(costs);
      assert ALL in buffer ==> ALL in costs;
    }
  }

  lemma UnderStepAll(costs: Metrics)
    requires CostBuffer(costs)
    ensures forall k :: k in costs ==> (k[1] == "step_all" <==> k == STEP_ALL || Above(STEP_ALL, k))
  {
    forall k | k in costs
      ensures k[1] == "step_all" <==> k == STEP_ALL || Above(STEP_ALL, k)
    {
      AboveMeansPrefix(STEP_ALL, k);
      if k[1] == "step_all" {
        assert k[..2] == STEP_ALL;
        assert |k| == 2 ==> k == k[..2];
      }
    }
  }

  lemma BaseAtStepAll(buffer: Metrics)
    requires WellKeyed(buffer)
    ensures Get(FlushBase(buffer), STEP_ALL) == Sum(Selected(buffer, true))
  {
    hide Sum, Parents, WellKeyed;
    var costs, stepAll := CostsOf(buffer), Selected(buffer, true);
    BaseIsAccumulable(buffer);
    ParentsAreTheInnerNodes(costs, STEP_ALL);
    UnderStepAll(costs);
    assert STEP_ALL in buffer ==> STEP_ALL in costs;
    if STEP_ALL in costs {
      SumSingleton(stepAll, STEP_ALL);
    } else {
      assert stepAll == Below(costs, STEP_ALL);
      if stepAll.Keys == {} {
        SumEmpty(stepAll);
        forall k | k in costs
          ensures !Above(STEP_ALL, k)
        {
          assert k in Below(costs, STEP_ALL) <==> Above(STEP_ALL, k);
        }
      } else {
        var k :| k in stepAll.Keys;
        assert k in costs && Above(STEP_ALL, k);
      }
    }
  }

  /** What one flush adds to `costs/cum/all`: all its costs once, and those under `step_all` once more. */
  lemma FeedOfAll(buffer: Metrics)
    requires WellKeyed(buffer)
    ensures Sum(Feeding(FlushBase(buffer), CUM_ALL)) == Sum(Selected(buffer, false)) + Sum(Selected(buffer, true))
  {
    hide Sum, FlushBase;
    var base := FlushBase(buffer);
    BaseIsAccumulable(buffer);
    forall k | k in base
      ensures Feeds(k, CUM_ALL) <==> k == ALL || k == STEP_ALL
    {
      FeedsAll(k);
    }
    assert Selected(buffer, false) == CostsOf(buffer);
    BaseAtAll(buffer);
    BaseAtStepAll(buffer);
    SumOfTwo(Feeding(base, CUM_ALL), ALL, STEP_ALL);
  }

  lemma FlushEmptiesMoney(s: State, scope: string, stepAll: bool)
    ensures Buffered(FlushStep(s, scope).0, stepAll)
            == Buffered(s, stepAll) - Sum(Selected(PendingOf(s, scope).buffer, stepAll))
  {
    hide Sum, FlushStep;
    FlushEmptiesScope(s, scope);
    BufferedUpdate(s, scope, NOTHING_PENDING, stepAll);
    SelectedEmpty(stepAll);
    assert BufferedByScope(FlushStep(s, scope).0, stepAll)
        == BufferedByScope(s.(pending := s.pending[scope := NOTHING_PENDING]), stepAll);
  }

  lemma FlushFeedsTotal(s: State, scope: string)
    ensures Get(FlushStep(s, scope).0.cum, CUM_ALL)
            == Get(Accumulated(s.cum, FlushBase(PendingOf(s, scope).buffer)), CUM_ALL)
  {
  }

  lemma FlushMovesMoney(s: State, scope: string)
    requires Hierarchy(s)
    ensures var s', buffer := FlushStep(s, scope).0, PendingOf(s, scope).buffer;
            var all, stepAll := Sum(Selected(buffer, false)), Sum(Selected(buffer, true));
            && Get(s'.cum, CUM_ALL) == Get(s.cum, CUM_ALL) + all + stepAll
            && Buffered(s', false) == Buffered(s, false) - all
            && Buffered(s', true) == Buffered(s, true) - stepAll
  {
    hide Sum, Accumulated, Feeding, FlushStep, Buffered, Selected, FlushBase;
    var buffer := PendingOf(s, scope).buffer;
    assert WellKeyed(buffer);
    FeedOfAll(buffer);
    AccumulatedAt(s.cum, FlushBase(buffer), CUM_ALL);
    FlushFeedsTotal(s, scope);
    FlushEmptiesMoney(s, scope, false);
    FlushEmptiesMoney(s, scope, true);
  }

  /** The ledger: total counted, plus waiting, plus waiting under `step_all`. */
  ghost function Ledger(s: State): real {
    Get(s.cum, CUM_ALL) + Buffered(s, false) + Buffered(s, true)
  }

  lemma StepKeepsLedger(s: State, op: Op)
    requires Hierarchy(s) && !op.Load?
    ensures Ledger(Step(s, op).0) == Ledger(s) + AcceptedBy(s, op, false) + AcceptedBy(s, op, true)
  {
    hide Buffered, FlushStep;
    match op
    case Add(scope, key, value) =>
      AddMovesMoney(s, op, false);
      AddMovesMoney(s, op, true);
    case AddScenarios(scope, ids) =>
      var p := PendingOf(s, scope);
      BufferedUpdate(s, scope, p.(scenarioIds := p.scenarioIds + ids), false);
      BufferedUpdate(s, scope, p.(scenarioIds := p.scenarioIds + ids), true);
    case Flush(scope) =>
      FlushMovesMoney(s, scope);
    case Load(_, _) =>
  }

  ghost predicate NoLoads(ops: seq<Op>) {
    forall i :: 0 <= i < |ops| ==> !ops[i].Load?
  }

  lemma {:induction false} RunKeepsLedger(s: State, ops: seq<Op>)
    requires Hierarchy(s) && NoLoads(ops)
    ensures Hierarchy(Run(s, ops))
    ensures Ledger(Run(s, ops)) == Ledger(s) + Accepted(s, ops, false) + Accepted(s, ops, true)
    decreases |ops|
  {
    hide Ledger, AcceptedBy, Step, Hierarchy;
    if ops == [] {
    } else {
      StepKeepsHierarchy(s, ops[0]);
      StepKeepsLedger(s, ops[0]);
      RunKeepsLedger(Step(s, ops[0]).0, ops[1..]);
    }
  }

  const FRESH := State(map[], map[], {})

  /** Cost conservation over whole runs, exactly: what is counted plus what waits is what was accepted,
    * plus once more whatever was flushed under `step_all`, whose rollup shares the total's cumulative key.
    */
  lemma CostLaw(ops: seq<Op>)
    requires NoLoads(ops)
    ensures var s := Run(FRESH, ops);
            var excess := Accepted(FRESH, ops, true) - Buffered(s, true);
            && Get(s.cum, CUM_ALL) + Buffered(s, false) == Accepted(FRESH, ops, false) + excess
            && (Get(s.cum, CUM_ALL) + Buffered(s, false) == Accepted(FRESH, ops, false) <==> excess == 0.0)
  {
    SumEmpty(BufferedByScope(FRESH, false));
    SumEmpty(BufferedByScope(FRESH, true));
    RunKeepsLedger(FRESH, ops);
  }

  /** One cost under `step_all`, flushed, is counted twice. */
  lemma StepAllCountsTwice(scope: string, v: real)
    ensures var ops := [Add(scope, STEP_ALL, v), Flush(scope)];
            var s := Run(FRESH, ops);
            && Accepted(FRESH, ops, false) == v
            && Get(s.cum, CUM_ALL) + Buffered(s, false) == 2.0 * v
  {
    hide FlushStep, Buffered;
    var add, flush := Add(scope, STEP_ALL, v), Op.Flush(scope);
    var s1 := Step(FRESH, add).0;
    var s2 := Step(s1, flush).0;
    var ops := [add, flush];
    FirstAddIsAccepted(scope, v);
    assert ops[1..] == [flush] && [flush][1..] == [];
    assert Run(s1, [flush]) == Run(s2, []) && Accepted(s1, [flush], false) == 0.0 + Accepted(s2, [], false);
    assert Accepted(s1, [flush], true) == 0.0 + Accepted(s2, [], true);
    CostLaw(ops);
    FlushEmptiesScope(s1, scope);
    NothingBufferedUnderStepAll(s2, scope);
  }

  lemma FirstAddIsAccepted(scope: string, v: real)
    ensures Step(FRESH, Add(scope, STEP_ALL, v)) ==
            (FRESH.(pending := map[scope := Pending(map[STEP_ALL := v], {})]), Done)
  {
    assert !Refuses(map[], STEP_ALL);
    assert map[][STEP_ALL := 0.0 + v] == map[STEP_ALL := v];
  }

  lemma NothingBufferedUnderStepAll(s: State, scope: string)
    requires s.pending == map[scope := NOTHING_PENDING]
    ensures Buffered(s, true) == 0.0
  {
    SelectedEmpty(true);
    NoneBuffered(s);
  }

  ghost predicate AvoidsStepAll(ops: seq<Op>) {
    forall i :: 0 <= i < |ops| && ops[i].Add? && IsCost(ops[i].key) ==> |ops[i].key| < 2 || ops[i].key[1] != "step_all"
  }

  ghost predicate NoneUnderStepAll(s: State) {
    forall scope :: scope in s.pending ==> Selected(s.pending[scope].buffer, true).Keys == {}
  }

  lemma StepAddsNoneUnderStepAll(s: State, op: Op)
    requires NoneUnderStepAll(s) && !op.Load?
    requires op.Add? && IsCost(op.key) ==> |op.key| < 2 || op.key[1] != "step_all"
    ensures NoneUnderStepAll(Step(s, op).0) && AcceptedBy(s, op, true) == 0.0
  {
    hide FlushStep, Refuses;
    if op.Flush? {
      FlushEmptiesScope(s, op.scope);
    }
  }

  lemma {:induction false} RunAddsNoneUnderStepAll(s: State, ops: seq<Op>)
    requires NoneUnderStepAll(s) && NoLoads(ops) && AvoidsStepAll(ops)
    ensures NoneUnderStepAll(Run(s, ops)) && Accepted(s, ops, true) == 0.0
    decreases |ops|
  {
    hide Step, AcceptedBy, NoneUnderStepAll;
    if ops == [] {
    } else {
      StepAddsNoneUnderStepAll(s, ops[0]);
      RunAddsNoneUnderStepAll(Step(s, ops[0]).0, ops[1..]);
    }
  }

  /** Callers that log no cost path starting with `step_all` lose and gain nothing. */
  lemma CostsAreConserved(ops: seq<Op>)
    requires NoLoads(ops) && AvoidsStepAll(ops)
    ensures var s := Run(FRESH, ops);
            Get(s.cum, CUM_ALL) + Buffered(s, false) == Accepted(FRESH, ops, false)
  {
    CostLaw(ops);
    RunAddsNoneUnderStepAll(FRESH, ops);
    NoneBuffered(Run(FRESH, ops));
  }

  lemma NoneBuffered(s: State)
    requires NoneUnderStepAll(s)
    ensures Buffered(s, true) == 0.0
  {
    var m := BufferedByScope(s, true);
    forall scope | scope in m
      ensures m[scope] == 0.0
    {
      SumEmpty(Selected(s.pending[scope].buffer, true));
    }
    SumOfZeros(m);
  }

  lemma {:induction false} SumOfZeros(m: map<string, real>)
    requires forall k :: k in m ==> m[k] == 0.0
    ensures Sum(m) == 0.0
    decreases |m|
  {
    if m.Keys == {} {
    } else {
      var k :| k in m.Keys && Sum(m) == m[k] + Sum(m - {k});
      SumOfZeros(m - {k});
    }
  }

  // ---------- Save and restore ----------

  /** Two states that no caller can tell apart: a missing scope is an empty one. */
  ghost predicate Equivalent(s: State, t: State) {
    s.cum == t.cum && s.unique == t.unique && forall scope :: PendingOf(s, scope) == PendingOf(t, scope)
  }

  lemma StepsAgree(s: State, t: State, op: Op)
    requires Equivalent(s, t)
    ensures Step(s, op).1 == Step(t, op).1 && Equivalent(Step(s, op).0, Step(t, op).0)
  {
    hide FlushStep, Refuses;
    match op
    case Add(scope, key, value) =>
      var p := PendingOf(s, scope);
      PendingsAgree(s, t, scope, p);
      PendingsAgree(s, t, scope, p.(buffer := p.buffer[key := Get(p.buffer, key) + value]));
    case AddScenarios(scope, ids) =>
      var p := PendingOf(s, scope);
      PendingsAgree(s, t, scope, p.(scenarioIds := p.scenarioIds + ids));
    case Flush(scope) =>
      FlushEmptiesScope(s, scope);
      FlushEmptiesScope(t, scope);
      FlushesAgree(s, t, scope);
      PendingsAgree(s, t, scope, NOTHING_PENDING);
      forall x
        ensures PendingOf(FlushStep(s, scope).0, x) == PendingOf(FlushStep(t, scope).0, x)
      {
        assert PendingOf(s.(pending := s.pending[scope := NOTHING_PENDING]), x)
            == PendingOf(t.(pending := t.pending[scope := NOTHING_PENDING]), x);
      }
    case Load(_, _) =>
  }

  lemma PendingsAgree(s: State, t: State, scope: string, p: Pending)
    requires Equivalent(s, t)
    ensures Equivalent(s.(pending := s.pending[scope := p]), t.(pending := t.pending[scope := p]))
  {
    var s', t' := s.(pending := s.pending[scope := p]), t.(pending := t.pending[scope := p]);
    forall x
      ensures PendingOf(s', x) == PendingOf(t', x)
    {
      assert PendingOf(s, x) == PendingOf(t, x);
    }
  }

  lemma FlushesAgree(s: State, t: State, scope: string)
    requires s.cum == t.cum && s.unique == t.unique && PendingOf(s, scope) == PendingOf(t, scope)
    ensures FlushStep(s, scope).1 == FlushStep(t, scope).1
    ensures FlushStep(s, scope).0.cum == FlushStep(t, scope).0.cum
    ensures FlushStep(s, scope).0.unique == FlushStep(t, scope).0.unique
  {
    hide FlushBase, Accumulated, Throughput, WithCum, Counted;
  }

  lemma {:induction false} RunsAgree(s: State, t: State, ops: seq<Op>)
    requires Equivalent(s, t)
    ensures Outputs(s, ops) == Outputs(t, ops)
    decreases |ops|
  {
    hide Step, Equivalent;
    if ops == [] {
    } else {
      StepsAgree(s, t, ops[0]);
      RunsAgree(Step(s, ops[0]).0, Step(t, ops[0]).0, ops[1..]);
    }
  }

  ghost predicate NothingWaits(s: State) {
    forall scope :: PendingOf(s, scope) == NOTHING_PENDING
  }

  /** Saving, loading into a fresh builder and going on gives the same outputs as never stopping,
    * for every continuation, exactly when no scope had anything buffered at the save.
    */
  lemma RestoreIsInvisible(s: State)
    ensures var restored := Step(FRESH, Load(s.cum, s.unique)).0;
            NothingWaits(s) <==> forall ops :: Outputs(s, ops) == Outputs(restored, ops)
  {
    hide FlushStep;
    var restored := Step(FRESH, Load(s.cum, s.unique)).0;
    if NothingWaits(s) {
      forall ops
        ensures Outputs(s, ops) == Outputs(restored, ops)
      {
        RunsAgree(s, restored, ops);
      }
    } else {
      var scope :| PendingOf(s, scope) != NOTHING_PENDING;
      var ops := [Flush(scope)];
      WaitingShows(s, scope);
      EmptyFlushShowsNothing(restored, scope);
      assert Outputs(s, ops)[0] == Flushed(FlushStep(s, scope).1);
      assert Outputs(restored, ops)[0] == Flushed(FlushStep(restored, scope).1);
    }
  }

  lemma ThroughputGrows(cum: Metrics, result: Metrics)
    ensures result.Keys <= Throughput(cum, result).1.Keys
    ensures result == map[] ==> Throughput(cum, result).1 == map[]
  {
  }

  /** A flush of something shows something: its own keys, or the scenario count. */
  lemma WaitingShows(s: State, scope: string)
    requires PendingOf(s, scope) != NOTHING_PENDING
    ensures FlushStep(s, scope).1 != map[]
  {
    hide Throughput, Accumulated, CumKeys, Rollups;
    var p := PendingOf(s, scope);
    var base := FlushBase(p.buffer);
    var cum := Accumulated(s.cum, base);
    var counted := Counted(WithCum(base, CumKeys(base), cum), s.unique + p.scenarioIds, p.scenarioIds);
    ThroughputGrows(cum, counted);
    if p.scenarioIds != {} {
      assert UNIQUE_SCENARIOS in counted;
    } else {
      assert p.buffer != map[];
      SomeEntry(p.buffer);
    }
  }

  lemma SomeEntry(m: Metrics)
    requires m != map[]
    ensures exists k :: k in m
  {
    assert (forall k :: k !in m) ==> m == map[];
  }

  lemma EmptyFlushShowsNothing(s: State, scope: string)
    requires PendingOf(s, scope) == NOTHING_PENDING
    ensures FlushStep(s, scope).1 == map[]
  {
    hide Throughput, Accumulated;
    var base := FlushBase(map[]);
    NothingToRollUp();
    var cum := Accumulated(s.cum, base);
    assert WithCum(base, {}, cum) == map[];
    ThroughputGrows(cum, map[]);
  }

  lemma NothingToRollUp()
    ensures FlushBase(map[]) == map[] && CumKeys(map[]) == {}
  {
    assert CostsOf(map[]).Keys == {};
  }
}
