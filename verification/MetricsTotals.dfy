/** What the cumulative keys hold over whole runs, key by key, and what a flush shows of them. */
module MetricsTotals {
  import opened MapSums
  import opened Metrics
  import opened MetricsRuns

  // ---------- What waits, and what was accepted, under one key ----------

  ghost function WaitingByScope(s: State, key: Key): map<string, real> {
    map scope | scope in s.pending :: Get(s.pending[scope].buffer, key)
  }

  /** What all scopes together hold under this key for the next flush. */
  ghost function Waiting(s: State, key: Key): real {
    Sum(WaitingByScope(s, key))
  }

  ghost function TakenUnder(s: State, op: Op, key: Key): real {
    if op.Add? && op.key == key && Step(s, op).1 == Done then op.value else 0.0
  }

  /** All values that a run accepted under this key, whoever added them. */
  ghost function AcceptedUnder(s: State, ops: seq<Op>, key: Key): real
    decreases |ops|
  {
    if ops == [] then 0.0 else TakenUnder(s, ops[0], key) + AcceptedUnder(Step(s, ops[0]).0, ops[1..], key)
  }

  /** Replacing one scope's entry changes what waits by that scope alone. */
  lemma WaitingUpdate(s: State, scope: string, p: Pending, key: Key)
    ensures Waiting(s.(pending := s.pending[scope := p]), key)
            == Waiting(s, key) - Get(PendingOf(s, scope).buffer, key) + Get(p.buffer, key)
  {
    hide Sum;
    var m, value := WaitingByScope(s, key), Get(p.buffer, key);
    assert WaitingByScope(s.(pending := s.pending[scope := p]), key) == m[scope := value];
    SumUpdate(m, scope, value);
  }

  lemma AddWaits(s: State, op: Op, key: Key)
    requires op.Add?
    ensures Step(s, op).0.cum == s.cum
    ensures Waiting(Step(s, op).0, key) == Waiting(s, key) + TakenUnder(s, op, key)
  {
    hide Waiting, Refuses;
    var Add(scope, k, value) := op;
    var p := PendingOf(s, scope);
    if |k| >= 2 && !IsCumulative(k) {
      WaitingUpdate(s, scope, p, key);
      WaitingUpdate(s, scope, p.(buffer := p.buffer[k := Get(p.buffer, k) + value]), key);
    }
  }

  lemma FlushTakesWaiting(s: State, scope: string, key: Key)
    ensures Waiting(FlushStep(s, scope).0, key) == Waiting(s, key) - Get(PendingOf(s, scope).buffer, key)
  {
    hide Sum, FlushStep;
    FlushEmptiesScope(s, scope);
    WaitingUpdate(s, scope, NOTHING_PENDING, key);
    assert WaitingByScope(FlushStep(s, scope).0, key)
        == WaitingByScope(s.(pending := s.pending[scope := NOTHING_PENDING]), key);
  }

  // ---------- What a flush adds to one cumulative key ----------

  /** A key outside the costs is as it was logged, when a flush begins. */
  lemma BaseOutsideCosts(buffer: Metrics, k: Key)
    requires WellKeyed(buffer) && |k| >= 2 && k[0] != "costs"
    ensures k in FlushBase(buffer) <==> k in buffer
    ensures Get(FlushBase(buffer), k) == Get(buffer, k)
  {
    var costs := CostsOf(buffer);
    BaseIsAccumulable(buffer);
    if k in Parents(costs.Keys) {
      ParentsAreTheInnerNodes(costs, k);
    }
  }

  lemma ThroughputIsNotAccumulated(cum: Metrics, base: Metrics, c: Key)
    requires |c| >= 1 && c[0] == "throughput"
    ensures Get(Accumulated(cum, base), c) == Get(cum, c)
    ensures c !in CumKeys(base)
  {
    forall k | k in base && |k| >= 2 && IsHierarchical(k) && !IsCumulative(k)
      ensures ToCumulativeKey(k).value != c
    {
    }
    AccumulatedAt(cum, base, c);
    FeedingNothing(base, c);
  }

  /** Idle seconds join the total of their own worker, once. */
  lemma IdleSecondsAdd(s: State, scope: string)
    requires Hierarchy(s)
    ensures var cum, buffer := FlushStep(s, scope).0.cum, PendingOf(s, scope).buffer;
      && Get(cum, ["throughput", "cum", "trainer_idle_s"])
         == Get(s.cum, ["throughput", "cum", "trainer_idle_s"]) + Get(buffer, ["throughput", "step_trainer_idle_s"])
      && Get(cum, ["throughput", "cum", "actor_idle_s"])
         == Get(s.cum, ["throughput", "cum", "actor_idle_s"]) + Get(buffer, ["throughput", "step_actor_idle_s"])
  {
    hide Accumulated, CumKeys, FlushBase, WellKeyed;
    var buffer := PendingOf(s, scope).buffer;
    assert WellKeyed(buffer) by { BufferIsWellKeyed(s, scope); }
    var base := FlushBase(buffer);
    ThroughputIsNotAccumulated(s.cum, base, ["throughput", "cum", "trainer_idle_s"]);
    ThroughputIsNotAccumulated(s.cum, base, ["throughput", "cum", "actor_idle_s"]);
    BaseOutsideCosts(buffer, ["throughput", "step_trainer_idle_s"]);
    BaseOutsideCosts(buffer, ["throughput", "step_actor_idle_s"]);
    CumKeysAreCumulative(base);
  }

  lemma BufferIsWellKeyed(s: State, scope: string)
    requires Hierarchy(s)
    ensures WellKeyed(PendingOf(s, scope).buffer)
  {
  }

  ghost predicate IsStepName(name: string) {
    |name| >= 5 && name[..5] == "step_"
  }

  /** The two keys that feed a total of the time or data section: with `step_` before the name, and without. */
  lemma TwoKeysFeed(key: Key, section: string, name: string, rest: Key)
    requires section == "time" || section == "data"
    requires !IsStepName(name) && |key| >= 2 && !IsCumulative(key)
    ensures Feeds(key, [section, "cum", name] + rest) <==>
      key == [section, name] + rest || key == [section, "step_" + name] + rest
  {
    var c := [section, "cum", name] + rest;
    assert key == [key[0], key[1]] + key[2..];
    assert ("step_" + name)[..5] == "step_" && ("step_" + name)[5..] == name;
    if IsStepName(key[1]) {
      assert key[1] == "step_" + key[1][5..];
    }
    var fed := [key[0], "cum", StripStep(key[1])] + key[2..];
    assert fed[0] == key[0] && fed[2] == StripStep(key[1]) && fed[3..] == key[2..];
    assert c[0] == section && c[2] == name && c[3..] == rest;
    if key == [section, name] + rest || key == [section, "step_" + name] + rest {
      assert key[0] == section && key[2..] == rest;
      assert fed == c;
    }
  }

  /** Values of the time and data sections join the one total of their name. */
  lemma SectionAdds(s: State, scope: string, section: string, name: string, rest: Key)
    requires Hierarchy(s) && (section == "time" || section == "data") && !IsStepName(name)
    ensures var cum, buffer := FlushStep(s, scope).0.cum, PendingOf(s, scope).buffer;
      Get(cum, [section, "cum", name] + rest)
      == Get(s.cum, [section, "cum", name] + rest)
         + Get(buffer, [section, name] + rest) + Get(buffer, [section, "step_" + name] + rest)
  {
    hide Accumulated, CumKeys, FlushBase, WellKeyed, Feeds, Sum;
    var buffer := PendingOf(s, scope).buffer;
    BufferIsWellKeyed(s, scope);
    var base, c := FlushBase(buffer), [section, "cum", name] + rest;
    var plain, stepped := [section, name] + rest, [section, "step_" + name] + rest;
    FlushBaseKeys(buffer);
    forall k | k in base
      ensures Feeds(k, c) <==> k == plain || k == stepped
    {
      TwoKeysFeed(k, section, name, rest);
    }
    assert plain[1] == name && stepped[1] == "step_" + name && |stepped[1]| > |plain[1]|;
    SumOfTwo(Feeding(base, c), plain, stepped);
    BaseOutsideCosts(buffer, plain);
    BaseOutsideCosts(buffer, stepped);
    AccumulatedAt(s.cum, base, c);
    FlushKeepsTotal(s, scope, c);
  }

  lemma FlushBaseKeys(buffer: Metrics)
    requires WellKeyed(buffer)
    ensures forall k :: k in FlushBase(buffer) ==> |k| >= 2 && !IsCumulative(k)
  {
    BaseIsAccumulable(buffer);
  }

  lemma FlushKeepsTotal(s: State, scope: string, c: Key)
    requires |c| >= 1 && c[0] != "throughput"
    ensures Get(FlushStep(s, scope).0.cum, c)
         == Get(Accumulated(s.cum, FlushBase(PendingOf(s, scope).buffer)), c)
  {
    hide Accumulated, FlushBase, CumKeys;
  }

  // ---------- Over whole runs ----------

  /** Idle time counted, plus idle time waiting. */
  ghost function IdleLedger(s: State, total: Key, step: Key): real {
    Get(s.cum, total) + Waiting(s, step)
  }

  lemma StepKeepsIdle(s: State, op: Op)
    requires Hierarchy(s) && !op.Load?
    ensures var total, step := ["throughput", "cum", "trainer_idle_s"], ["throughput", "step_trainer_idle_s"];
      IdleLedger(Step(s, op).0, total, step) == IdleLedger(s, total, step) + TakenUnder(s, op, step)
    ensures var total, step := ["throughput", "cum", "actor_idle_s"], ["throughput", "step_actor_idle_s"];
      IdleLedger(Step(s, op).0, total, step) == IdleLedger(s, total, step) + TakenUnder(s, op, step)
  {
    hide Waiting, FlushStep, Refuses, AddStep;
    var trainer, actor := ["throughput", "step_trainer_idle_s"], ["throughput", "step_actor_idle_s"];
    match op
    case Add(_, _, _) =>
      AddWaits(s, op, trainer);
      AddWaits(s, op, actor);
    case AddScenarios(scope, ids) =>
      var p := PendingOf(s, scope);
      WaitingUpdate(s, scope, p.(scenarioIds := p.scenarioIds + ids), trainer);
      WaitingUpdate(s, scope, p.(scenarioIds := p.scenarioIds + ids), actor);
    case Flush(scope) =>
      IdleSecondsAdd(s, scope);
      FlushTakesWaiting(s, scope, trainer);
      FlushTakesWaiting(s, scope, actor);
    case Load(_, _) =>
  }

  lemma {:induction false} RunKeepsIdle(s: State, ops: seq<Op>)
    requires Hierarchy(s) && NoLoads(ops)
    ensures var total, step := ["throughput", "cum", "trainer_idle_s"], ["throughput", "step_trainer_idle_s"];
      IdleLedger(Run(s, ops), total, step) == IdleLedger(s, total, step) + AcceptedUnder(s, ops, step)
    ensures var total, step := ["throughput", "cum", "actor_idle_s"], ["throughput", "step_actor_idle_s"];
      IdleLedger(Run(s, ops), total, step) == IdleLedger(s, total, step) + AcceptedUnder(s, ops, step)
    decreases |ops|
  {
    hide IdleLedger, TakenUnder, Step, Hierarchy;
    if ops == [] {
    } else {
      StepKeepsHierarchy(s, ops[0]);
      StepKeepsIdle(s, ops[0]);
      RunKeepsIdle(Step(s, ops[0]).0, ops[1..]);
    }
  }

  lemma NothingWaitsYet(key: Key)
    ensures Waiting(FRESH, key) == 0.0
  {
    SumEmpty(WaitingByScope(FRESH, key));
  }

  /** Over any run of adds and flushes, by whatever builders: the idle seconds counted plus those that wait are
    * those that were accepted, for the trainer and for the actor.
    */
  lemma IdleLaw(ops: seq<Op>)
    requires NoLoads(ops)
    ensures var s := Run(FRESH, ops);
      && Get(s.cum, ["throughput", "cum", "trainer_idle_s"]) + Waiting(s, ["throughput", "step_trainer_idle_s"])
         == AcceptedUnder(FRESH, ops, ["throughput", "step_trainer_idle_s"])
      && Get(s.cum, ["throughput", "cum", "actor_idle_s"]) + Waiting(s, ["throughput", "step_actor_idle_s"])
         == AcceptedUnder(FRESH, ops, ["throughput", "step_actor_idle_s"])
  {
    NothingWaitsYet(["throughput", "step_trainer_idle_s"]);
    NothingWaitsYet(["throughput", "step_actor_idle_s"]);
    RunKeepsIdle(FRESH, ops);
  }

  ghost function SectionLedger(s: State, section: string, name: string, rest: Key): real {
    Get(s.cum, [section, "cum", name] + rest)
    + Waiting(s, [section, name] + rest) + Waiting(s, [section, "step_" + name] + rest)
  }

  lemma StepKeepsSection(s: State, op: Op, section: string, name: string, rest: Key)
    requires Hierarchy(s) && !op.Load?
    requires (section == "time" || section == "data") && !IsStepName(name)
    ensures SectionLedger(Step(s, op).0, section, name, rest)
      == SectionLedger(s, section, name, rest)
         + TakenUnder(s, op, [section, name] + rest) + TakenUnder(s, op, [section, "step_" + name] + rest)
  {
    hide Waiting, FlushStep, Refuses, AddStep;
    var plain, stepped := [section, name] + rest, [section, "step_" + name] + rest;
    match op
    case Add(_, _, _) =>
      AddWaits(s, op, plain);
      AddWaits(s, op, stepped);
    case AddScenarios(scope, ids) =>
      var p := PendingOf(s, scope);
      WaitingUpdate(s, scope, p.(scenarioIds := p.scenarioIds + ids), plain);
      WaitingUpdate(s, scope, p.(scenarioIds := p.scenarioIds + ids), stepped);
    case Flush(scope) =>
      SectionAdds(s, scope, section, name, rest);
      FlushTakesWaiting(s, scope, plain);
      FlushTakesWaiting(s, scope, stepped);
    case Load(_, _) =>
  }

  lemma {:induction false} RunKeepsSection(s: State, ops: seq<Op>, section: string, name: string, rest: Key)
    requires Hierarchy(s) && NoLoads(ops)
    requires (section == "time" || section == "data") && !IsStepName(name)
    ensures SectionLedger(Run(s, ops), section, name, rest)
      == SectionLedger(s, section, name, rest)
         + AcceptedUnder(s, ops, [section, name] + rest) + AcceptedUnder(s, ops, [section, "step_" + name] + rest)
    decreases |ops|
  {
    hide SectionLedger, TakenUnder, Step, Hierarchy;
    if ops == [] {
    } else {
      StepKeepsHierarchy(s, ops[0]);
      StepKeepsSection(s, ops[0], section, name, rest);
      RunKeepsSection(Step(s, ops[0]).0, ops[1..], section, name, rest);
    }
  }

  /** The same for every name of the time and data sections, whose total is fed with and without `step_`. */
  lemma SectionLaw(ops: seq<Op>, section: string, name: string, rest: Key)
    requires NoLoads(ops) && (section == "time" || section == "data") && !IsStepName(name)
    ensures var s := Run(FRESH, ops);
      Get(s.cum, [section, "cum", name] + rest)
      + Waiting(s, [section, name] + rest) + Waiting(s, [section, "step_" + name] + rest)
      == AcceptedUnder(FRESH, ops, [section, name] + rest)
         + AcceptedUnder(FRESH, ops, [section, "step_" + name] + rest)
  {
    NothingWaitsYet([section, name] + rest);
    NothingWaitsYet([section, "step_" + name] + rest);
    RunKeepsSection(FRESH, ops, section, name, rest);
  }

  // ---------- Scenarios ----------

  /** This scenario has been counted, or waits to be. */
  ghost predicate Seen(s: State, id: string) {
    id in s.unique || exists scope :: id in PendingOf(s, scope).scenarioIds
  }

  ghost predicate Logs(op: Op, id: string) {
    op.AddScenarios? && id in op.ids
  }

  lemma StepSees(s: State, op: Op, id: string)
    requires !op.Load?
    ensures Seen(Step(s, op).0, id) <==> Seen(s, id) || Logs(op, id)
  {
    hide FlushStep, Refuses;
    var t := Step(s, op).0;
    if op.Flush? {
      FlushEmptiesScope(s, op.scope);
    }
    if scope :| id in PendingOf(s, scope).scenarioIds {
      assert id in PendingOf(t, scope).scenarioIds || id in t.unique;
    }
    if Logs(op, id) {
      assert id in PendingOf(t, op.scope).scenarioIds;
    }
    if scope :| id in PendingOf(t, scope).scenarioIds {
      assert id in PendingOf(s, scope).scenarioIds || Logs(op, id);
    }
  }

  /** Over any run of adds and flushes: the scenarios counted and those that wait are exactly those that were logged,
    * whoever logged them and however often.
    */
  lemma {:induction false} ScenarioLaw(s: State, ops: seq<Op>, id: string)
    requires NoLoads(ops)
    ensures Seen(Run(s, ops), id) <==> Seen(s, id) || exists i :: 0 <= i < |ops| && Logs(ops[i], id)
    decreases |ops|
  {
    hide Step, Seen, Logs;
    if ops == [] {
    } else {
      StepSees(s, ops[0], id);
      ScenarioLaw(Step(s, ops[0]).0, ops[1..], id);
      assert forall i :: 0 < i < |ops| ==> ops[i] == ops[1..][i - 1];
    }
  }

  /** A flush counts what waited in its scope, and nothing else. */
  lemma FlushCountsScenarios(s: State, scope: string)
    ensures FlushStep(s, scope).0.unique == s.unique + PendingOf(s, scope).scenarioIds
    ensures PendingOf(FlushStep(s, scope).0, scope).scenarioIds == {}
    ensures forall other :: other != scope ==> PendingOf(FlushStep(s, scope).0, other) == PendingOf(s, other)
  {
    FlushEmptiesScope(s, scope);
  }

  // ---------- What a flush shows of its totals ----------

  /** The tokens and seconds of this worker are both known, time has passed, and this step logged one of them. */
  ghost predicate AverageIsDue(buffer: Metrics, cum: Metrics, worker: string) {
    && (["data", "step_" + worker + "_tokens"] in buffer || ["time", "step_" + worker + "_s"] in buffer)
    && ["data", "cum", worker + "_tokens"] in cum
    && ["time", "cum", worker + "_s"] in cum
    && cum[["time", "cum", worker + "_s"]] > 0.0
  }

  ghost function BeforeThroughput(s: State, scope: string): Metrics {
    var p := PendingOf(s, scope);
    var base := FlushBase(p.buffer);
    Counted(WithCum(base, CumKeys(base), Accumulated(s.cum, base)), s.unique + p.scenarioIds, p.scenarioIds)
  }

  /** Before the idle times and the averages, a key that is not cumulative and no cost is there as it was logged. */
  lemma BeforeThroughputShows(s: State, scope: string, k: Key)
    requires Hierarchy(s) && |k| >= 2 && k[0] != "costs" && !IsCumulative(k)
    ensures var buffer, r := PendingOf(s, scope).buffer, BeforeThroughput(s, scope);
      (k in r <==> k in buffer) && (k in r ==> r[k] == buffer[k])
  {
    hide FlushBase, Accumulated;
    var buffer := PendingOf(s, scope).buffer;
    BufferIsWellKeyed(s, scope);
    BaseOutsideCosts(buffer, k);
    CumKeysAreCumulative(FlushBase(buffer));
  }

  lemma IdleKeepsOthers(cum: Metrics, result: Metrics, keys: (Key, Key), k: Key)
    requires k != keys.1
    ensures var (cum', result') := AddIdle(cum, result, keys);
      && (k in cum' <==> k in cum) && (k in cum ==> cum'[k] == cum[k])
      && (k in result' <==> k in result) && (k in result ==> result'[k] == result[k])
  {
  }

  /** The keys of an average: none of them is an idle total, and the two averages have different names. */
  lemma AverageKeysDiffer(worker: string)
    requires worker == "trainer" || worker == "actor"
    ensures ["throughput", "avg_" + worker + "_tok_per_s"] != TRAINER_IDLE.1
    ensures ["throughput", "avg_" + worker + "_tok_per_s"] != ACTOR_IDLE.1
    ensures !IsCumulative(["throughput", "avg_" + worker + "_tok_per_s"])
    ensures ["data", "step_" + worker + "_tokens"] != ["throughput", "avg_trainer_tok_per_s"]
    ensures ["time", "step_" + worker + "_s"] != ["throughput", "avg_trainer_tok_per_s"]
    ensures !IsCumulative(["data", "step_" + worker + "_tokens"]) && !IsCumulative(["time", "step_" + worker + "_s"])
    ensures "avg_" + "trainer" + "_tok_per_s" == "avg_trainer_tok_per_s"
    ensures "avg_" + "actor" + "_tok_per_s" == "avg_actor_tok_per_s" != "avg_trainer_tok_per_s"
  {
    assert "avg_actor_tok_per_s"[4] == 'a' && "avg_trainer_tok_per_s"[4] == 't';
    var average := "avg_" + worker + "_tok_per_s";
    var tokens, seconds := "step_" + worker + "_tokens", "step_" + worker + "_s";
    assert |average| > 3 && |tokens| > 3 && |seconds| > 3 && |"cum"| == 3;
  }

  /** A worker's average is what a flush shows under the worker's name: its tokens counted so far over its seconds
    * counted so far, when one of the two was logged in this step and time has passed; otherwise nothing is added.
    */
  lemma AverageIsShown(s: State, scope: string, worker: string)
    requires Hierarchy(s) && (worker == "trainer" || worker == "actor")
    ensures var buffer, cum, r := PendingOf(s, scope).buffer, FlushStep(s, scope).0.cum, FlushStep(s, scope).1;
      var average := ["throughput", "avg_" + worker + "_tok_per_s"];
      if AverageIsDue(buffer, cum, worker)
      then average in r
           && r[average] == cum[["data", "cum", worker + "_tokens"]] / cum[["time", "cum", worker + "_s"]]
      else (average in r <==> average in buffer) && (average in r ==> r[average] == buffer[average])
  {
    hide FlushBase, Accumulated, CumKeys, WithCum, Counted, AddIdle, IsCumulative;
    var before := BeforeThroughput(s, scope);
    var cum := Accumulated(s.cum, FlushBase(PendingOf(s, scope).buffer));
    var average := ["throughput", "avg_" + worker + "_tok_per_s"];
    var tokens, seconds := ["data", "step_" + worker + "_tokens"], ["time", "step_" + worker + "_s"];
    AverageKeysDiffer(worker);
    BeforeThroughputShows(s, scope, average);
    BeforeThroughputShows(s, scope, tokens);
    BeforeThroughputShows(s, scope, seconds);
    var (cum1, result1) := AddIdle(cum, before, TRAINER_IDLE);
    forall k | k == average || k == tokens || k == seconds
      ensures k in AddIdle(cum1, result1, ACTOR_IDLE).1 <==> k in before
      ensures k in before ==> AddIdle(cum1, result1, ACTOR_IDLE).1[k] == before[k]
    {
      IdleKeepsOthers(cum, before, TRAINER_IDLE, k);
      IdleKeepsOthers(cum1, result1, ACTOR_IDLE, k);
    }
  }

  /** What a result shows under a key is what was counted. */
  ghost predicate Agrees(cum: Metrics, result: Metrics, c: Key) {
    c in result ==> c in cum && result[c] == cum[c]
  }

  lemma IdleAgrees(cum: Metrics, result: Metrics, keys: (Key, Key), c: Key)
    requires Agrees(cum, result, c)
    ensures var (cum', result') := AddIdle(cum, result, keys);
      && Agrees(cum', result', c)
      && (c == keys.1 && c !in result ==> (c in result' <==> keys.0 in result))
  {
  }

  lemma AverageKeepsTotals(cum: Metrics, result: Metrics, worker: string, c: Key)
    requires IsCumulative(c) && (worker == "trainer" || worker == "actor")
    ensures var r := AddAverage(cum, result, worker);
      (c in r <==> c in result) && (c in result ==> r[c] == result[c])
  {
    AverageKeysDiffer(worker);
  }

  lemma BeforeThroughputAgrees(s: State, scope: string, c: Key)
    requires Hierarchy(s) && IsCumulative(c)
    ensures var p, before := PendingOf(s, scope), BeforeThroughput(s, scope);
      && (c != UNIQUE_SCENARIOS ==> Agrees(Accumulated(s.cum, FlushBase(p.buffer)), before, c))
      && (c == UNIQUE_SCENARIOS && p.scenarioIds != {} ==>
            c in before && before[c] == |s.unique + p.scenarioIds| as real)
      && (c[0] == "throughput" ==> c !in before)
  {
    hide Accumulated, FlushBase;
    var base := FlushBase(PendingOf(s, scope).buffer);
    BufferIsWellKeyed(s, scope);
    FlushBaseKeys(PendingOf(s, scope).buffer);
    if c[0] == "throughput" {
      ThroughputIsNotAccumulated(s.cum, base, c);
    }
  }

  /** Every total that a flush shows is the one counted so far: all those that its keys feed, the idle times, and
    * the number of different scenarios.
    */
  lemma TotalsAreShown(s: State, scope: string, c: Key)
    requires Hierarchy(s) && IsCumulative(c)
    ensures var p, cum, r := PendingOf(s, scope), FlushStep(s, scope).0.cum, FlushStep(s, scope).1;
      && (c != ["data", "cum", "num_unique_scenarios"] && c in r ==> c in cum && r[c] == cum[c])
      && (c == ["data", "cum", "num_unique_scenarios"] && p.scenarioIds != {} ==>
            c in r && r[c] == |s.unique + p.scenarioIds| as real)
      && (c == ["throughput", "cum", "trainer_idle_s"] ==>
            (c in r <==> ["throughput", "step_trainer_idle_s"] in p.buffer))
      && (c == ["throughput", "cum", "actor_idle_s"] ==>
            (c in r <==> ["throughput", "step_actor_idle_s"] in p.buffer))
  {
    hide Accumulated, FlushBase, AddIdle, AddAverage, Agrees, CumKeys, WithCum, Counted, IsCumulative;
    var before, cum := BeforeThroughput(s, scope), Accumulated(s.cum, FlushBase(PendingOf(s, scope).buffer));
    BeforeThroughputAgrees(s, scope, c);
    BeforeThroughputShows(s, scope, ["throughput", "step_trainer_idle_s"]) by { StepKeysAreNoTotals(); }
    BeforeThroughputShows(s, scope, ["throughput", "step_actor_idle_s"]) by { StepKeysAreNoTotals(); }
    var (cum1, result1) := AddIdle(cum, before, TRAINER_IDLE);
    var (cum2, result2) := AddIdle(cum1, result1, ACTOR_IDLE);
    var result3 := AddAverage(cum2, result2, "trainer");
    AverageKeepsTotals(cum2, result2, "trainer", c);
    AverageKeepsTotals(cum2, result3, "actor", c);
    IdleKeepsOthers(cum, before, TRAINER_IDLE, ["throughput", "step_actor_idle_s"]);
    if c == TRAINER_IDLE.1 || c == UNIQUE_SCENARIOS {
      IdleKeepsOthers(cum1, result1, ACTOR_IDLE, c);
    }
    if c == ACTOR_IDLE.1 || c == UNIQUE_SCENARIOS {
      IdleKeepsOthers(cum, before, TRAINER_IDLE, c);
    }
    if c != UNIQUE_SCENARIOS {
      IdleAgrees(cum, before, TRAINER_IDLE, c);
      IdleAgrees(cum1, result1, ACTOR_IDLE, c);
      AgreeingShows(cum2, result2, AddAverage(cum2, result3, "actor"), c);
    }
  }

  lemma StepKeysAreNoTotals()
    ensures !IsCumulative(["throughput", "step_trainer_idle_s"])
    ensures !IsCumulative(["throughput", "step_actor_idle_s"])
  {
  }

  lemma AgreeingShows(cum: Metrics, result: Metrics, shown: Metrics, c: Key)
    requires Agrees(cum, result, c) && (c in shown ==> c in result && shown[c] == result[c])
    ensures c in shown ==> c in cum && shown[c] == cum[c]
  {
  }

  /** What is logged in a section that is counted shows its total, too. */
  lemma FedTotalsAreShown(s: State, scope: string, k: Key)
    requires Hierarchy(s) && k in PendingOf(s, scope).buffer && k[0] in {"costs", "time", "data"}
    ensures ToCumulativeKey(k).Ok? && ToCumulativeKey(k).value in FlushStep(s, scope).1
  {
    hide Accumulated, Rollups;
    var p := PendingOf(s, scope);
    var base := FlushBase(p.buffer);
    BufferIsWellKeyed(s, scope);
    FlushBaseKeys(p.buffer);
    assert k in base;
    assert ToCumulativeKey(k).value in CumKeys(base);
    var cum := Accumulated(s.cum, base);
    assert ToCumulativeKey(k).value in cum by { AccumulatedHas(s.cum, base, ToCumulativeKey(k).value); }
    ThroughputGrows(cum, BeforeThroughput(s, scope));
  }

  lemma AccumulatedHas(cum: Metrics, base: Metrics, c: Key)
    requires c in CumKeys(base)
    ensures c in Accumulated(cum, base)
  {
  }
}
