/** The metrics builder of `src/art/metrics.py`.
  *
  * A metric key is the sequence of its slash-separated components, so "starts with `key/`" is
  * `key < other`, the proper-prefix order on sequences. Values are reals.
  */
module Metrics {
  import opened Wrappers
  import opened MapSums

  type Key = seq<string>
  type Metrics = map<Key, real>

  datatype MetricError =
    | NoSection
    | AlreadyCumulative
    | ReservedNamespace
    | HierarchyClash
    | EmptyPath

  const ALL: Key := ["costs", "all"]
  const CUM_ALL: Key := ["costs", "cum", "all"]
  const STEP_ALL: Key := ["costs", "step_all"]
  const UNIQUE_SCENARIOS: Key := ["data", "cum", "num_unique_scenarios"]
  const TRAINER_IDLE: (Key, Key) :=
    (["throughput", "step_trainer_idle_s"], ["throughput", "cum", "trainer_idle_s"])
  const ACTOR_IDLE: (Key, Key) :=
    (["throughput", "step_actor_idle_s"], ["throughput", "cum", "actor_idle_s"])

  // ---------- Keys ----------

  predicate IsCumulative(key: Key) {
    |key| >= 2 && key[1] == "cum"
  }

  predicate IsHierarchical(key: Key)
    requires |key| >= 1
  {
    key[0] in {"costs", "time", "data"}
  }

  function StripStep(component: string): string {
    if |component| >= 5 && component[..5] == "step_" then component[5..] else component
  }

  function ToCumulativeKey(key: Key): (r: Result<Key, MetricError>)
    ensures r.Ok? <==> |key| >= 2 && !IsCumulative(key)
    ensures r.Ok? ==> IsCumulative(r.value) && |r.value| == |key| + 1 && r.value[0] == key[0]
  {
    if IsCumulative(key) then
      Err(AlreadyCumulative)
    else if |key| < 2 then
      Err(NoSection)
    else
      Ok([key[0], "cum", StripStep(key[1])] + key[2..])
  }

  /** Exactly two keys feed `costs/cum/all`. */
  lemma FeedsAll(key: Key)
    requires |key| >= 2 && !IsCumulative(key)
    ensures ToCumulativeKey(key) == Ok(CUM_ALL) <==> key == ALL || key == STEP_ALL
  {
    assert StripStep("step_all") == "all" && StripStep("all") == "all";
    assert StripStep(key[1]) == "all" ==> key[1] == "all" || key[1] == "step_all" by {
      assert StripStep(key[1]) == key[1] || key[1] == "step_" + StripStep(key[1]);
      assert "step_" + "all" == "step_all";
    }
    var cum := ToCumulativeKey(key).value;
    assert cum[2] == StripStep(key[1]) && cum[1] == "cum";
    if |key| == 2 {
      assert key == [key[0], key[1]];
      assert cum == [key[0], "cum", StripStep(key[1])];
    }
  }

  predicate IsCost(key: Key) {
    |key| >= 1 && key[0] == "costs"
  }

  /** `a` is a proper path prefix of `b`: the source's `b.startswith(f"{a}/")`. */
  predicate Above(a: Key, b: Key) {
    a < b
  }

  /** No key is a leaf below another. */
  ghost predicate Antichain(keys: set<Key>) {
    forall a, b :: a in keys && b in keys ==> !Above(a, b)
  }

  // ---------- Shared state and its steps ----------

  datatype Pending = Pending(buffer: Metrics, scenarioIds: set<string>)

  const NOTHING_PENDING := Pending(map[], {})

  datatype State = State(pending: map<string, Pending>, cum: Metrics, unique: set<string>)

  function PendingOf(s: State, scope: string): Pending {
    if scope in s.pending then s.pending[scope] else NOTHING_PENDING
  }

  function Get(m: Metrics, key: Key): real {
    if key in m then m[key] else 0.0
  }

  datatype Op =
    | Add(scope: string, key: Key, value: real)
    | AddScenarios(scope: string, ids: set<string>)
    | Flush(scope: string)
    | Load(cum: Metrics, unique: set<string>)

  datatype Output =
    | Done
    | Rejected(error: MetricError)
    | Flushed(result: Metrics)

  /** Why `_validate_and_add` refuses a key, if it does. Which of two clashes is met first is not modelled. */
  ghost predicate Refuses(buffer: Metrics, key: Key) {
    exists other :: other in buffer && (Above(key, other) || Above(other, key))
  }

  ghost function CostsOf(m: Metrics): Metrics {
    map k | k in m && IsCost(k) :: m[k]
  }

  ghost function Below(m: Metrics, parent: Key): Metrics {
    map k | k in m && Above(parent, k) :: m[k]
  }

  /** The proper prefixes, at least two components long, of the keys. */
  ghost function Parents(keys: set<Key>): set<Key> {
    set k, d | k in keys && 2 <= d < |k| :: k[..d]
  }

  ghost function Rollups(costs: Metrics): Metrics {
    if costs.Keys == {} then
      map[]
    else
      (map p | p in Parents(costs.Keys) :: Sum(Below(costs, p)))[ALL := Sum(costs)]
  }

  ghost predicate Feeds(key: Key, cumKey: Key) {
    |key| >= 2 && IsHierarchical(key) && ToCumulativeKey(key) == Ok(cumKey)
  }

  ghost function Feeding(base: Metrics, cumKey: Key): Metrics {
    map k | k in base && Feeds(k, cumKey) :: base[k]
  }

  ghost function CumKeys(base: Metrics): set<Key> {
    set k | k in base && |k| >= 2 && IsHierarchical(k) && !IsCumulative(k) :: ToCumulativeKey(k).value
  }

  ghost function Accumulated(cum: Metrics, base: Metrics): Metrics {
    map c | c in cum.Keys + CumKeys(base) :: Get(cum, c) + Sum(Feeding(base, c))
  }

  ghost function FlushBase(buffer: Metrics): Metrics {
    buffer + Rollups(CostsOf(buffer))
  }

  /** One entry of the idle-time mapping: the step value joins its own cumulative key. */
  function AddIdle(cum: Metrics, result: Metrics, keys: (Key, Key)): (Metrics, Metrics) {
    if keys.0 in result then
      var next := Get(cum, keys.1) + result[keys.0];
      (cum[keys.1 := next], result[keys.1 := next])
    else
      (cum, result)
  }

  /** Tokens per second of one worker, once both totals are known and time has passed. */
  function AddAverage(cum: Metrics, result: Metrics, worker: string): Metrics {
    var tokens, seconds := ["data", "cum", worker + "_tokens"], ["time", "cum", worker + "_s"];
    if (["data", "step_" + worker + "_tokens"] in result || ["time", "step_" + worker + "_s"] in result)
       && tokens in cum && seconds in cum && cum[seconds] > 0.0
    then
      result[["throughput", "avg_" + worker + "_tok_per_s"] := cum[tokens] / cum[seconds]]
    else
      result
  }

  function Throughput(cum: Metrics, result: Metrics): (Metrics, Metrics) {
    var (cum1, result1) := AddIdle(cum, result, TRAINER_IDLE);
    var (cum2, result2) := AddIdle(cum1, result1, ACTOR_IDLE);
    (cum2, AddAverage(cum2, AddAverage(cum2, result2, "trainer"), "actor"))
  }

  /** The result with the current value of each of the given cumulative keys. */
  ghost function WithCum(base: Metrics, keys: set<Key>, cum: Metrics): Metrics {
    base + (map c | c in keys && c in cum :: cum[c])
  }

  /** The result with the number of distinct scenarios, if this step saw any. */
  ghost function Counted(result: Metrics, unique: set<string>, ids: set<string>): Metrics {
    if ids == {} then result else result[UNIQUE_SCENARIOS := |unique| as real]
  }

  ghost function FlushStep(s: State, scope: string): (State, Metrics) {
    var p := PendingOf(s, scope);
    var base := FlushBase(p.buffer);
    var cum := Accumulated(s.cum, base);
    var unique := s.unique + p.scenarioIds;
    var done := Throughput(cum, Counted(WithCum(base, CumKeys(base), cum), unique, p.scenarioIds));
    (State(s.pending[scope := NOTHING_PENDING], done.0, unique), done.1)
  }

  ghost function AddStep(s: State, scope: string, key: Key, value: real): (State, Output) {
    var p := PendingOf(s, scope);
    if |key| < 2 then
      (s, Rejected(NoSection))
    else if IsCumulative(key) then
      (s, Rejected(ReservedNamespace))
    else if Refuses(p.buffer, key) then
      (s.(pending := s.pending[scope := p]), Rejected(HierarchyClash))
    else
      (s.(pending := s.pending[scope := p.(buffer := p.buffer[key := Get(p.buffer, key) + value])]), Done)
  }

  ghost function Step(s: State, op: Op): (State, Output) {
    match op
    case Add(scope, key, value) => AddStep(s, scope, key, value)
    case AddScenarios(scope, ids) =>
      var p := PendingOf(s, scope);
      (s.(pending := s.pending[scope := p.(scenarioIds := p.scenarioIds + ids)]), Done)
    case Flush(scope) =>
      var (s', result) := FlushStep(s, scope);
      (s', Flushed(result))
    case Load(cum, unique) => (State(map[], cum, unique), Done)
  }

  /** Each scope's buffer is an antichain of non-cumulative keys that have a section. */
  ghost predicate WellKeyed(buffer: Metrics) {
    && Antichain(buffer.Keys)
    && forall k :: k in buffer ==> |k| >= 2 && !IsCumulative(k)
  }

  ghost predicate Hierarchy(s: State) {
    forall scope :: scope in s.pending ==> WellKeyed(s.pending[scope].buffer)
  }

  /** The hierarchy invariant survives every operation. */
  lemma StepKeepsHierarchy(s: State, op: Op)
    requires Hierarchy(s)
    ensures Hierarchy(Step(s, op).0)
  {
    hide FlushStep;
    match op
    case Add(scope, key, value) =>
      var buffer := PendingOf(s, scope).buffer;
      AddKeepsWellKeyed(buffer, key, Get(buffer, key) + value);
    case AddScenarios(scope, ids) =>
    case Flush(scope) => FlushEmptiesScope(s, scope);
    case Load(cum, unique) =>
  }

  lemma FlushEmptiesScope(s: State, scope: string)
    ensures FlushStep(s, scope).0.pending == s.pending[scope := NOTHING_PENDING]
    ensures FlushStep(s, scope).0.unique == s.unique + PendingOf(s, scope).scenarioIds
  {
  }

  lemma AddKeepsWellKeyed(buffer: Metrics, key: Key, value: real)
    requires WellKeyed(buffer)
    ensures |key| >= 2 && !IsCumulative(key) && !Refuses(buffer, key) ==> WellKeyed(buffer[key := value])
  {
  }

  // ---------- Rollups ----------

  ghost predicate CostBuffer(costs: Metrics) {
    WellKeyed(costs) && forall k :: k in costs ==> IsCost(k)
  }

  ghost function ComponentAt(key: Key, depth: nat): string {
    if depth < |key| then key[depth] else ""
  }

  ghost function Children(costs: Metrics, parent: Key): set<string> {
    set k | k in Below(costs, parent) :: ComponentAt(k, |parent|)
  }

  /** What the tree shows at `key`: a leaf's own value, or the rollup of what lies below. */
  ghost function ValueAt(costs: Metrics, key: Key): real {
    if key in costs then costs[key] else Sum(Below(costs, key))
  }

  ghost function ChildValues(costs: Metrics, parent: Key): map<string, real> {
    map c | c in Children(costs, parent) :: ValueAt(costs, parent + [c])
  }

  ghost function ChildFiber(costs: Metrics, parent: Key, c: string): Metrics {
    Fiber(Below(costs, parent), k => ComponentAt(k, |parent|), c)
  }

  lemma AboveMeansPrefix(a: Key, b: Key)
    ensures Above(a, b) <==> |a| < |b| && b[..|a|] == a
    ensures |a| < |b| && b[..|a|] == a ==> (forall i :: 0 <= i < |a| ==> a[i] == b[i])
  {
    if |a| < |b| && (forall i :: 0 <= i < |a| ==> a[i] == b[i]) {
      assert b[..|a|] == a;
    }
  }

  /** One child's share of a rollup is what the tree shows at that child. */
  lemma ChildShare(costs: Metrics, parent: Key, c: string)
    requires CostBuffer(costs) && c in Children(costs, parent)
    ensures Sum(ChildFiber(costs, parent, c)) == ValueAt(costs, parent + [c])
  {
    var child := parent + [c];
    forall k
      ensures k in ChildFiber(costs, parent, c) <==> k in costs && (k == child || Above(child, k))
    {
      AboveMeansPrefix(parent, k);
      AboveMeansPrefix(child, k);
      if |k| > |parent| {
        assert k[..|parent| + 1] == k[..|parent|] + [k[|parent|]];
        assert |k| == |parent| + 1 ==> k == k[..|parent| + 1];
      }
      if k == child {
        assert child[..|parent|] == parent;
      }
    }
    if child in costs {
      assert forall k :: k in costs ==> !Above(child, k);
      SumSingleton(ChildFiber(costs, parent, c), child);
    } else {
      assert ChildFiber(costs, parent, c) == Below(costs, child);
    }
  }

  /** Every rollup is the sum of its immediate children, whether those are leaves or rollups. */
  lemma RollupIsSumOfChildren(costs: Metrics, parent: Key)
    requires CostBuffer(costs)
    ensures Sum(Below(costs, parent)) == Sum(ChildValues(costs, parent))
  {
    forall c | c in Children(costs, parent)
      ensures Sum(ChildFiber(costs, parent, c)) == ValueAt(costs, parent + [c])
    {
      ChildShare(costs, parent, c);
    }
    SumByGroup(Below(costs, parent), k => ComponentAt(k, |parent|), ChildValues(costs, parent));
  }

  /** A proper prefix of a leaf, two components or longer, is a rollup; a leaf is none. */
  lemma ParentsAreTheInnerNodes(costs: Metrics, p: Key)
    requires CostBuffer(costs)
    ensures p in Parents(costs.Keys) <==> |p| >= 2 && exists k :: k in costs && Above(p, k)
    ensures p in Parents(costs.Keys) ==> p !in costs && IsCost(p) && !IsCumulative(p)
  {
    if p in Parents(costs.Keys) {
      var k, d: int :| k in costs && 2 <= d < |k| && p == k[..d];
      AboveMeansPrefix(p, k);
    }
    if |p| >= 2 && exists k :: k in costs && Above(p, k) {
      var k :| k in costs && Above(p, k);
      AboveMeansPrefix(p, k);
      assert k[..|p|] == p;
    }
  }

  /** Every key a flush starts from has a section and is not cumulative, so none of them can raise. */
  lemma BaseIsAccumulable(buffer: Metrics)
    requires WellKeyed(buffer)
    ensures CostBuffer(CostsOf(buffer))
    ensures forall k :: k in FlushBase(buffer) ==> |k| >= 2 && !IsCumulative(k)
    ensures forall k :: k in buffer && k != ALL ==> FlushBase(buffer)[k] == buffer[k]
  {
    var costs := CostsOf(buffer);
    forall p | p in Parents(costs.Keys)
      ensures |p| >= 2 && !IsCumulative(p) && p !in buffer
    {
      ParentsAreTheInnerNodes(costs, p);
    }
  }

  lemma FeedingOne(seen: Metrics, key: Key, value: real, c: Key)
    requires key !in seen
    ensures Sum(Feeding(seen[key := value], c)) == Sum(Feeding(seen, c)) + (if Feeds(key, c) then value else 0.0)
  {
    hide Sum;
    if Feeds(key, c) {
      assert Feeding(seen[key := value], c) == Feeding(seen, c)[key := value];
      SumUpdate(Feeding(seen, c), key, value);
    } else {
      assert Feeding(seen[key := value], c) == Feeding(seen, c);
    }
  }

  lemma FeedingNothing(seen: Metrics, c: Key)
    requires c !in CumKeys(seen)
    ensures Sum(Feeding(seen, c)) == 0.0
  {
    forall k | k in seen && |k| >= 2 && IsHierarchical(k) && !IsCumulative(k)
      ensures ToCumulativeKey(k).value in CumKeys(seen)
    {
    }
    assert Feeding(seen, c).Keys == {};
    SumEmpty(Feeding(seen, c));
  }

  lemma CumKeysOne(seen: Metrics, key: Key, value: real)
    requires |key| >= 2 && !IsCumulative(key)
    ensures CumKeys(seen[key := value])
            == CumKeys(seen) + (if IsHierarchical(key) then {ToCumulativeKey(key).value} else {})
  {
    var more := seen[key := value];
    forall c | c in CumKeys(more)
      ensures c in CumKeys(seen) || Feeds(key, c)
    {
      var k :| k in more && |k| >= 2 && IsHierarchical(k) && !IsCumulative(k) && c == ToCumulativeKey(k).value;
      assert k == key || k in seen;
    }
    forall k | k in seen && |k| >= 2 && IsHierarchical(k) && !IsCumulative(k)
      ensures ToCumulativeKey(k).value in CumKeys(more)
    {
      assert k in more;
    }
    assert key in more;
  }

  lemma AccumulatedAfter(cum: Metrics, seen: Metrics, more: Metrics, c: Key, value: real)
    requires CumKeys(more) == CumKeys(seen) + {c}
    requires forall d :: Sum(Feeding(more, d)) == Sum(Feeding(seen, d)) + (if d == c then value else 0.0)
    requires c !in CumKeys(seen) ==> Sum(Feeding(seen, c)) == 0.0
    ensures Accumulated(cum, more) == Accumulated(cum, seen)[c := Get(Accumulated(cum, seen), c) + value]
  {
    hide Sum, CumKeys, Feeding;
  }

  /** Visiting one more key adds its value to the one cumulative key it feeds. */
  lemma AccumulateOne(cum: Metrics, seen: Metrics, key: Key, value: real)
    requires |key| >= 2 && !IsCumulative(key) && key !in seen
    ensures !IsHierarchical(key) ==>
              && CumKeys(seen[key := value]) == CumKeys(seen)
              && Accumulated(cum, seen[key := value]) == Accumulated(cum, seen)
    ensures IsHierarchical(key) ==>
              var c := ToCumulativeKey(key).value;
              && CumKeys(seen[key := value]) == CumKeys(seen) + {c}
              && Accumulated(cum, seen[key := value])
                 == Accumulated(cum, seen)[c := Get(Accumulated(cum, seen), c) + value]
  {
    hide Sum, CumKeys, Feeding;
    var more := seen[key := value];
    CumKeysOne(seen, key, value);
    forall d
      ensures Sum(Feeding(more, d)) == Sum(Feeding(seen, d)) + (if Feeds(key, d) then value else 0.0)
    {
      FeedingOne(seen, key, value, d);
    }
    if IsHierarchical(key) {
      var c := ToCumulativeKey(key).value;
      if c !in CumKeys(seen) {
        FeedingNothing(seen, c);
      }
      AccumulatedAfter(cum, seen, more, c, value);
    }
  }
}
