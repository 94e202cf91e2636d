/** The imperative form of `src/art/metrics.py`: the class whose methods change the shared state,
  * each proved against the steps of module `Metrics`.
  */
module MetricsBuilding {
  import opened Wrappers
  import opened MapSums
  import opened Metrics

  class SharedMetricsState {
    var pendingByScope: map<string, Pending>
    var cumState: Metrics
    var uniqueScenarioIds: set<string>

    constructor ()
      ensures View() == State(map[], map[], {})
    {
      pendingByScope, cumState, uniqueScenarioIds := map[], map[], {};
    }

    ghost function View(): State
      reads this
    {
      State(pendingByScope, cumState, uniqueScenarioIds)
    }
  }

  ghost function PrefixesTo(key: Key, depth: nat): set<Key>
    requires depth <= |key|
  {
    set d: nat | 2 <= d < depth :: key[..d]
  }

  lemma NoParents(keys: set<Key>)
    requires keys == {}
    ensures Parents(keys) == {}
  {
  }

  lemma PrefixesGrow(key: Key)
    requires |key| >= 2
    ensures PrefixesTo(key, 2) == {}
    ensures forall d: nat :: 2 <= d < |key| ==> PrefixesTo(key, d + 1) == PrefixesTo(key, d) + {key[..d]}
  {
  }

  lemma ParentsGrow(keys: set<Key>, key: Key)
    ensures Parents(keys + {key}) == Parents(keys) + PrefixesTo(key, |key|)
  {
  }

  ghost function RollupsByParent(costs: Metrics): Metrics {
    map p | p in Parents(costs.Keys) :: Sum(Below(costs, p))
  }

  lemma TopLevelChildren(costs: Metrics)
    requires CostBuffer(costs)
    ensures forall k :: k in costs ==> Above(["costs"], k)
    ensures ChildValues(costs, ["costs"]).Keys == set k | k in costs :: k[1]
  {
    forall k | k in costs
      ensures Above(["costs"], k) && ComponentAt(k, 1) == k[1]
    {
      AboveMeansPrefix(["costs"], k);
      assert k[..1] == ["costs"];
    }
    assert Below(costs, ["costs"]) == costs;
  }

  lemma TotalIsTopLevel(costs: Metrics)
    requires CostBuffer(costs)
    ensures Sum(costs) == Sum(ChildValues(costs, ["costs"]))
  {
    TopLevelChildren(costs);
    RollupIsSumOfChildren(costs, ["costs"]);
    assert Below(costs, ["costs"]) == costs;
  }

  lemma TopLevelValue(costs: Metrics, child: string)
    requires CostBuffer(costs) && child in ChildValues(costs, ["costs"])
    ensures var key, rollups := ["costs", child], RollupsByParent(costs);
            && (key !in rollups ==> key in costs)
            && ChildValues(costs, ["costs"])[child] == (if key in rollups then rollups[key] else costs[key])
  {
    var key := ["costs", child];
    assert ["costs"] + [child] == key;
    ParentsAreTheInnerNodes(costs, key);
    var k :| k in Below(costs, ["costs"]) && child == ComponentAt(k, 1);
    AboveMeansPrefix(["costs"], k);
    AboveMeansPrefix(key, k);
    if |k| > 2 {
      assert k[..2] == key;
    } else {
      assert k == key;
    }
  }

  lemma NoneAdded(base: Metrics, cum: Metrics)
    ensures WithCum(base, {}, cum) == base
  {
  }

  lemma AssertWellKeyed(s: State, scope: string)
    requires Hierarchy(s)
    ensures WellKeyed(PendingOf(s, scope).buffer)
  {
  }

  lemma UpdateTwice(m: map<string, Pending>, k: string, p: Pending, q: Pending)
    ensures m[k := p][k := q] == m[k := q]
  {
  }

  lemma WithOneMore(base: Metrics, keys: set<Key>, cum: Metrics, key: Key, value: real)
    ensures WithCum(base, keys + {key}, cum[key := value]) == WithCum(base, keys, cum)[key := value]
  {
  }

  lemma NothingAccumulated(cum: Metrics, base: Metrics)
    requires base.Keys == {}
    ensures CumKeys(base) == {} && Accumulated(cum, base) == cum
  {
    forall c
      ensures Sum(Feeding(base, c)) == 0.0
    {
      SumEmpty(Feeding(base, c));
    }
  }

  /** `seen` holds the entries of `m` that are not left in `rest`. */
  ghost predicate IsPart<K(!new)>(seen: map<K, real>, m: map<K, real>, rest: set<K>) {
    && rest <= m.Keys
    && seen.Keys == m.Keys - rest
    && forall k :: k in seen ==> seen[k] == m[k]
  }

  lemma TakeOne<K(!new)>(seen: map<K, real>, m: map<K, real>, rest: set<K>, k: K)
    requires IsPart(seen, m, rest) && k in rest
    ensures k !in seen
    ensures IsPart(seen[k := m[k]], m, rest - {k})
    ensures Sum(seen[k := m[k]]) == Sum(seen) + m[k]
  {
    SumUpdate(seen, k, m[k]);
  }

  lemma IsWhole<K(!new)>(seen: map<K, real>, m: map<K, real>)
    requires IsPart(seen, m, {})
    ensures seen == m
  {
  }

  class MetricsBuilder {
    const bufferScope: string
    const shared: SharedMetricsState

    constructor (bufferScope: string, shared: SharedMetricsState)
      ensures this.bufferScope == bufferScope && this.shared == shared
    {
      this.bufferScope, this.shared := bufferScope, shared;
    }

    /** `_pending_state`: looks the scope up, creating an empty entry on first use. */
    method PendingState() returns (p: Pending)
      modifies shared`pendingByScope
      ensures p == PendingOf(old(shared.View()), bufferScope)
      ensures shared.pendingByScope == old(shared.pendingByScope)[bufferScope := p]
    {
      if bufferScope !in shared.pendingByScope {
        shared.pendingByScope := shared.pendingByScope[bufferScope := NOTHING_PENDING];
      }
      p := shared.pendingByScope[bufferScope];
    }

    method AddMetric(key: Key, value: real) returns (r: Output)
      modifies shared
      ensures (shared.View(), r) == Step(old(shared.View()), Add(bufferScope, key, value))
    {
      if |key| < 2 {
        return Rejected(NoSection);
      }
      r := ValidateAndAdd(key, value);
    }

    method AddCost(path: Key, value: real) returns (r: Output)
      requires |path| >= 1
      modifies shared
      ensures if path == [""] then r == Rejected(EmptyPath) && shared.View() == old(shared.View())
              else (shared.View(), r) == Step(old(shared.View()), Add(bufferScope, ["costs"] + path, value))
    {
      if path == [""] {
        return Rejected(EmptyPath);
      }
      r := AddMetric(["costs"] + path, value);
    }

    method ValidateAndAdd(key: Key, value: real) returns (r: Output)
      requires |key| >= 2
      modifies shared
      ensures (shared.View(), r) == Step(old(shared.View()), Add(bufferScope, key, value))
    {
      if IsCumulative(key) {
        return Rejected(ReservedNamespace);
      }
      var p := PendingState();
      var rest := p.buffer.Keys;
      while rest != {}
        invariant rest <= p.buffer.Keys
        invariant forall other :: other in p.buffer.Keys - rest ==> !Above(key, other) && !Above(other, key)
        decreases rest
      {
        var existing :| existing in rest;
        rest := rest - {existing};
        if existing == key {
          assert !Above(key, key);
          continue;
        }
        if Above(key, existing) {
          return Rejected(HierarchyClash);
        }
        if Above(existing, key) {
          return Rejected(HierarchyClash);
        }
      }
      assert !Refuses(p.buffer, key);
      var added := p.(buffer := p.buffer[key := Get(p.buffer, key) + value]);
      assert shared.pendingByScope[bufferScope := added] == old(shared.pendingByScope)[bufferScope := added];
      shared.pendingByScope := shared.pendingByScope[bufferScope := added];
      r := Done;
    }

    method AddScenarioIds(ids: set<string>)
      modifies shared
      ensures shared.View() == Step(old(shared.View()), AddScenarios(bufferScope, ids)).0
    {
      var p := PendingState();
      shared.pendingByScope := shared.pendingByScope[bufferScope := p.(scenarioIds := p.scenarioIds + ids)];
    }

    /** The sum the source writes as a generator over all cost leaves under one prefix. */
    static method SumBelow(costs: Metrics, parent: Key) returns (total: real)
      ensures total == Sum(Below(costs, parent))
    {
      hide Sum;
      total := 0.0;
      var rest := costs.Keys;
      SumEmpty(Below(costs - rest, parent));
      while rest != {}
        invariant rest <= costs.Keys
        invariant total == Sum(Below(costs - rest, parent))
        decreases rest
      {
        var key :| key in rest;
        var rest' := rest - {key};
        if Above(parent, key) {
          assert Below(costs - rest', parent) == Below(costs - rest, parent)[key := costs[key]];
          SumUpdate(Below(costs - rest, parent), key, costs[key]);
          total := total + costs[key];
        } else {
          assert Below(costs - rest', parent) == Below(costs - rest, parent);
        }
        rest := rest';
      }
      assert costs - rest == costs;
    }

    static method AllParents(costs: Metrics) returns (parents: set<Key>)
      requires forall k :: k in costs ==> |k| >= 2
      ensures parents == Parents(costs.Keys)
    {
      hide Parents, PrefixesTo;
      parents := {};
      var rest := costs.Keys;
      NoParents(costs.Keys - rest);
      while rest != {}
        invariant rest <= costs.Keys
        invariant parents == Parents(costs.Keys - rest)
        decreases rest
      {
        var key :| key in rest;
        PrefixesGrow(key);
        for depth := 2 to |key|
          invariant parents == Parents(costs.Keys - rest) + PrefixesTo(key, depth)
        {
          parents := parents + {key[..depth]};
        }
        ParentsGrow(costs.Keys - rest, key);
        assert costs.Keys - (rest - {key}) == (costs.Keys - rest) + {key};
        rest := rest - {key};
      }
      assert costs.Keys - rest == costs.Keys;
    }

    method ComputeRollups(costs: Metrics) returns (rollups: Metrics)
      requires CostBuffer(costs)
      ensures rollups == Rollups(costs)
    {
      hide Sum;
      if costs.Keys == {} {
        return map[];
      }
      var allParents := AllParents(costs);
      rollups := map[];
      var rest := allParents;
      while rest != {}
        invariant rest <= allParents
        invariant rollups == map p | p in allParents - rest :: Sum(Below(costs, p))
        decreases rest
      {
        var parent :| parent in rest;
        var total := SumBelow(costs, parent);
        rollups := rollups[parent := total];
        rest := rest - {parent};
      }
      var costsAll := SumTopLevel(costs, rollups);
      rollups := rollups[ALL := costsAll];
    }

    /** The source's second pass: top-level children, each a rollup if there is one and a leaf otherwise. */
    method SumTopLevel(costs: Metrics, rollups: Metrics) returns (total: real)
      requires CostBuffer(costs)
      requires rollups == RollupsByParent(costs)
      ensures total == Sum(costs)
    {
      var topLevel := set k | k in costs :: k[1];
      hide Sum, ChildValues, RollupsByParent, CostBuffer, IsPart;
      ghost var values := ChildValues(costs, ["costs"]);
      TopLevelChildren(costs);
      total := 0.0;
      var rest := topLevel;
      ghost var seen: map<string, real> := map[];
      SumEmpty(seen);
      while rest != {}
        invariant IsPart(seen, values, rest)
        invariant total == Sum(seen)
        decreases rest
      {
        var child :| child in rest;
        TopLevelValue(costs, child);
        TakeOne(seen, values, rest, child);
        if ["costs", child] in rollups {
          total := total + rollups[["costs", child]];
        } else {
          total := total + costs[["costs", child]];
        }
        rest, seen := rest - {child}, seen[child := values[child]];
      }
      IsWhole(seen, values);
      TotalIsTopLevel(costs);
    }

    /** The source's loop over a snapshot of the result: each hierarchical key joins its cumulative key. */
    method Accumulate(base: Metrics) returns (r: Result<Metrics, MetricError>)
      requires forall k :: k in base ==> |k| >= 2 && !IsCumulative(k)
      modifies shared`cumState
      ensures r.Ok?
      ensures shared.cumState == Accumulated(old(shared.cumState), base)
      ensures r.value == WithCum(base, CumKeys(base), shared.cumState)
    {
      hide Accumulated, CumKeys, WithCum, ToCumulativeKey, Sum;
      ghost var before := shared.cumState;
      var result := base;
      var rest := base.Keys;
      ghost var seen: Metrics := map[];
      NothingAccumulated(before, seen);
      NoneAdded(base, shared.cumState);
      while rest != {}
        invariant IsPart(seen, base, rest)
        invariant shared.cumState == Accumulated(before, seen)
        invariant result == WithCum(base, CumKeys(seen), shared.cumState)
        decreases rest
      {
        var key :| key in rest;
        AccumulateOne(before, seen, key, base[key]);
        ghost var keys := CumKeys(seen);
        TakeOne(seen, base, rest, key);
        rest := rest - {key};
        ghost var cum, seen' := shared.cumState, seen[key := base[key]];
        seen := seen';
        if !IsHierarchical(key) {
          assert Accumulated(before, seen') == cum;
          continue;
        }
        var cumKey := ToCumulativeKey(key);
        if cumKey.Err? {
          assert false;
          return Err(AlreadyCumulative);
        }
        var next := Get(shared.cumState, cumKey.value) + base[key];
        WithOneMore(base, keys, shared.cumState, cumKey.value, next);
        shared.cumState := shared.cumState[cumKey.value := next];
        result := result[cumKey.value := next];
        assert Accumulated(before, seen') == cum[cumKey.value := next];
      }
      IsWhole(seen, base);
      r := Ok(result);
    }

    method Flush() returns (r: Result<Metrics, MetricError>)
      requires Hierarchy(shared.View())
      modifies shared
      ensures r.Ok?
      ensures (shared.View(), Flushed(r.value)) == Step(old(shared.View()), Op.Flush(bufferScope))
    {
      hide Rollups, Accumulated, CumKeys, Throughput, WithCum, WellKeyed, CostBuffer;
      ghost var before := shared.View();
      var p := PendingState();
      AssertWellKeyed(before, bufferScope);
      BaseIsAccumulable(p.buffer);
      var costs := map k | k in p.buffer && IsCost(k) :: p.buffer[k];
      assert costs == CostsOf(p.buffer);
      var rollups := ComputeRollups(costs);
      var base := p.buffer + rollups;
      assert base == FlushBase(p.buffer);
      var accumulated := Accumulate(base);
      if accumulated.Err? {
        assert false;
        return accumulated;
      }
      var result := accumulated.value;
      assert before.unique + {} == before.unique;
      if p.scenarioIds != {} {
        shared.uniqueScenarioIds := shared.uniqueScenarioIds + p.scenarioIds;
        result := result[UNIQUE_SCENARIOS := |shared.uniqueScenarioIds| as real];
      }
      assert result == Counted(accumulated.value, shared.uniqueScenarioIds, p.scenarioIds);
      var (cum, result') := Throughput(shared.cumState, result);
      shared.cumState := cum;
      shared.pendingByScope := shared.pendingByScope[bufferScope := NOTHING_PENDING];
      r := Ok(result');
      UpdateTwice(before.pending, bufferScope, p, NOTHING_PENDING);
    }

    method StateDict() returns (cum: Metrics, unique: set<string>)
      ensures cum == shared.cumState && unique == shared.uniqueScenarioIds
    {
      cum, unique := shared.cumState, shared.uniqueScenarioIds;
    }

    method LoadStateDict(cum: Metrics, unique: set<string>)
      modifies shared
      ensures shared.View() == Step(old(shared.View()), Load(cum, unique)).0
    {
      shared.cumState := cum;
      shared.uniqueScenarioIds := unique;
      shared.pendingByScope := map[];
    }
  }
}
