/** Gathering awaitables under a budget of exceptions, which all of them share. */
module Gather {

  import opened Wrappers

  const EXCEPTIONS := "exceptions"
  const REWARD := "reward"

  datatype Trajectory = Trajectory(reward: real, metrics: map<string, real>)

  /** How one awaitable ends: with trajectories, or by raising. */
  datatype Outcome = Done(trajectories: seq<Trajectory>) | Failed

  /** The budget is a number, or a share of the progress bar's total when it lies between 0 and 1. */
  predicate TooMany(count: real, maxExceptions: real, total: Option<nat>) {
    !( || (0.0 < maxExceptions < 1.0 && total.Some? && total.value > 0
           && count / total.value as real <= maxExceptions)
       || count <= maxExceptions)
  }

  function At(sums: map<string, real>, key: string): real {
    if key in sums then sums[key] else 0.0
  }

  /** `Counter.update` */
  function Added(sums: map<string, real>, more: map<string, real>): (r: map<string, real>)
    ensures forall key :: At(r, key) == At(sums, key) + At(more, key)
  {
    map key | key in sums.Keys + more.Keys :: At(sums, key) + At(more, key)
  }

  // ---------- What a run of outcomes counts ----------

  /** What the trajectories report under a name, all together. */
  function Reported(ts: seq<Trajectory>, key: string): real {
    if ts == [] then 0.0 else Reported(ts[..|ts| - 1], key) + At(ts[|ts| - 1].metrics, key)
  }

  function Failures(outcomes: seq<Outcome>): nat {
    if outcomes == [] then 0
    else Failures(outcomes[..|outcomes| - 1]) + if outcomes[|outcomes| - 1].Failed? then 1 else 0
  }

  /** The counter that stands for the failures, with what metrics of the same name add to it. */
  function Counted(outcomes: seq<Outcome>): real {
    if outcomes == [] then 0.0
    else
      match outcomes[|outcomes| - 1]
      case Failed => Counted(outcomes[..|outcomes| - 1]) + 1.0
      case Done(ts) => Counted(outcomes[..|outcomes| - 1]) + Reported(ts, EXCEPTIONS)
  }

  /** One of the failures finds the budget spent, with the counter at `start` before them. */
  ghost predicate Raises(start: real, outcomes: seq<Outcome>, maxExceptions: real, total: Option<nat>) {
    exists k :: RaisesAt(start, outcomes, k, maxExceptions, total)
  }

  ghost predicate RaisesAt(start: real, outcomes: seq<Outcome>, k: int, maxExceptions: real, total: Option<nat>) {
    && 0 <= k < |outcomes|
    && outcomes[k].Failed?
    && TooMany(start + Counted(outcomes[..k + 1]), maxExceptions, total)
  }

  lemma CountedAppend(outcomes: seq<Outcome>, last: Outcome)
    ensures Counted(outcomes + [last]) ==
      Counted(outcomes) + if last.Failed? then 1.0 else Reported(last.trajectories, EXCEPTIONS)
  {
    assert (outcomes + [last])[..|outcomes|] == outcomes;
  }

  /** One more outcome raises if one before it did, or if it is the failure that is one too many. */
  lemma RaisesAppend(start: real, outcomes: seq<Outcome>, last: Outcome, maxExceptions: real, total: Option<nat>)
    ensures Raises(start, outcomes + [last], maxExceptions, total) <==>
      || Raises(start, outcomes, maxExceptions, total)
      || (last.Failed? && TooMany(start + Counted(outcomes + [last]), maxExceptions, total))
  {
    var longer, n := outcomes + [last], |outcomes|;
    forall k | 0 <= k < n
      ensures RaisesAt(start, longer, k, maxExceptions, total) == RaisesAt(start, outcomes, k, maxExceptions, total)
    {
      assert longer[..k + 1] == outcomes[..k + 1];
    }
    assert longer[..n + 1] == longer;
    assert RaisesAt(start, longer, n, maxExceptions, total) ==
      (last.Failed? && TooMany(start + Counted(longer), maxExceptions, total));
    if k :| RaisesAt(start, longer, k, maxExceptions, total) && k < n {
      assert RaisesAt(start, outcomes, k, maxExceptions, total);
    }
    if k :| RaisesAt(start, outcomes, k, maxExceptions, total) {
      assert RaisesAt(start, longer, k, maxExceptions, total);
    }
  }

  /** Once an outcome has raised, whatever comes after it changes nothing about that. */
  lemma RaisesStays(start: real, outcomes: seq<Outcome>, n: nat, maxExceptions: real, total: Option<nat>)
    requires n <= |outcomes| && Raises(start, outcomes[..n], maxExceptions, total)
    ensures Raises(start, outcomes, maxExceptions, total)
  {
    var k :| RaisesAt(start, outcomes[..n], k, maxExceptions, total);
    assert outcomes[..n][..k + 1] == outcomes[..k + 1];
    assert RaisesAt(start, outcomes, k, maxExceptions, total);
  }

  // ---------- Groups ----------

  /** What ends next, in a gather of groups: one trajectory of a group that is awaited one by one, or a whole
    * group that is awaited at once.
    */
  datatype Event = Single(group: nat, outcome: Option<Trajectory>) | Whole(group: nat, result: Outcome)

  function OutcomeOf(e: Event): Outcome {
    match e
    case Single(_, Some(t)) => Done([t])
    case Single(_, None) => Failed
    case Whole(_, outcome) => outcome
  }

  /** The outcomes as the shared context meets them, whichever group they belong to. */
  function Flat(events: seq<Event>): (outcomes: seq<Outcome>)
    ensures |outcomes| == |events| && forall k :: 0 <= k < |events| ==> outcomes[k] == OutcomeOf(events[k])
  {
    seq(|events|, k requires 0 <= k < |events| => OutcomeOf(events[k]))
  }

  datatype Group = Group(trajectories: seq<Trajectory>, exceptions: nat)

  /** A group after one more event; None is a group that failed as a whole, which is dropped in the end. */
  function Extended(group: Option<Group>, e: Event): Option<Group> {
    match e
    case Whole(_, Done(ts)) => Some(Group(ts, 0))
    case Whole(_, Failed) => None
    case Single(_, outcome) =>
      if group.None? then None
      else
        match outcome
        case Some(t) => Some(group.value.(trajectories := group.value.trajectories + [t]))
        case None => Some(group.value.(exceptions := group.value.exceptions + 1))
  }

  /** What the events make of one group, which begins with the exceptions it was given. */
  function GroupOf(events: seq<Event>, g: nat, given: nat): Option<Group> {
    if events == [] then Some(Group([], given))
    else
      var before := GroupOf(events[..|events| - 1], g, given);
      if events[|events| - 1].group == g then Extended(before, events[|events| - 1]) else before
  }

  /** How many events belong to this group. */
  function Submitted(events: seq<Event>, g: nat): nat {
    if events == [] then 0
    else Submitted(events[..|events| - 1], g) + if events[|events| - 1].group == g then 1 else 0
  }

  /** The trajectories of this group, in the order they ended. */
  function SuccessesOf(events: seq<Event>, g: nat): seq<Trajectory> {
    if events == [] then []
    else
      var e := events[|events| - 1];
      SuccessesOf(events[..|events| - 1], g)
      + if e.Single? && e.group == g && e.outcome.Some? then [e.outcome.value] else []
  }

  /** However the groups interleave: a group that is awaited one by one holds its successes in their order,
    * and as many trajectories and exceptions as were submitted to it and given.
    */
  lemma {:induction false} GroupIsComplete(events: seq<Event>, g: nat, given: nat)
    requires forall e :: e in events && e.group == g ==> e.Single?
    ensures GroupOf(events, g, given).Some?
    ensures var group := GroupOf(events, g, given).value;
      && group.trajectories == SuccessesOf(events, g)
      && |group.trajectories| + group.exceptions == Submitted(events, g) + given
  {
    if events == [] {
    } else {
      assert events[|events| - 1] in events;
      GroupIsComplete(events[..|events| - 1], g, given);
    }
  }

  /** A group that is awaited at once is what that event made of it. */
  lemma {:induction false} WholeGroupIsItsResult(events: seq<Event>, g: nat, given: nat, k: nat)
    requires k < |events| && events[k].Whole? && events[k].group == g
    requires forall i :: 0 <= i < |events| && i != k ==> events[i].group != g
    ensures GroupOf(events, g, given) ==
      match events[k].result case Done(ts) => Some(Group(ts, 0)) case Failed => None
  {
    if k == |events| - 1 {
    } else {
      WholeGroupIsItsResult(events[..|events| - 1], g, given, k);
    }
  }

  class GatherContext {
    var sums: map<string, real>
    var maxExceptions: real
    var total: Option<nat>

    constructor (maxExceptions: real, total: Option<nat>)
      ensures this.maxExceptions == maxExceptions && this.total == total && sums == map[]
    {
      this.sums, this.maxExceptions, this.total := map[], maxExceptions, total;
    }

    method RecordMetrics(t: Trajectory)
      modifies `sums
      ensures forall key ::
        At(sums, key) == old(At(sums, key)) + (if key == "reward" then t.reward else 0.0) + At(t.metrics, key)
    {
      ghost var before := sums;
      sums := sums[REWARD := At(sums, REWARD) + t.reward];
      assert forall key :: At(sums, key) == At(before, key) + if key == REWARD then t.reward else 0.0;
      sums := Added(sums, t.metrics);
    }

    method CountException() returns (tooMany: bool)
      modifies `sums
      ensures At(sums, EXCEPTIONS) == old(At(sums, EXCEPTIONS)) + 1.0
      ensures tooMany == TooMany(At(sums, EXCEPTIONS), maxExceptions, total)
    {
      sums := sums[EXCEPTIONS := At(sums, EXCEPTIONS) + 1.0];
      tooMany := TooMany(sums[EXCEPTIONS], maxExceptions, total);
    }

    method Reset()
      modifies this
      ensures sums == map[] && maxExceptions == 0.0 && total == None
    {
      sums, maxExceptions, total := map[], 0.0, None;
    }

    /** `wrap_trajectories_awaitable`: the exception is kept as a result while the budget lasts. */
    method Wrap(outcome: Outcome) returns (raised: bool)
      modifies `sums
      ensures At(sums, EXCEPTIONS) == old(At(sums, EXCEPTIONS)) +
                (if outcome.Failed? then 1.0 else Reported(outcome.trajectories, EXCEPTIONS))
      ensures raised == (outcome.Failed? && TooMany(At(sums, EXCEPTIONS), maxExceptions, total))
    {
      match outcome
      case Failed =>
        raised := CountException();
      case Done(ts) =>
        for k := 0 to |ts|
          invariant At(sums, EXCEPTIONS) == old(At(sums, EXCEPTIONS)) + Reported(ts[..k], EXCEPTIONS)
        {
          assert ts[..k + 1][..k] == ts[..k];
          RecordMetrics(ts[k]);
        }
        assert ts[..|ts|] == ts;
        raised := false;
    }

    /** A gather, its awaitables ending in this order; it raises as soon as one of the wrappers does. */
    method GatherAll(outcomes: seq<Outcome>) returns (raised: bool)
      modifies `sums
      ensures raised == Raises(old(At(sums, EXCEPTIONS)), outcomes, maxExceptions, total)
      ensures !raised ==> At(sums, EXCEPTIONS) == old(At(sums, EXCEPTIONS)) + Counted(outcomes)
    {
      hide Raises, Counted, TooMany;
      ghost var start := At(sums, EXCEPTIONS);
      NothingRaises(start, maxExceptions, total);
      for k := 0 to |outcomes|
        invariant At(sums, EXCEPTIONS) == start + Counted(outcomes[..k])
        invariant !Raises(start, outcomes[..k], maxExceptions, total)
      {
        assert outcomes[..k + 1] == outcomes[..k] + [outcomes[k]];
        CountedAppend(outcomes[..k], outcomes[k]);
        RaisesAppend(start, outcomes[..k], outcomes[k], maxExceptions, total);
        raised := Wrap(outcomes[k]);
        if raised {
          RaisesStays(start, outcomes, k + 1, maxExceptions, total);
          return;
        }
      }
      assert outcomes[..|outcomes|] == outcomes;
      raised := false;
    }

    /** One event of a group, under the shared counter: `wrap_group_awaitable` for a group awaited at once,
      * the group's own coroutine for one awaited one by one.
      */
    method Handle(group: Option<Group>, e: Event) returns (raised: bool, r: Option<Group>)
      modifies `sums
      ensures At(sums, EXCEPTIONS) == old(At(sums, EXCEPTIONS)) +
                (if OutcomeOf(e).Failed? then 1.0 else Reported(OutcomeOf(e).trajectories, EXCEPTIONS))
      ensures raised == (OutcomeOf(e).Failed? && TooMany(At(sums, EXCEPTIONS), maxExceptions, total))
      ensures r == Extended(group, e)
    {
      r := group;
      match e
      case Whole(_, outcome) =>
        raised := Wrap(outcome);
        r := if outcome.Failed? then None else Some(Group(outcome.trajectories, 0));
      case Single(_, Some(t)) =>
        if r.Some? {
          r := Some(r.value.(trajectories := r.value.trajectories + [t]));
        }
        RecordMetrics(t);
        raised := false;
        ReportedByOne(t, EXCEPTIONS);
      case Single(_, None) =>
        if r.Some? {
          r := Some(r.value.(exceptions := r.value.exceptions + 1));
        }
        raised := CountException();
    }

    /** A gather of groups, whose trajectories end in any interleaving, under one budget. It raises exactly
      * when one of the failures, of whatever group, finds the budget spent; otherwise each group is what the
      * events made of it.
      */
    method GatherGroups(events: seq<Event>, given: seq<nat>) returns (raised: bool, groups: seq<Option<Group>>)
      requires forall e :: e in events ==> e.group < |given|
      modifies `sums
      ensures raised == Raises(old(At(sums, EXCEPTIONS)), Flat(events), maxExceptions, total)
      ensures !raised ==> At(sums, EXCEPTIONS) == old(At(sums, EXCEPTIONS)) + Counted(Flat(events))
      ensures !raised ==> |groups| == |given|
      ensures !raised ==> forall g :: 0 <= g < |given| ==> groups[g] == GroupOf(events, g, given[g])
    {
      hide Raises, Counted, TooMany, Reported, Extended, Flat, At;
      ghost var start := At(sums, EXCEPTIONS);
      NothingRaises(start, maxExceptions, total);
      groups := seq(|given|, g requires 0 <= g < |given| => Some(Group([], given[g])));
      NothingFlat(events);
      for k := 0 to |events|
        invariant |groups| == |given|
        invariant forall g :: 0 <= g < |given| ==> groups[g] == GroupOf(events[..k], g, given[g])
        invariant At(sums, EXCEPTIONS) == start + Counted(Flat(events[..k]))
        invariant !Raises(start, Flat(events[..k]), maxExceptions, total)
      {
        var e := events[k];
        assert events[..k + 1][..k] == events[..k];
        EventStep(start, events, k, maxExceptions, total);
        var group;
        raised, group := Handle(groups[e.group], e);
        groups := groups[e.group := group];
        if raised {
          return;
        }
      }
      assert events[..|events|] == events;
      raised := false;
    }

    /** The coroutine of a group made of awaitables, which end in this order with no other group between. */
    method AwaitGroup(outcomes: seq<Option<Trajectory>>, given: nat)
      returns (raised: bool, trajectories: seq<Trajectory>, exceptions: nat)
      modifies `sums
      ensures raised == Raises(old(At(sums, EXCEPTIONS)), Flat(Singles(outcomes)), maxExceptions, total)
      ensures !raised ==> At(sums, EXCEPTIONS) == old(At(sums, EXCEPTIONS)) + Counted(Flat(Singles(outcomes)))
      ensures !raised ==> |trajectories| + exceptions == |outcomes| + given
      ensures !raised ==> trajectories == SuccessesOf(Singles(outcomes), 0)
    {
      hide Raises, Counted, TooMany, Flat, SuccessesOf, At;
      ghost var events, start := Singles(outcomes), At(sums, EXCEPTIONS);
      NothingRaises(start, maxExceptions, total);
      trajectories, exceptions := [], given;
      NothingFlat(events);
      for k := 0 to |outcomes|
        invariant |trajectories| + exceptions == k + given
        invariant trajectories == SuccessesOf(events[..k], 0)
        invariant At(sums, EXCEPTIONS) == start + Counted(Flat(events[..k]))
        invariant !Raises(start, Flat(events[..k]), maxExceptions, total)
      {
        EventStep(start, events, k, maxExceptions, total);
        SuccessStep(events, k, 0);
        match outcomes[k]
        case Some(t) =>
          trajectories := trajectories + [t];
          RecordMetrics(t);
          ReportedByOne(t, EXCEPTIONS);
        case None =>
          exceptions := exceptions + 1;
          raised := CountException();
          if raised {
            return;
          }
      }
      assert events[..|events|] == events;
      raised := false;
    }
  }

  lemma ReportedByOne(t: Trajectory, key: string)
    ensures Reported([t], key) == At(t.metrics, key)
  {
    assert [t][..0] == [];
    assert Reported([t], key) == Reported([], key) + At(t.metrics, key);
  }

  lemma NothingFlat(events: seq<Event>)
    ensures Flat(events[..0]) == [] && SuccessesOf(events[..0], 0) == []
  {
  }

  /** What one more event adds to the counter, and whether it raises. */
  lemma EventStep(start: real, events: seq<Event>, k: nat, maxExceptions: real, total: Option<nat>)
    requires k < |events|
    ensures var before, after, last := Flat(events[..k]), Flat(events[..k + 1]), OutcomeOf(events[k]);
      && Counted(after) == Counted(before) + (if last.Failed? then 1.0 else Reported(last.trajectories, EXCEPTIONS))
      && (Raises(start, after, maxExceptions, total) <==>
            || Raises(start, before, maxExceptions, total)
            || (last.Failed? && TooMany(start + Counted(after), maxExceptions, total)))
      && (Raises(start, after, maxExceptions, total) ==> Raises(start, Flat(events), maxExceptions, total))
  {
    hide Raises, Counted, TooMany, Reported;
    var before, last := Flat(events[..k]), OutcomeOf(events[k]);
    assert Flat(events[..k + 1]) == before + [last];
    assert Flat(events)[..k + 1] == before + [last];
    CountedAppend(before, last);
    RaisesAppend(start, before, last, maxExceptions, total);
    if Raises(start, before + [last], maxExceptions, total) {
      RaisesStays(start, Flat(events), k + 1, maxExceptions, total);
    }
  }

  lemma SuccessStep(events: seq<Event>, k: nat, g: nat)
    requires k < |events|
    ensures SuccessesOf(events[..k + 1], g) == SuccessesOf(events[..k], g) +
      if events[k].Single? && events[k].group == g && events[k].outcome.Some? then [events[k].outcome.value] else []
  {
    assert events[..k + 1][..k] == events[..k];
  }

  lemma NothingRaises(start: real, maxExceptions: real, total: Option<nat>)
    ensures !Raises(start, [], maxExceptions, total) && Counted([]) == 0.0
  {
  }

  /** The events of one group alone. */
  function Singles(outcomes: seq<Option<Trajectory>>): (events: seq<Event>)
    ensures |events| == |outcomes| && forall k :: 0 <= k < |events| ==> events[k] == Single(0, outcomes[k])
  {
    seq(|outcomes|, k requires 0 <= k < |outcomes| => Single(0, outcomes[k]))
  }

  // ---------- The budget ----------

  /** No result adds anything to the failure counter by metrics of its name. */
  ghost predicate CountsNone(outcomes: seq<Outcome>) {
    forall o :: o in outcomes && o.Done? ==> Reported(o.trajectories, EXCEPTIONS) == 0.0
  }

  /** Trajectories without a metric of that name report nothing under it. */
  lemma {:induction false} FreeNameReportsNone(ts: seq<Trajectory>)
    requires forall t :: t in ts ==> "exceptions" !in t.metrics
    ensures Reported(ts, EXCEPTIONS) == 0.0
  {
    if ts == [] {
    } else {
      assert ts[|ts| - 1] in ts;
      FreeNameReportsNone(ts[..|ts| - 1]);
    }
  }

  lemma {:induction false} CountsFailures(outcomes: seq<Outcome>)
    requires CountsNone(outcomes)
    ensures Counted(outcomes) == Failures(outcomes) as real
  {
    if outcomes == [] {
    } else {
      assert outcomes[|outcomes| - 1] in outcomes;
      CountsFailures(outcomes[..|outcomes| - 1]);
    }
  }

  lemma {:induction false} FailuresGrow(outcomes: seq<Outcome>, k: nat)
    requires k <= |outcomes|
    ensures Failures(outcomes[..k]) <= Failures(outcomes)
  {
    if k < |outcomes| {
      FailuresGrow(outcomes[..|outcomes| - 1], k);
      assert outcomes[..|outcomes| - 1][..k] == outcomes[..k];
    } else {
      assert outcomes[..k] == outcomes;
    }
  }

  lemma BudgetIsMonotone(a: nat, b: nat, maxExceptions: real, total: Option<nat>)
    requires a <= b && !TooMany(b as real, maxExceptions, total)
    ensures !TooMany(a as real, maxExceptions, total)
  {
    if total.Some? && total.value > 0 {
      var n := total.value as real;
      assert (b as real) / n - (a as real) / n == ((b - a) as real) / n;
      assert ((b - a) as real) / n >= 0.0;
    }
  }

  /** The index of the last failure. */
  lemma {:induction false} LastFailure(outcomes: seq<Outcome>) returns (k: nat)
    requires Failures(outcomes) > 0
    ensures k < |outcomes| && outcomes[k].Failed? && Failures(outcomes[..k + 1]) == Failures(outcomes)
  {
    var n := |outcomes| - 1;
    if outcomes[n].Failed? {
      k := n;
      assert outcomes[..k + 1] == outcomes;
    } else {
      k := LastFailure(outcomes[..n]);
      assert outcomes[..n][..k + 1] == outcomes[..k + 1];
    }
  }

  /** What the budget is for: a gather raises when there are failures, and more of them than it allows. */
  ghost predicate KeepsBudget(outcomes: seq<Outcome>, maxExceptions: real, total: Option<nat>) {
    Raises(0.0, outcomes, maxExceptions, total) <==>
      Failures(outcomes) > 0 && TooMany(Failures(outcomes) as real, maxExceptions, total)
  }

  /** In whatever order the awaitables end, a gather raises exactly when its failures exceed the budget,
    * provided that no result adds to the counter.
    */
  lemma RaisesBeyondBudget(outcomes: seq<Outcome>, maxExceptions: real, total: Option<nat>)
    requires CountsNone(outcomes)
    ensures KeepsBudget(outcomes, maxExceptions, total)
  {
    forall k | 0 <= k <= |outcomes|
      ensures Counted(outcomes[..k]) == Failures(outcomes[..k]) as real
      ensures Failures(outcomes[..k]) <= Failures(outcomes)
    {
      CountsFailures(outcomes[..k]);
      FailuresGrow(outcomes, k);
    }
    if Raises(0.0, outcomes, maxExceptions, total) {
      var k :| RaisesAt(0.0, outcomes, k, maxExceptions, total);
      assert outcomes[..k + 1][..k] == outcomes[..k];
      if !TooMany(Failures(outcomes) as real, maxExceptions, total) {
        BudgetIsMonotone(Failures(outcomes[..k + 1]), Failures(outcomes), maxExceptions, total);
      }
    }
    if Failures(outcomes) > 0 && TooMany(Failures(outcomes) as real, maxExceptions, total) {
      var k := LastFailure(outcomes);
      assert Counted(outcomes[..k + 1]) == Failures(outcomes) as real;
      assert RaisesAt(0.0, outcomes, k, maxExceptions, total);
    }
  }

  /** The same for groups: with a fresh counter, and no result that adds to it, a gather of interleaved groups
    * raises exactly when the failures of all groups together exceed the budget.
    */
  lemma GroupsShareTheBudget(events: seq<Event>, maxExceptions: real, total: Option<nat>)
    requires forall e :: e in events && OutcomeOf(e).Done? ==> Reported(OutcomeOf(e).trajectories, EXCEPTIONS) == 0.0
    ensures KeepsBudget(Flat(events), maxExceptions, total)
  {
    FlatCountsNone(events);
    RaisesBeyondBudget(Flat(events), maxExceptions, total);
  }

  lemma FlatCountsNone(events: seq<Event>)
    requires forall e :: e in events && OutcomeOf(e).Done? ==> Reported(OutcomeOf(e).trajectories, EXCEPTIONS) == 0.0
    ensures CountsNone(Flat(events))
  {
    forall o | o in Flat(events) && o.Done?
      ensures Reported(o.trajectories, EXCEPTIONS) == 0.0
    {
      var k :| 0 <= k < |events| && Flat(events)[k] == o;
      assert events[k] in events && OutcomeOf(events[k]) == o;
    }
  }

  /** What the failures may come to: a share of the total where the budget is one, a number otherwise. */
  lemma ShareIsOfTotal(outcomes: seq<Outcome>, maxExceptions: real, total: nat)
    requires CountsNone(outcomes) && 0.0 < maxExceptions < 1.0 && total > 0
    ensures Raises(0.0, outcomes, maxExceptions, Some(total)) <==>
      Failures(outcomes) as real > maxExceptions * total as real
  {
    RaisesBeyondBudget(outcomes, maxExceptions, Some(total));
    ShareInNumbers(Failures(outcomes), maxExceptions, total);
  }

  lemma ShareInNumbers(failures: nat, maxExceptions: real, total: nat)
    requires 0.0 < maxExceptions < 1.0 && total > 0
    ensures TooMany(failures as real, maxExceptions, Some(total)) <==> failures as real > maxExceptions * total as real
    ensures failures == 0 ==> !(failures as real > maxExceptions * total as real)
  {
    var n, m := total as real, maxExceptions * total as real;
    assert (failures as real / n) * n == failures as real;
    Scale(failures as real / n, maxExceptions, n);
    Scale(1.0, n, maxExceptions);
    assert m >= 0.0;
  }

  lemma Scale(x: real, y: real, n: real)
    requires n > 0.0
    ensures x <= y <==> x * n <= y * n
  {
    if x <= y {
      assert (y - x) * n >= 0.0;
    } else {
      assert (x - y) * n > 0.0;
    }
  }

  lemma NumberIsANumber(outcomes: seq<Outcome>, maxExceptions: real, total: Option<nat>)
    requires CountsNone(outcomes) && (maxExceptions <= 0.0 || maxExceptions >= 1.0 || total == None || total == Some(0))
    ensures Raises(0.0, outcomes, maxExceptions, total) <==>
      Failures(outcomes) > 0 && Failures(outcomes) as real > maxExceptions
  {
    RaisesBeyondBudget(outcomes, maxExceptions, total);
  }

  /** The same of groups, interleaved in any way. */
  lemma GroupsAndTheirShare(events: seq<Event>, maxExceptions: real, total: Option<nat>)
    requires forall e :: e in events && OutcomeOf(e).Done? ==> Reported(OutcomeOf(e).trajectories, EXCEPTIONS) == 0.0
    ensures var failures := |Failing(events)|;
      Raises(0.0, Flat(events), maxExceptions, total) <==>
        && failures > 0
        && if 0.0 < maxExceptions < 1.0 && total.Some? && total.value > 0
           then failures as real > maxExceptions * total.value as real
           else failures as real > maxExceptions
  {
    hide Raises, TooMany, Flat, Failing, CountsNone, Reported;
    FailuresAreFailing(events);
    FlatCountsNone(events);
    if 0.0 < maxExceptions < 1.0 && total.Some? && total.value > 0 {
      ShareIsOfTotal(Flat(events), maxExceptions, total.value);
      ShareInNumbers(Failures(Flat(events)), maxExceptions, total.value);
    } else {
      NumberIsANumber(Flat(events), maxExceptions, total);
    }
  }

  /** The places of the events that are failures. */
  ghost function Failing(events: seq<Event>): set<int> {
    set k | 0 <= k < |events|
      && (events[k] == Single(events[k].group, None) || events[k] == Whole(events[k].group, Failed))
  }

  lemma {:induction false} FailuresAreFailing(events: seq<Event>)
    ensures Failures(Flat(events)) == |Failing(events)|
  {
    if events == [] {
    } else {
      var n := |events| - 1;
      var init, last := events[..n], events[n];
      FailuresAreFailing(init);
      assert Flat(events)[..n] == Flat(init);
      assert Failing(events) == Failing(init) + if OutcomeOf(last).Failed? then {n} else {};
    }
  }

  /** What is reported adds up over the trajectories, in whatever way they are put together. */
  lemma {:induction false} ReportedAdds(a: seq<Trajectory>, b: seq<Trajectory>, key: string)
    ensures Reported(a + b, key) == Reported(a, key) + Reported(b, key)
    ensures forall t :: Reported([t], key) == if key in t.metrics then t.metrics[key] else 0.0
    decreases |b|
  {
    forall t
      ensures Reported([t], key) == if key in t.metrics then t.metrics[key] else 0.0
    {
      ReportedByOne(t, key);
    }
    if b == [] {
      assert a + b == a;
    } else {
      ReportedAdds(a, b[..|b| - 1], key);
      assert (a + b)[..|a + b| - 1] == a + b[..|b| - 1];
    }
  }

  /** What one more event adds to the counter: one for a failure, of a trajectory or of a whole group, and otherwise
    * what its trajectories report under the counter's name.
    */
  lemma CountedEvents(events: seq<Event>, e: Event)
    ensures Counted(Flat(events + [e])) == Counted(Flat(events)) +
      match e
      case Single(_, None) => 1.0
      case Single(_, Some(t)) => if "exceptions" in t.metrics then t.metrics["exceptions"] else 0.0
      case Whole(_, Failed) => 1.0
      case Whole(_, Done(ts)) => Reported(ts, "exceptions")
  {
    var longer := events + [e];
    assert Flat(longer) == Flat(events) + [OutcomeOf(e)];
    CountedAppend(Flat(events), OutcomeOf(e));
    if e.Single? && e.outcome.Some? {
      ReportedByOne(e.outcome.value, "exceptions");
    }
  }

  // ---------- When the budget holds ----------

  /** The awaitables that do not fail give results of this kind. */
  ghost predicate DrawnFrom(outcomes: seq<Outcome>, results: iset<seq<Trajectory>>) {
    forall o :: o in outcomes && o.Done? ==> o.trajectories in results
  }

  /** What one result and one failure after it make of the counter. */
  lemma ResultThenFailure(ts: seq<Trajectory>, maxExceptions: real)
    ensures var outcomes := [Done(ts), Failed];
      && Failures(outcomes) == 1
      && (Raises(0.0, outcomes, maxExceptions, None) <==> 1.0 + Reported(ts, EXCEPTIONS) > maxExceptions)
  {
    hide TooMany, Reported, Counted, Raises;
    var result, outcomes := [Done(ts)], [Done(ts), Failed];
    assert [] + result == result && result + [Failed] == outcomes;
    NothingRaises(0.0, maxExceptions, None);
    CountedAppend([], Done(ts));
    CountedAppend(result, Failed);
    RaisesAppend(0.0, [], Done(ts), maxExceptions, None);
    RaisesAppend(0.0, result, Failed, maxExceptions, None);
    NumberBudget(1.0 + Reported(ts, EXCEPTIONS), maxExceptions);
    assert outcomes[..1] == result && result[..0] == [];
    assert Failures(outcomes) == Failures(result) + 1 && Failures(result) == Failures([]);
  }

  lemma NumberBudget(count: real, maxExceptions: real)
    ensures TooMany(count, maxExceptions, None) <==> count > maxExceptions
  {
  }

  /** The budget holds for all gathers of such results, in every order, with any failures between and whatever
    * the budget is, exactly when each of the results reports 0 under the counter's name. A single other result
    * is enough to break it, with one failure after it.
    */
  lemma BudgetHoldsIff(results: iset<seq<Trajectory>>)
    ensures (forall outcomes, maxExceptions, total :: DrawnFrom(outcomes, results) ==>
               KeepsBudget(outcomes, maxExceptions, total))
      <==> (forall ts :: ts in results ==> Reported(ts, "exceptions") == 0.0)
  {
    hide Reported, KeepsBudget;
    if forall ts :: ts in results ==> Reported(ts, EXCEPTIONS) == 0.0 {
      forall outcomes, maxExceptions, total | DrawnFrom(outcomes, results)
        ensures KeepsBudget(outcomes, maxExceptions, total)
      {
        RaisesBeyondBudget(outcomes, maxExceptions, total);
      }
    }
    forall ts | ts in results && Reported(ts, EXCEPTIONS) != 0.0
      ensures exists outcomes, maxExceptions, total ::
        DrawnFrom(outcomes, results) && !KeepsBudget(outcomes, maxExceptions, total)
    {
      assert DrawnFrom([Done(ts), Failed], results);
      BudgetBroken(ts);
    }
  }

  /** A result that reports anything but 0 under the counter's name, and the budget that it breaks. */
  lemma BudgetBroken(ts: seq<Trajectory>)
    requires Reported(ts, EXCEPTIONS) != 0.0
    ensures var reported := Reported(ts, EXCEPTIONS);
      !KeepsBudget([Done(ts), Failed], if reported > 0.0 then 1.0 else 1.0 + reported, None)
  {
    hide Reported, Raises;
    var budget := if Reported(ts, EXCEPTIONS) > 0.0 then 1.0 else 1.0 + Reported(ts, EXCEPTIONS);
    ResultThenFailure(ts, budget);
    NumberBudget(1.0, budget);
  }

  /** A trajectory metric named like the counter is counted as failures: a gather that raises within its
    * budget of one failure.
    */
  lemma MetricSpendsTheBudget()
    ensures var outcomes := [Done([Trajectory(0.0, map["exceptions" := 1.0])]), Failed];
      && Raises(0.0, outcomes, 1.0, None)
      && Failures(outcomes) == 1 && !TooMany(1.0, 1.0, None)
  {
    var t := Trajectory(0.0, map[EXCEPTIONS := 1.0]);
    ReportedByOne(t, EXCEPTIONS);
    ResultThenFailure([t], 1.0);
  }
}
