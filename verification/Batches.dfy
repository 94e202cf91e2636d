/** Batches of groups out of a bounded number of running tasks, under one budget of exceptions. */
module Batches {

  import opened Wrappers
  import opened Gather

  /** What a task awaits: a group at once, or the members of one as they end, in this order. A `broken` task of
    * the second kind raises in the end where nothing counts it, as one does with a member that is no awaitable.
    */
  datatype Task =
    | AtOnce(id: nat, result: Outcome)
    | OneByOne(id: nat, members: seq<Option<Trajectory>>, given: nat, broken: bool)

  /** A task that has met some of its events, and the group it has so far. */
  datatype Running = Running(task: Task, met: nat, group: Option<Group>)

  function Script(task: Task): seq<Event> {
    match task
    case AtOnce(_, result) => [Whole(0, result)]
    case OneByOne(_, members, _, _) => Singles(members)
  }

  function Given(task: Task): nat {
    if task.OneByOne? then task.given else 0
  }

  predicate Broken(task: Task) {
    task.OneByOne? && task.broken
  }

  /** The group that comes of a task; None for one that failed as a whole. */
  function Made(task: Task): Option<Group> {
    if Broken(task) then None else GroupOf(Script(task), 0, Given(task))
  }

  /** What comes of each kind of task: a group awaited at once is its result, one awaited member by member has its
    * successes in their order, and an exception for every other member on top of those it was given.
    */
  lemma TaskMakes(task: Task)
    ensures task.AtOnce? && task.result.Failed? ==> Made(task) == None
    ensures task.AtOnce? && task.result.Done? ==> Made(task) == Some(Group(task.result.trajectories, 0))
    ensures task.OneByOne? && task.broken ==> Made(task) == None
    ensures task.OneByOne? && !task.broken ==>
      && Made(task).Some?
      && Made(task).value.trajectories == SuccessesOf(Singles(task.members), 0)
      && |Made(task).value.trajectories| + Made(task).value.exceptions == |task.members| + task.given
  {
    match task
    case AtOnce(_, result) => WholeGroupIsItsResult([Whole(0, result)], 0, 0, 0);
    case OneByOne(_, members, given, _) =>
      GroupIsComplete(Singles(members), 0, given);
      AllSubmitted(Singles(members));
  }

  lemma {:induction false} AllSubmitted(events: seq<Event>)
    requires forall k :: 0 <= k < |events| ==> events[k].group == 0
    ensures Submitted(events, 0) == |events|
  {
    if events == [] {
    } else {
      AllSubmitted(events[..|events| - 1]);
    }
  }

  function Fresh(task: Task): Running {
    Running(task, 0, Some(Group([], Given(task))))
  }

  /** The outcome that a running task meets next, if there is one left. */
  function Ahead(r: Running): (outcomes: seq<Outcome>)
    ensures |outcomes| <= 1
  {
    if r.met < |Script(r.task)| then [OutcomeOf(Script(r.task)[r.met])] else []
  }

  predicate Ends(r: Running) {
    r.met + 1 >= |Script(r.task)|
  }

  function Stepped(r: Running): Running {
    if r.met < |Script(r.task)| then r.(met := r.met + 1, group := Extended(r.group, Script(r.task)[r.met])) else r
  }

  /** It has met less than everything, and has the group that its events make. */
  ghost predicate Sound(r: Running) {
    && (r.met == 0 || r.met < |Script(r.task)|)
    && r.group == GroupOf(Script(r.task)[..r.met], 0, Given(r.task))
  }

  lemma FreshIsSound(task: Task)
    ensures Sound(Fresh(task))
  {
  }

  lemma SteppedIsSound(r: Running)
    requires Sound(r)
    ensures !Ends(r) ==> Sound(Stepped(r))
    ensures Ends(r) && !Broken(r.task) ==> Stepped(r).group == Made(r.task)
  {
    hide Extended;
    var script := Script(r.task);
    if r.met < |script| {
      assert script[..r.met + 1][..r.met] == script[..r.met];
      OwnEvent(r.task, r.met);
      assert script[..|script|] == script;
    } else {
      assert script == [] == script[..r.met];
    }
  }

  lemma OwnEvent(task: Task, k: nat)
    requires k < |Script(task)|
    ensures Script(task)[k].group == 0
  {
  }

  // ---------- What happens in a wait ----------

  /** The tasks running, those that have ended, in the order in which they are taken, and the outcomes met since
    * the last batch.
    */
  datatype Progress = Progress(pending: seq<Running>, ended: seq<Task>, spell: seq<Outcome>)

  /** One running task meets its next event, and is done after its last. */
  function Happened(p: Progress, k: nat): Progress
    requires k < |p.pending|
  {
    var r := p.pending[k];
    if Ends(r)
    then Progress(p.pending[..k] + p.pending[k + 1..], p.ended + [r.task], p.spell + Ahead(r))
    else Progress(p.pending[k := Stepped(r)], p.ended, p.spell + Ahead(r))
  }

  /** That event raises: it is one failure too many, or nothing counts it. */
  ghost predicate Raising(spell: seq<Outcome>, r: Running, budget: real, batchSize: nat) {
    Raises(0.0, spell, budget, Some(batchSize)) || (Ends(r) && Broken(r.task))
  }

  function Left(r: Running): (n: nat)
    ensures n > 0
  {
    if r.met < |Script(r.task)| then |Script(r.task)| - r.met else 1
  }

  function Work(pending: seq<Running>): nat {
    if pending == [] then 0 else Work(pending[..|pending| - 1]) + Left(pending[|pending| - 1])
  }

  lemma {:induction false} WorkConcat(a: seq<Running>, b: seq<Running>)
    ensures Work(a + b) == Work(a) + Work(b)
    decreases |b|
  {
    if b == [] {
      assert a + b == a;
    } else {
      WorkConcat(a, b[..|b| - 1]);
      assert (a + b)[..|a + b| - 1] == a + b[..|b| - 1];
    }
  }

  lemma WorkOfOne(r: Running)
    ensures Work([r]) == Left(r)
  {
    assert [r][..0] == [];
  }

  lemma WorkDrops(p: Progress, k: nat)
    requires k < |p.pending|
    ensures Work(Happened(p, k).pending) < Work(p.pending)
  {
    hide Work, Left;
    var a, r, b := p.pending[..k], p.pending[k], p.pending[k + 1..];
    assert p.pending == a + ([r] + b);
    WorkConcat(a, [r] + b);
    WorkConcat([r], b);
    WorkOfOne(r);
    if Ends(r) {
      WorkConcat(a, b);
    } else {
      var s := Stepped(r);
      assert p.pending[k := s] == a + ([s] + b);
      WorkConcat(a, [s] + b);
      WorkConcat([s], b);
      WorkOfOne(s);
      LeftDrops(r);
    }
  }

  lemma LeftDrops(r: Running)
    requires !Ends(r)
    ensures Left(Stepped(r)) < Left(r)
  {
  }

  /** A wait: these tasks are the next to meet an event, one after the other, until something raises, or one task
    * at least has ended and no pick is left. Out of picks, the first task goes on. `some`: one has ended.
    */
  ghost function Waited(p: Progress, picks: seq<nat>, some: bool, budget: real, batchSize: nat): (Progress, bool)
    decreases Work(p.pending)
  {
    if p.pending == [] || (picks == [] && some) then (p, false)
    else
      var k := if picks == [] then 0 else picks[0] % |p.pending|;
      var q, r := Happened(p, k), p.pending[k];
      if Raising(q.spell, r, budget, batchSize) then (q, true)
      else
        WorkDrops(p, k);
        Waited(q, if picks == [] then [] else picks[1..], some || Ends(r), budget, batchSize)
  }

  // ---------- What is kept ----------

  function Tasks(pending: seq<Running>): (tasks: seq<Task>)
    ensures |tasks| == |pending| && forall k :: 0 <= k < |tasks| ==> tasks[k] == pending[k].task
  {
    seq(|pending|, k requires 0 <= k < |pending| => pending[k].task)
  }

  function GroupsMade(task: Task): (groups: seq<Group>)
    ensures |groups| <= 1
  {
    match Made(task) case Some(g) => [g] case None => []
  }

  function Groups(tasks: seq<Task>): (groups: seq<Group>)
    ensures |groups| <= |tasks|
  {
    if tasks == [] then [] else Groups(tasks[..|tasks| - 1]) + GroupsMade(tasks[|tasks| - 1])
  }

  function Flatten(batches: seq<seq<Group>>): seq<Group> {
    if batches == [] then [] else Flatten(batches[..|batches| - 1]) + batches[|batches| - 1]
  }

  lemma MoreGroups(tasks: seq<Task>, t: Task)
    ensures Groups(tasks + [t]) == Groups(tasks) + GroupsMade(t)
  {
    assert (tasks + [t])[..|tasks|] == tasks;
  }

  /** The three parts are the input, in some order. */
  ghost predicate Accounted(input: seq<Task>, ended: seq<Task>, pending: seq<Running>, unstarted: seq<Task>) {
    multiset(ended) + multiset(Tasks(pending)) + multiset(unstarted) == multiset(input)
  }

  lemma StartAccounts(input: seq<Task>, ended: seq<Task>, pending: seq<Running>, unstarted: seq<Task>)
    requires Accounted(input, ended, pending, unstarted) && unstarted != []
    ensures Accounted(input, ended, pending + [Fresh(unstarted[0])], unstarted[1..])
    ensures Tasks(pending + [Fresh(unstarted[0])]) + unstarted[1..] == Tasks(pending) + unstarted
  {
    assert unstarted == [unstarted[0]] + unstarted[1..];
    assert Tasks(pending + [Fresh(unstarted[0])]) == Tasks(pending) + [unstarted[0]];
  }

  lemma HappenedAccounts(input: seq<Task>, p: Progress, unstarted: seq<Task>, k: nat)
    requires k < |p.pending| && Accounted(input, p.ended, p.pending, unstarted)
    ensures Accounted(input, Happened(p, k).ended, Happened(p, k).pending, unstarted)
  {
    hide Ends;
    var tasks, q := Tasks(p.pending), Happened(p, k);
    assert tasks == tasks[..k] + [tasks[k]] + tasks[k + 1..];
    if Ends(p.pending[k]) {
      assert Tasks(q.pending) == tasks[..k] + tasks[k + 1..];
    } else {
      assert Tasks(q.pending) == tasks;
    }
  }

  lemma AllEnded(input: seq<Task>, ended: seq<Task>)
    requires Accounted(input, ended, [], [])
    ensures multiset(ended) == multiset(input)
  {
    assert Tasks([]) == [];
  }

  /** How often this outcome is in the scripts of these tasks. */
  ghost function Scripted(tasks: seq<Task>, o: Outcome): nat {
    if tasks == [] then 0
    else Scripted(tasks[..|tasks| - 1], o) + multiset(Flat(Script(tasks[|tasks| - 1])))[o]
  }

  ghost function MetByOne(r: Running, o: Outcome): nat {
    multiset(Flat(Script(r.task))[..if r.met < |Script(r.task)| then r.met else |Script(r.task)|])[o]
  }

  /** How often running tasks have met this outcome. */
  ghost function MetBy(pending: seq<Running>, o: Outcome): nat {
    if pending == [] then 0 else MetBy(pending[..|pending| - 1], o) + MetByOne(pending[|pending| - 1], o)
  }

  lemma {:induction false} MetConcat(a: seq<Running>, b: seq<Running>, o: Outcome)
    ensures MetBy(a + b, o) == MetBy(a, o) + MetBy(b, o)
    decreases |b|
  {
    hide MetByOne;
    if b == [] {
      assert a + b == a;
    } else {
      MetConcat(a, b[..|b| - 1], o);
      assert (a + b)[..|a + b| - 1] == a + b[..|b| - 1];
    }
  }

  lemma MetAround(a: seq<Running>, r: Running, b: seq<Running>, o: Outcome)
    ensures MetBy(a + ([r] + b), o) == MetBy(a, o) + MetByOne(r, o) + MetBy(b, o)
  {
    hide MetByOne;
    MetConcat(a, [r] + b, o);
    MetConcat([r], b, o);
    assert [r][..0] == [];
  }

  lemma AheadIsMet(r: Running, o: Outcome)
    requires Sound(r)
    ensures !Ends(r) ==> MetByOne(Stepped(r), o) == MetByOne(r, o) + multiset(Ahead(r))[o]
    ensures Ends(r) ==> multiset(Flat(Script(r.task)))[o] == MetByOne(r, o) + multiset(Ahead(r))[o]
    ensures r.met == 0 ==> MetByOne(r, o) == 0
  {
    var outcomes := Flat(Script(r.task));
    if r.met < |outcomes| {
      assert outcomes[..r.met + 1] == outcomes[..r.met] + Ahead(r);
      assert outcomes[..|outcomes|] == outcomes;
    }
  }

  /** How often this outcome was met, in all spells. */
  ghost function AllMet(spells: seq<seq<Outcome>>, o: Outcome): nat {
    if spells == [] then 0 else AllMet(spells[..|spells| - 1], o) + multiset(spells[|spells| - 1])[o]
  }

  /** Every outcome met belongs to one spell between two batches, and to one task that has met it. */
  ghost predicate Conserved(spells: seq<seq<Outcome>>, ended: seq<Task>, pending: seq<Running>) {
    forall o :: AllMet(spells, o) == Scripted(ended, o) + MetBy(pending, o)
  }

  lemma StartConserves(spells: seq<seq<Outcome>>, ended: seq<Task>, pending: seq<Running>, task: Task)
    requires Conserved(spells, ended, pending)
    ensures Conserved(spells, ended, pending + [Fresh(task)])
  {
    hide MetBy, AllMet, Scripted;
    forall o
      ensures AllMet(spells, o) == Scripted(ended, o) + MetBy(pending + [Fresh(task)], o)
    {
      MetAround(pending, Fresh(task), [], o);
      assert pending + ([Fresh(task)] + []) == pending + [Fresh(task)];
      assert MetBy([], o) == 0 by { NobodyMet(o); }
      FreshIsSound(task);
      AheadIsMet(Fresh(task), o);
    }
  }

  lemma NobodyMet(o: Outcome)
    ensures MetBy([], o) == 0 && AllMet([], o) == 0
  {
  }

  lemma LastSpellGrows(spells: seq<seq<Outcome>>, more: seq<Outcome>, o: Outcome)
    requires spells != []
    ensures var last := |spells| - 1;
      AllMet(spells[last := spells[last] + more], o) == AllMet(spells, o) + multiset(more)[o]
  {
    var last := |spells| - 1;
    assert spells[last := spells[last] + more][..last] == spells[..last];
  }

  /** What the happening of one event does to the two sides. */
  lemma HappenedConserves(spells: seq<seq<Outcome>>, p: Progress, k: nat)
    requires k < |p.pending| && spells != [] && spells[|spells| - 1] == p.spell && Sound(p.pending[k])
    requires Conserved(spells, p.ended, p.pending)
    ensures var q := Happened(p, k);
      Conserved(spells[|spells| - 1 := q.spell], q.ended, q.pending)
  {
    hide MetBy, MetByOne, Sound, AllMet, Ahead, Ends, Stepped, Script;
    var a, r, b, q := p.pending[..k], p.pending[k], p.pending[k + 1..], Happened(p, k);
    assert p.pending == a + ([r] + b);
    forall o
      ensures AllMet(spells[|spells| - 1 := q.spell], o) == Scripted(q.ended, o) + MetBy(q.pending, o)
    {
      MetAround(a, r, b, o);
      AheadIsMet(r, o);
      LastSpellGrows(spells, Ahead(r), o);
      if Ends(r) {
        MetConcat(a, b, o);
        assert (p.ended + [r.task])[..|p.ended|] == p.ended;
      } else {
        assert p.pending[k := Stepped(r)] == a + ([Stepped(r)] + b);
        MetAround(a, Stepped(r), b, o);
      }
    }
  }

  /** What was yielded, with what waits to be, is what the ended tasks made, in their order. */
  ghost predicate InOrder(yielded: seq<seq<Group>>, batch: seq<Group>, ended: seq<Task>) {
    Flatten(yielded) + batch == Groups(ended)
  }

  lemma EndInOrder(yielded: seq<seq<Group>>, batch: seq<Group>, ended: seq<Task>, task: Task)
    requires InOrder(yielded, batch, ended)
    ensures InOrder(yielded, batch + GroupsMade(task), ended + [task])
  {
    MoreGroups(ended, task);
    assert Flatten(yielded) + (batch + GroupsMade(task)) == (Flatten(yielded) + batch) + GroupsMade(task);
  }

  lemma YieldInOrder(yielded: seq<seq<Group>>, batch: seq<Group>, ended: seq<Task>, n: nat)
    requires InOrder(yielded, batch, ended) && n <= |batch|
    ensures InOrder(yielded + [batch[..n]], batch[n..], ended)
  {
    assert (yielded + [batch[..n]])[..|yielded|] == yielded;
    assert batch == batch[..n] + batch[n..];
    assert Flatten(yielded) + (batch[..n] + batch[n..]) == (Flatten(yielded) + batch[..n]) + batch[n..];
  }

  /** The first batch was full after `early` tasks had ended, and not before the last wait for some of these; all
    * that these tasks met counts against the budget given.
    */
  ghost predicate FirstFull(ended: seq<Task>, early: nat, first: seq<Outcome>, batchSize: nat, limit: nat) {
    && early <= |ended|
    && batchSize <= |Groups(ended[..early])|
    && (forall o :: Scripted(ended[..early], o) <= multiset(first)[o])
    && exists before: nat :: before < early <= before + limit && |Groups(ended[..before])| < batchSize
  }

  lemma FirstFullStays(ended: seq<Task>, more: seq<Task>, early: nat, first: seq<Outcome>, batchSize: nat, limit: nat)
    requires FirstFull(ended, early, first, batchSize, limit) && ended <= more
    ensures FirstFull(more, early, first, batchSize, limit)
  {
    var before: nat :| before < early <= before + limit && |Groups(ended[..before])| < batchSize;
    assert more[..early] == ended[..early];
    assert more[..before] == ended[..before];
  }

  /** The budget given lasts until the first batch; after it there is none. */
  function Budget(maxExceptions: real, batches: nat): real {
    if batches == 0 then maxExceptions else 0.0
  }

  /** No failure of these spells was one too many. */
  ghost predicate Tolerated(spells: seq<seq<Outcome>>, maxExceptions: real, batchSize: nat) {
    forall i :: 0 <= i < |spells| ==> !Raises(0.0, spells[i], Budget(maxExceptions, i), Some(batchSize))
  }

  /** Unless results add to the counter: the spell before the first batch keeps to the budget, and any later one
    * is tolerated exactly when nothing fails in it.
    */
  lemma NoFailureAfterABatch(spell: seq<Outcome>, maxExceptions: real, batches: nat, batchSize: nat)
    requires CountsNone(spell)
    ensures Raises(0.0, spell, Budget(maxExceptions, batches), Some(batchSize)) <==>
      && Failures(spell) > 0
      && (batches == 0 ==>
            Failures(spell) as real >
              if 0.0 < maxExceptions < 1.0 && batchSize > 0 then maxExceptions * batchSize as real else maxExceptions)
  {
    if batches == 0 && 0.0 < maxExceptions < 1.0 && batchSize > 0 {
      ShareIsOfTotal(spell, maxExceptions, batchSize);
      ShareInNumbers(Failures(spell), maxExceptions, batchSize);
    } else {
      NumberIsANumber(spell, Budget(maxExceptions, batches), Some(batchSize));
    }
  }

  /** The last spell goes on, without a failure too many. */
  lemma LastIsTolerated(spells: seq<seq<Outcome>>, spell: seq<Outcome>, maxExceptions: real, batchSize: nat)
    requires spells != [] && Tolerated(spells, maxExceptions, batchSize)
    ensures var last := |spells| - 1;
      && !Raises(0.0, spells[last], Budget(maxExceptions, last), Some(batchSize))
      && (Tolerated(spells[last := spell], maxExceptions, batchSize) <==>
            !Raises(0.0, spell, Budget(maxExceptions, last), Some(batchSize)))
  {
    hide Raises;
    var last := |spells| - 1;
    assert spells[last := spell][last] == spell;
  }

  class Batcher {
    const batchSize: nat
    const maxConcurrent: nat
    const maxExceptions: real
    const context: GatherContext
    /** The groups to make, after the batches that are skipped. */
    ghost const input: seq<Task>

    var unstarted: seq<Task>
    var pending: seq<Running>
    var batch: seq<Group>
    var yielded: seq<seq<Group>>
    /** The tasks that have ended, as the loop takes them, and how many had when the first batch was yielded. */
    ghost var ended: seq<Task>
    ghost var early: nat
    /** The outcomes met before the first batch, between the first and the second, and so on. */
    ghost var spells: seq<seq<Outcome>>

    ghost predicate Valid()
      reads this, context
    {
      && batchSize > 0 && maxConcurrent > 0
      // nothing is lost, made up or run twice
      && Accounted(input, ended, pending, unstarted)
      && (forall r :: r in pending ==> Sound(r))
      // at no time do more tasks run than are allowed to
      && |pending| <= batchSize * maxConcurrent
      // the groups come out once each, in the order in which their tasks were taken
      && InOrder(yielded, batch, ended)
      // every outcome of every task counts once, in the spell in which it was met
      && |spells| == |yielded| + 1
      && Conserved(spells, ended, pending)
      && At(context.sums, EXCEPTIONS) == Counted(spells[|yielded|])
      && context.maxExceptions == Budget(maxExceptions, |yielded|)
      && (context.total == None || context.total == Some(batchSize))
      // nothing has raised
      && Tolerated(spells, maxExceptions, batchSize)
      && (forall t :: t in ended ==> !Broken(t))
      && (yielded != [] ==> FirstFull(ended, early, spells[0], batchSize, batchSize * maxConcurrent))
    }

    ghost function Now(): Progress
      requires |yielded| < |spells|
      reads this
    {
      Progress(pending, ended, spells[|yielded|])
    }

    /** Every batch so far is a full one. */
    ghost predicate FullBatches()
      reads this
    {
      forall b :: b in yielded ==> |b| == batchSize
    }

    constructor (groups: seq<Task>, batchSize: nat, maxConcurrent: nat, maxExceptions: real, skip: nat)
      requires batchSize > 0 && maxConcurrent > 0
      ensures Valid() && yielded == [] && pending == [] && batch == [] && ended == [] && spells == [[]]
      ensures this.batchSize == batchSize && this.maxConcurrent == maxConcurrent && this.maxExceptions == maxExceptions
      ensures input == if batchSize * skip <= |groups| then groups[batchSize * skip..] else []
      ensures unstarted == input && fresh(context)
    {
      this.batchSize, this.maxConcurrent, this.maxExceptions := batchSize, maxConcurrent, maxExceptions;
      context := new GatherContext(maxExceptions, None);
      var rest := if batchSize * skip <= |groups| then groups[batchSize * skip..] else [];
      unstarted, input, pending, batch, yielded, ended := rest, rest, [], [], [], [];
      spells, early := [[]], 0;
      new;
      NothingRaises(0.0, maxExceptions, Some(batchSize));
      assert Tasks([]) == [];
      NothingMet();
    }

    /** The beginning of a round: the progress bar, and tasks from the front while there is room. */
    method StartTasks()
      requires Valid()
      modifies `unstarted, `pending, context`total
      ensures Valid() && context.total == Some(batchSize)
      ensures Tasks(pending) + unstarted == old(Tasks(pending) + unstarted)
      ensures unstarted == [] || |pending| == batchSize * maxConcurrent
      ensures old(pending) <= pending
    {
      hide Accounted, InOrder, Conserved, Tolerated, FirstFull, Sound, Broken;
      if context.total.None? {
        context.total := Some(batchSize);
      }
      while |pending| < batchSize * maxConcurrent && unstarted != []
        invariant Valid() && context.total == Some(batchSize)
        invariant Tasks(pending) + unstarted == old(Tasks(pending) + unstarted)
        invariant old(pending) <= pending
        decreases |unstarted|
      {
        StartAccounts(input, ended, pending, unstarted);
        StartConserves(spells, ended, pending, unstarted[0]);
        FreshIsSound(unstarted[0]);
        pending, unstarted := pending + [Fresh(unstarted[0])], unstarted[1..];
      }
    }

    /** One running task meets its next event, under the shared counter. After its last it is done: its group
      * joins the batch, unless it failed as a whole.
      */
    method Happen(k: nat) returns (raised: bool)
      requires Valid() && k < |pending| && context.total == Some(batchSize)
      modifies `pending, `batch, `ended, `spells, context`sums
      ensures !raised ==> Valid()
      ensures |spells| == |old(spells)| && Now() == Happened(old(Now()), k)
      ensures spells == old(spells)[|yielded| := Now().spell]
      ensures raised == Raising(Now().spell, old(pending)[k], Budget(maxExceptions, |yielded|), batchSize)
    {
      hide Accounted, InOrder, Conserved, FirstFull, Sound, Raises, Counted, TooMany, Reported, At, Tolerated, Extended;
      ghost var now := Now();
      var r := pending[k];
      HappenedAccounts(input, now, unstarted, k);
      HappenedConserves(spells, now, k);
      SteppedIsSound(r);
      EndInOrder(yielded, batch, ended, r.task);
      if yielded != [] {
        FirstFullStays(ended, Happened(now, k).ended, early, spells[0], batchSize, batchSize * maxConcurrent);
      }
      var s := r;
      raised := false;
      if r.met < |Script(r.task)| {
        var e := Script(r.task)[r.met];
        CountedAppend(now.spell, OutcomeOf(e));
        RaisesAppend(0.0, now.spell, OutcomeOf(e), context.maxExceptions, Some(batchSize));
        var group;
        raised, group := context.Handle(r.group, e);
        s := r.(met := r.met + 1, group := group);
      } else {
        assert now.spell + Ahead(r) == now.spell;
      }
      LastIsTolerated(spells, now.spell + Ahead(r), maxExceptions, batchSize);
      spells := spells[|yielded| := now.spell + Ahead(r)];
      if Ends(r) {
        pending, ended := pending[..k] + pending[k + 1..], ended + [r.task];
        if !raised && Broken(r.task) {
          raised := true;
        }
        if !raised {
          batch := batch + match s.group case Some(g) => [g] case None => [];
        }
      } else {
        pending := pending[k := s];
      }
    }

    /** `asyncio.wait(pending, return_when=FIRST_COMPLETED)`, and the results of what is done. */
    method Wait(picks: seq<nat>) returns (raised: bool)
      requires Valid() && pending != [] && context.total == Some(batchSize)
      modifies `pending, `batch, `ended, `spells, context`sums
      ensures !raised ==> Valid() && |old(ended)| < |ended|
      ensures |ended| + |pending| == |old(ended)| + old(|pending|) && old(ended) <= ended
      ensures |spells| == |old(spells)| && spells == old(spells)[|yielded| := Now().spell]
      ensures raised ==> Untolerated()
      ensures (Now(), raised) == Waited(old(Now()), picks, false, Budget(maxExceptions, |yielded|), batchSize)
    {
      hide Accounted, InOrder, Conserved, FirstFull, Sound, Raises, Tolerated, Ends, Broken, Waited, Happened, Raising,
        Work;
      ghost var start, budget := Now(), Budget(maxExceptions, |yielded|);
      var m, some := 0, false;
      raised := false;
      while !raised && pending != [] && (m < |picks| || !some)
        invariant m <= |picks| && |spells| == |old(spells)|
        invariant !raised ==> Valid() && context.total == Some(batchSize)
        invariant |ended| + |pending| == |old(ended)| + old(|pending|) && old(ended) <= ended
        invariant !raised && some ==> |old(ended)| < |ended|
        invariant spells == old(spells)[|yielded| := Now().spell]
        invariant raised ==> Untolerated()
        invariant Waited(start, picks, false, budget, batchSize)
               == if raised then (Now(), true) else Waited(Now(), picks[m..], some, budget, batchSize)
        decreases Work(pending)
      {
        var k := if m < |picks| then picks[m] % |pending| else 0;
        ghost var now := Now();
        assert m < |picks| ==> picks[m..][0] == picks[m] && picks[m..][1..] == picks[m + 1..];
        WaitedOn(now, picks[m..], some, k, budget, batchSize);
        some := some || Ends(pending[k]);
        raised := Happen(k);
        m := if m < |picks| then m + 1 else m;
      }
      if !raised {
        WaitedOut(Now(), picks[m..], some, budget, batchSize);
      }
    }

    /** Something has raised: a failure too many, or a task that raises where nothing counts it. */
    ghost predicate Untolerated()
      reads this
    {
      && |spells| == |yielded| + 1
      && ( || Raises(0.0, spells[|yielded|], Budget(maxExceptions, |yielded|), Some(batchSize))
           || (ended != [] && Broken(ended[|ended| - 1])))
    }

    /** The batch leaves once it is full; the rest stays for the next one. */
    method YieldIfFull(ghost before: nat)
      requires Valid() && FullBatches()
      requires before < |ended| <= before + batchSize * maxConcurrent
      requires yielded == [] ==> |Groups(ended[..before])| < batchSize
      modifies `batch, `yielded, `early, `spells, context
      ensures Valid() && FullBatches()
      ensures old(|batch|) >= batchSize ==>
        && yielded == old(yielded) + [old(batch)[..batchSize]] && batch == old(batch)[batchSize..]
        && spells == old(spells) + [[]]
      ensures old(|batch|) < batchSize ==> yielded == old(yielded) && batch == old(batch) && spells == old(spells)
    {
      hide Accounted, InOrder, Groups, Conserved, Sound, FirstFull, Tolerated, Broken, Raises;
      if |batch| >= batchSize {
        YieldInOrder(yielded, batch, ended, batchSize);
        if yielded == [] {
          early := |ended|;
          FillsFirst(batch, ended, pending, spells, before, batchSize, batchSize * maxConcurrent);
        }
        NextSpell(spells, ended, pending, maxExceptions, batchSize);
        yielded, batch := yielded + [batch[..batchSize]], batch[batchSize..];
        spells := spells + [[]];
        context.Reset();
      }
    }

    /** What waits for the next batch is less than one, unless several batches of tasks run at a time. */
    ghost predicate ShortBatch()
      reads this
    {
      maxConcurrent == 1 || yielded == [] ==> |batch| < batchSize
    }

    /** The body of the loop. */
    method Advance(picks: seq<nat>) returns (raised: bool)
      requires Valid() && FullBatches() && ShortBatch() && (unstarted != [] || pending != [])
      modifies this, context
      ensures !raised ==> Valid() && FullBatches() && ShortBatch()
      ensures !raised ==> |unstarted| + |pending| < old(|unstarted| + |pending|)
      ensures raised ==> FullBatches() && Untolerated()
    {
      hide Accounted, InOrder, Groups, Conserved, Sound, FirstFull, Tolerated, Untolerated, Broken, Waited;
      ghost var left := Tasks(pending) + unstarted;
      StartTasks();
      assert |Tasks(pending) + unstarted| == |left|;
      Times(batchSize, maxConcurrent);
      ghost var before, was, past := |ended|, batch, ended;
      TakenSoFar(yielded, batch, ended, before);
      raised := Wait(picks);
      if !raised {
        assert ended[..before] == past == past[..before];
        BatchGrowth(yielded, was, past, batch, ended);
        YieldIfFull(before);
      }
    }

    /** `if batch: yield batch` */
    method YieldRest()
      requires Valid() && unstarted == [] && pending == []
      modifies `batch, `yielded
      ensures yielded == old(yielded) + (if old(batch) == [] then [] else [old(batch)])
      ensures Flatten(yielded) == Groups(ended)
    {
      hide Accounted, Groups, Conserved, Sound, FirstFull, Tolerated, Broken;
      if batch != [] {
        YieldInOrder(yielded, batch, ended, |batch|);
        assert batch[..|batch|] == batch && batch[|batch|..] == [];
        yielded, batch := yielded + [batch], [];
      }
      assert Flatten(yielded) + [] == Flatten(yielded);
    }

    /** A wait in which the first n tasks end, all with their groups. */
    method GoodWait(n: nat)
      requires Valid() && context.total == Some(batchSize) && NothingFails(spells[|yielded|])
      requires 0 < n <= |pending| && forall k :: 0 <= k < n ==> Good(pending[k].task)
      modifies `pending, `batch, `ended, `spells, context`sums
      ensures Valid() && NothingFails(spells[|yielded|])
      ensures pending == old(pending)[n..] && ended == old(ended) + old(Tasks(pending)[..n])
      ensures |batch| == |old(batch)| + n
    {
      hide Accounted, InOrder, Groups, Conserved, Sound, FirstFull, Tolerated, Broken, Waited, Good, NothingFails,
        Tasks, Firsts;
      ghost var was, past, more := batch, ended, Tasks(pending)[..n];
      FirstsEnd(Now(), n, false, Budget(maxExceptions, |yielded|), batchSize);
      var raised := Wait(Firsts(n));
      GoodGroups(past, more);
      SizesAgree(yielded, was, past);
      SizesAgree(yielded, batch, ended);
    }

    /** Tasks are started, and the first n of those running end. */
    method GoodRound(n: nat)
      requires Valid() && NothingFails(spells[|yielded|])
      requires 0 < n <= batchSize * maxConcurrent && n <= |Tasks(pending) + unstarted|
      requires forall k :: 0 <= k < n ==> Good((Tasks(pending) + unstarted)[k])
      modifies `unstarted, `pending, `batch, `ended, `spells, context`total, context`sums
      ensures Valid() && NothingFails(spells[|yielded|])
      ensures Tasks(pending) + unstarted == old(Tasks(pending) + unstarted)[n..]
      ensures ended == old(ended) + old(Tasks(pending) + unstarted)[..n] && |batch| == |old(batch)| + n
    {
      hide Accounted, InOrder, Groups, Conserved, Sound, FirstFull, Tolerated, Broken, Good, NothingFails, Tasks;
      StartTasks();
      Rest(pending, unstarted, n);
      GoodWait(n);
    }

    /** A round in which the first n tasks end, all with their groups. */
    method Wave(n: nat)
      requires Valid() && FullBatches() && NothingFails(spells[|yielded|])
      requires 0 < n <= batchSize * maxConcurrent && n <= |Tasks(pending) + unstarted|
      requires forall k :: 0 <= k < n ==> Good((Tasks(pending) + unstarted)[k])
      requires yielded == [] ==> |batch| < batchSize
      modifies this, context
      ensures Valid() && FullBatches() && |spells| == |yielded| + 1 && NothingFails(spells[|yielded|])
      ensures Tasks(pending) + unstarted == old(Tasks(pending) + unstarted)[n..]
      ensures ended == old(ended) + old(Tasks(pending) + unstarted)[..n]
      ensures var full := old(|batch|) + n >= batchSize;
        && |yielded| == old(|yielded|) + (if full then 1 else 0)
        && |batch| == old(|batch|) + n - (if full then batchSize else 0)
        && (full ==> spells[|yielded|] == [] && NothingFails(spells[|yielded| - 1]))
    {
      hide Accounted, InOrder, Groups, Conserved, Sound, FirstFull, Tolerated, Broken, Good, NothingFails, Tasks;
      ghost var before, past := |ended|, ended;
      TakenSoFar(yielded, batch, ended, before);
      GoodRound(n);
      assert ended[..before] == past == past[..before];
      YieldIfFull(before);
      NothingFailsYet();
    }

    /** The whole loop. It ends, whatever order the events come in. Where nothing raises, every group has been
      * yielded once, in the order in which its task was taken; every outcome of every task has counted, in one
      * spell, and none was one too many there; no task was broken; and every batch is full, except that one
      * more, which is not empty, can follow at the end. That one is smaller when only one batch of tasks runs at
      * a time, and can be larger otherwise.
      */
    method Run(rounds: nat -> seq<nat>) returns (raised: bool)
      requires Valid() && yielded == [] && pending == [] && batch == [] && ended == []
      modifies this, context
      ensures !raised ==> multiset(ended) == multiset(input) && Flatten(yielded) == Groups(ended)
      ensures !raised ==> forall o :: AllMet(spells, o) == Scripted(ended, o)
      ensures !raised ==> Tolerated(spells, maxExceptions, batchSize)
      ensures !raised ==> |yielded| <= |spells| <= |yielded| + 1 && forall t :: t in ended ==> !Broken(t)
      ensures !raised ==> forall k :: 0 <= k < |spells| - 1 ==> |yielded[k]| == batchSize
      ensures !raised ==> forall b :: b in yielded ==> b != []
      ensures !raised && |spells| > 1 ==> FirstFull(ended, early, spells[0], batchSize, batchSize * maxConcurrent)
      ensures !raised && maxConcurrent == 1 ==> forall b :: b in yielded ==> |b| <= batchSize
      ensures raised ==> FullBatches() && Untolerated()
    {
      hide Accounted, InOrder, Groups, Conserved, Sound, FirstFull, Tolerated, Untolerated, Broken, Scripted, AllMet;
      var round := 0;
      while unstarted != [] || pending != []
        invariant Valid() && FullBatches() && ShortBatch()
        decreases |unstarted| + |pending|
      {
        raised := Advance(rounds(round));
        if raised {
          return;
        }
        round := round + 1;
      }
      raised := false;
      AllEnded(input, ended);
      AllCounted(spells, ended);
      YieldRest();
    }

    /** Whenever two batches of tasks or more may run at a time, a last batch can have one group more than asked:
      * 2 * batchSize tasks end in one wait, and of these only batchSize leave, so batchSize + 1 more that end in
      * the next wait find batchSize others before them.
      */
    static method LastBatchCanBeLarger(batchSize: nat, maxConcurrent: nat, maxExceptions: real) returns (b: Batcher)
      requires batchSize >= 1 && maxConcurrent >= 2
      ensures b.batchSize == batchSize && b.maxConcurrent == maxConcurrent && b.maxExceptions == maxExceptions
      ensures b.unstarted == [] && b.pending == [] && |b.ended| == 3 * batchSize + 1
      ensures |b.yielded| == 3 && |b.yielded[2]| == batchSize + 1
    {
      hide Batcher.Valid, Batcher.FullBatches, NothingFails, Good, Groups, Tasks;
      var tasks := GoodTasks(3 * batchSize + 1);
      b := new Batcher(tasks, batchSize, maxConcurrent, maxExceptions, 0);
      BeginsGood(b, tasks);
      Times(batchSize, maxConcurrent);
      b.Wave(2 * batchSize);
      b.Wave(batchSize + 1);
      NothingLeft(b.pending, b.unstarted);
      b.YieldRest();
    }

    /** The last task fails, after a batch was yielded. */
    method LastFails(bad: Task) returns (raised: bool)
      requires Valid() && yielded != [] && spells[|yielded|] == [] && bad == AtOnce(bad.id, Failed)
      requires Tasks(pending) + unstarted == [bad]
      modifies `unstarted, `pending, `batch, `ended, `spells, context
      ensures raised && spells == old(spells)[|yielded| := [Failed]] && ended == old(ended) + [bad]
    {
      hide Accounted, InOrder, Groups, Conserved, FirstFull, Tolerated, Broken;
      StartTasks();
      Times(batchSize, maxConcurrent);
      OnlyTask(pending, unstarted, bad);
      FailsAtOnce(Now(), bad, batchSize);
      raised := Wait([0]);
    }

    /** Whatever the sizes and the budget: a task that fails after a batch was yielded raises. */
    static method FailureAfterABatchRaises(batchSize: nat, maxConcurrent: nat, maxExceptions: real)
      returns (b: Batcher, raised: bool)
      requires batchSize >= 1 && maxConcurrent >= 1
      ensures b.batchSize == batchSize && b.maxConcurrent == maxConcurrent && b.maxExceptions == maxExceptions
      ensures raised && |b.spells| == |b.yielded| + 1 == 2 && Failures(b.spells[0]) == 0 && b.spells[1] == [Failed]
    {
      hide Batcher.Valid, Batcher.FullBatches, NothingFails, Good, Groups, Tasks, Happened, Waited;
      var bad := AtOnce(0, Failed);
      var tasks := GoodTasks(batchSize) + [bad];
      b := new Batcher(tasks, batchSize, maxConcurrent, maxExceptions, 0);
      BeginsGood(b, tasks);
      Times(batchSize, maxConcurrent);
      b.Wave(batchSize);
      NothingFailed(b.spells[0]);
      raised := b.LastFails(bad);
    }
  }

  // ---------- Where a batch is too large, and where a failure is too many ----------

  /** A group that comes whole. */
  predicate Good(task: Task) {
    task.AtOnce? && task.result.Done?
  }

  ghost predicate NothingFails(spell: seq<Outcome>) {
    forall o :: o in spell ==> o.Done?
  }

  /** The first running task, again and again. */
  function Firsts(n: nat): seq<nat> {
    seq(n, _ => 0)
  }

  lemma GoodEnds(p: Progress, budget: real, batchSize: nat)
    requires p.pending != [] && Sound(p.pending[0]) && Good(p.pending[0].task) && NothingFails(p.spell)
    ensures var r, q := p.pending[0], Happened(p, 0);
      && Ends(r) && !Raising(q.spell, r, budget, batchSize)
      && q.pending == p.pending[1..] && q.ended == p.ended + [r.task] && NothingFails(q.spell)
  {
  }

  /** The first n tasks have ended, and nothing failed. */
  ghost predicate FirstsDone(p: Progress, n: nat, q: Progress)
    requires n <= |p.pending|
  {
    q.pending == p.pending[n..] && q.ended == p.ended + Tasks(p.pending)[..n] && NothingFails(q.spell)
  }

  lemma OneMoreDone(p: Progress, n: nat, q: Progress, end: Progress)
    requires 0 < n <= |p.pending| && q.pending == p.pending[1..] && q.ended == p.ended + [p.pending[0].task]
    requires FirstsDone(q, n - 1, end)
    ensures FirstsDone(p, n, end)
  {
    hide NothingFails, Tasks;
    TasksTail(p.pending, n);
    assert p.ended + ([p.pending[0].task] + Tasks(q.pending)[..n - 1]) == q.ended + Tasks(q.pending)[..n - 1];
  }

  lemma NoneDone(p: Progress)
    requires NothingFails(p.spell)
    ensures FirstsDone(p, 0, p)
  {
    hide NothingFails;
    assert p.ended + Tasks(p.pending)[..0] == p.ended;
  }

  /** The first n tasks end in one wait. */
  lemma {:induction false} FirstsEnd(p: Progress, n: nat, some: bool, budget: real, batchSize: nat)
    requires n <= |p.pending| && (some || n > 0) && NothingFails(p.spell)
    requires forall k :: 0 <= k < n ==> Sound(p.pending[k]) && Good(p.pending[k].task)
    ensures var (q, raised) := Waited(p, Firsts(n), some, budget, batchSize);
      !raised && FirstsDone(p, n, q)
    decreases n
  {
    hide Sound, Good, NothingFails, Happened, Raising, Ends, Waited, Tasks, Firsts, FirstsDone;
    FirstsTail(n);
    if n == 0 {
      assert Firsts(n) == [];
      WaitedOut(p, [], some, budget, batchSize);
      NoneDone(p);
    } else {
      var q := Happened(p, 0);
      GoodEnds(p, budget, batchSize);
      WaitedOn(p, Firsts(n), some, 0, budget, batchSize);
      assert forall k :: 0 <= k < n - 1 ==> q.pending[k] == p.pending[k + 1];
      FirstsEnd(q, n - 1, true, budget, batchSize);
      OneMoreDone(p, n, q, Waited(q, Firsts(n - 1), true, budget, batchSize).0);
    }
  }

  lemma FirstsTail(n: nat)
    ensures |Firsts(n)| == n && (n > 0 ==> Firsts(n)[0] == 0 && Firsts(n)[1..] == Firsts(n - 1))
  {
  }

  lemma TasksTail(pending: seq<Running>, n: nat)
    requires 0 < n <= |pending|
    ensures Tasks(pending)[..n] == [pending[0].task] + Tasks(pending[1..])[..n - 1]
    ensures pending[1..][n - 1..] == pending[n..]
  {
  }

  lemma {:induction false} GoodGroups(ended: seq<Task>, more: seq<Task>)
    requires forall k :: 0 <= k < |more| ==> Good(more[k])
    ensures |Groups(ended + more)| == |Groups(ended)| + |more|
    decreases |more|
  {
    hide Good, Groups, GroupsMade;
    if more == [] {
      assert ended + more == ended;
    } else {
      var init, last := more[..|more| - 1], more[|more| - 1];
      GoodGroups(ended, init);
      assert ended + more == (ended + init) + [last];
      MoreGroups(ended + init, last);
      GoodMakesOne(last);
    }
  }

  lemma GoodMakesOne(task: Task)
    requires Good(task)
    ensures |GroupsMade(task)| == 1
  {
    assert [Whole(0, task.result)][..0] == [];
    assert GroupOf(Script(task), 0, 0) == Extended(Some(Group([], 0)), Whole(0, task.result));
  }

  /** A wait that goes on, by one event. */
  lemma WaitedOn(p: Progress, picks: seq<nat>, some: bool, k: nat, budget: real, batchSize: nat)
    requires p.pending != [] && (picks != [] || !some) && k == if picks == [] then 0 else picks[0] % |p.pending|
    ensures Work(Happened(p, k).pending) < Work(p.pending)
    ensures var q, r := Happened(p, k), p.pending[k];
      && |q.ended| + |q.pending| == |p.ended| + |p.pending| && p.ended <= q.ended
      && (Ends(r) ==> |p.ended| < |q.ended|)
      && Waited(p, picks, some, budget, batchSize)
         == (if Raising(q.spell, r, budget, batchSize) then (q, true)
             else Waited(q, if picks == [] then [] else picks[1..], some || Ends(r), budget, batchSize))
      && (Raising(q.spell, r, budget, batchSize) ==>
            || Raises(0.0, q.spell, budget, Some(batchSize))
            || (q.ended != [] && Broken(q.ended[|q.ended| - 1])))
  {
    hide Ends, Raises, Broken;
    WorkDrops(p, k);
  }

  lemma WaitedOut(p: Progress, picks: seq<nat>, some: bool, budget: real, batchSize: nat)
    requires p.pending == [] || (picks == [] && some)
    ensures Waited(p, picks, some, budget, batchSize) == (p, false)
  {
  }

  lemma FillsFirst(batch: seq<Group>, ended: seq<Task>, pending: seq<Running>, spells: seq<seq<Outcome>>, before: nat,
                   batchSize: nat, limit: nat)
    requires InOrder([], batch, ended) && batchSize <= |batch| && |spells| == 1 && Conserved(spells, ended, pending)
    requires before < |ended| <= before + limit && |Groups(ended[..before])| < batchSize
    ensures FirstFull(ended, |ended|, spells[0], batchSize, limit)
  {
    hide Scripted, MetBy, Groups;
    assert [] + batch == batch;
    assert ended[..|ended|] == ended;
    assert spells[..0] == [];
    forall o
      ensures Scripted(ended[..|ended|], o) <= multiset(spells[0])[o]
    {
      NobodyMet(o);
      assert AllMet(spells, o) == AllMet([], o) + multiset(spells[0])[o];
    }
    assert Flatten([]) == [];
  }

  /** A batch leaves, and a new spell begins. */
  lemma NextSpell(spells: seq<seq<Outcome>>, ended: seq<Task>, pending: seq<Running>, maxExceptions: real,
                  batchSize: nat)
    requires Conserved(spells, ended, pending) && Tolerated(spells, maxExceptions, batchSize)
    ensures Conserved(spells + [[]], ended, pending) && Tolerated(spells + [[]], maxExceptions, batchSize)
    ensures Counted([]) == 0.0
  {
    hide Raises, Scripted, MetBy;
    assert (spells + [[]])[..|spells|] == spells;
    NothingRaises(0.0, Budget(maxExceptions, |spells|), Some(batchSize));
  }

  /** Before a first batch the buffer holds all that was made. */
  lemma TakenSoFar(yielded: seq<seq<Group>>, batch: seq<Group>, ended: seq<Task>, before: nat)
    requires InOrder(yielded, batch, ended) && before == |ended|
    ensures yielded == [] ==> Groups(ended[..before]) == batch
  {
    assert [] + batch == batch;
    assert ended[..before] == ended;
  }

  lemma {:induction false} GroupsGrow(past: seq<Task>, ended: seq<Task>)
    requires past <= ended
    ensures |Groups(past)| <= |Groups(ended)| <= |Groups(past)| + |ended| - |past|
    decreases |ended|
  {
    if past == ended {
    } else {
      assert past <= ended[..|ended| - 1];
      GroupsGrow(past, ended[..|ended| - 1]);
    }
  }

  lemma Rest(pending: seq<Running>, unstarted: seq<Task>, n: nat)
    requires n <= |pending|
    ensures (Tasks(pending) + unstarted)[..n] == Tasks(pending)[..n]
    ensures (Tasks(pending) + unstarted)[n..] == Tasks(pending[n..]) + unstarted
    ensures forall k :: 0 <= k < n ==> (Tasks(pending) + unstarted)[k] == pending[k].task
  {
    assert Tasks(pending[n..]) == Tasks(pending)[n..];
  }

  lemma SizesAgree(yielded: seq<seq<Group>>, batch: seq<Group>, ended: seq<Task>)
    requires InOrder(yielded, batch, ended)
    ensures |Flatten(yielded)| + |batch| == |Groups(ended)|
  {
  }

  lemma NothingFailsYet()
    ensures NothingFails([])
  {
  }

  /** The buffer grows by one group at most for each task that ends. */
  lemma BatchGrowth(yielded: seq<seq<Group>>, was: seq<Group>, past: seq<Task>, batch: seq<Group>, ended: seq<Task>)
    requires InOrder(yielded, was, past) && InOrder(yielded, batch, ended) && past <= ended
    ensures |batch| <= |was| + |ended| - |past|
  {
    GroupsGrow(past, ended);
  }

  lemma NothingMet()
    ensures Conserved([[]], [], [])
  {
    forall o
      ensures AllMet([[]], o) == Scripted([], o) + MetBy([], o)
    {
      assert AllMet([[]], o) == AllMet([[]][..0], o) + multiset([])[o];
    }
  }

  lemma AllCounted(spells: seq<seq<Outcome>>, ended: seq<Task>)
    requires Conserved(spells, ended, [])
    ensures forall o :: AllMet(spells, o) == Scripted(ended, o)
  {
  }

  function GoodTasks(n: nat): (tasks: seq<Task>)
    ensures |tasks| == n && forall k :: 0 <= k < n ==> Good(tasks[k])
  {
    seq(n, k requires 0 <= k => AtOnce(k, Done([])))
  }

  lemma BeginsGood(b: Batcher, tasks: seq<Task>)
    requires b.pending == [] && b.unstarted == tasks[0..] && b.yielded == [] && b.spells == [[]]
    ensures b.FullBatches() && NothingFails([])
    ensures Tasks(b.pending) + b.unstarted == tasks
  {
  }

  lemma {:induction false} NothingFailed(spell: seq<Outcome>)
    requires NothingFails(spell)
    ensures Failures(spell) == 0
  {
    if spell == [] {
    } else {
      assert spell[|spell| - 1] in spell;
      NothingFailed(spell[..|spell| - 1]);
    }
  }

  lemma OnlyTask(pending: seq<Running>, unstarted: seq<Task>, task: Task)
    requires Tasks(pending) + unstarted == [task] && (unstarted == [] || pending != [])
    ensures |pending| == 1 && unstarted == [] && pending[0].task == task
  {
    assert |Tasks(pending) + unstarted| == 1;
    assert (Tasks(pending) + unstarted)[0] == task;
  }

  lemma FailsAtOnce(p: Progress, bad: Task, batchSize: nat)
    requires |p.pending| == 1 && p.pending[0].task == bad && Sound(p.pending[0]) && bad == AtOnce(bad.id, Failed)
    requires p.spell == []
    ensures Waited(p, [0], false, 0.0, batchSize) == (Progress([], p.ended + [bad], [Failed]), true)
  {
    hide Sound, Waited;
    var r := p.pending[0];
    assert r.met == 0 by { FirstMet(r); }
    assert Happened(p, 0) == Progress([], p.ended + [bad], [Failed]);
    RaisesAppend(0.0, [], Failed, 0.0, Some(batchSize));
    CountedAppend([], Failed);
    assert [] + [Failed] == [Failed];
    WaitedOn(p, [0], false, 0, 0.0, batchSize);
  }

  lemma FirstMet(r: Running)
    requires Sound(r) && r.task.AtOnce?
    ensures r.met == 0
  {
  }

  lemma NothingLeft(pending: seq<Running>, unstarted: seq<Task>)
    requires |Tasks(pending) + unstarted| == 0
    ensures pending == [] && unstarted == []
  {
  }

  lemma Times(a: nat, b: nat)
    requires b >= 1
    ensures a * b >= a && (b == 1 ==> a * b == a) && (b >= 2 ==> a * b >= 2 * a)
  {
  }
}
