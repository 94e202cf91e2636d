/** What every run of the actor protocol keeps: messages are in one place, futures are completed once
  * and by their own request, generator consumers see what the generator yielded, nobody is stranded
  * by a death or a close, and a system left alone serves everyone in a bounded number of steps.
  */
module ActorTheorems {
  import opened Wrappers
  import opened ActorProtocol

  ghost predicate IsRun(s: State, steps: seq<Step>, t: State)
    decreases |steps|
  {
    if steps == [] then s == t else Enabled(s, steps[0]) && IsRun(Apply(s, steps[0]), steps[1..], t)
  }

  lemma {:induction false} RunKeepsInv(s: State, steps: seq<Step>, t: State)
    requires Inv(s) && IsRun(s, steps, t)
    ensures Inv(t)
    decreases |steps|
  {
    hide Inv, Apply, Enabled;
    if steps == [] {
    } else {
      StepKeepsInv(s, steps[0]);
      RunKeepsInv(Apply(s, steps[0]), steps[1..], t);
    }
  }

  ghost predicate Reachable(s: State) {
    exists steps :: IsRun(INITIAL, steps, s)
  }

  lemma ReachableInv(s: State)
    requires Reachable(s)
    ensures Inv(s)
  {
    var steps :| IsRun(INITIAL, steps, s);
    InitialInv();
    RunKeepsInv(INITIAL, steps, s);
  }

  // ---------- One place ----------

  ghost function PlaceCount(s: State, id: Id): nat
    requires id in s.clients
  {
    (if s.clients[id].at.Putting? then 1 else 0)
    + |RequestsOf(s.requests, id)| + |RequestsOf(s.handling, id)| + |ResponsesOf(s.responses, id)|
    + (if s.dispatcher.Popped? && s.dispatcher.id == id then 1 else 0)
  }

  /** Until death or close, a registered id is about to be put, queued, handled or answered: exactly one. */
  lemma ExactlyOnePlace(s: State, id: Id)
    requires Reachable(s) && id in s.clients
    ensures PlaceCount(s, id) <= 1
    ensures s.alive && id in s.futures ==> PlaceCount(s, id) == 1 && !(s.dispatcher.Popped? && s.dispatcher.id == id)
  {
    ReachableInv(s);
    assert ViewOk(ViewOf(s, id), s.alive);
  }

  // ---------- Completion ----------

  /** How a caller's record may change: done futures stay, nothing is dropped, nothing is rewritten. */
  ghost predicate Evolves(c: Client, d: Client) {
    && d.call == c.call
    && c.log <= d.log
    && |c.made| <= |d.made|
    && forall k :: 0 <= k < |c.made| && !c.made[k].Pending? ==> d.made[k] == c.made[k]
  }

  lemma ReceiveEvolves(c: Client)
    requires c.at.Waiting? && c.made != []
    ensures Evolves(c, Receive(c))
  {
  }

  lemma ResolveEvolves(c: Client, future: nat, to: FutureState)
    requires future < |c.made|
    ensures Evolves(c, Resolve(c, future, to))
  {
  }

  /** The steps of the child, the queues and the locks leave the callers' records alone. */
  ghost predicate IsBackgroundStep(step: Step) {
    || step.Take? || step.Finish? || step.Pop? || step.Die? || step.DetectDeath? || step.LockDead?
    || step.EndDead? || step.ExitDispatcher? || step.Close? || step.LockClose? || step.EndClose?
  }

  lemma BackgroundKeepsClients(s: State, step: Step)
    requires Enabled(s, step) && IsBackgroundStep(step)
    ensures Apply(s, step).clients == s.clients
  {
    hide Update, Resolve, Receive, EnterStep, HasFuture, Last;
    if step.Pop? || step.Finish? {
      QueuesKeepClients(s, step);
    }
  }

  lemma QueuesKeepClients(s: State, step: Step)
    requires Enabled(s, step) && (step.Pop? || step.Finish?)
    ensures Apply(s, step).clients == s.clients
  {
  }

  lemma CallEvolves(s: State, step: Step, id: Id)
    requires Enabled(s, step) && id in s.clients && s.nextId !in s.clients
    requires step.Start? || step.Enter? || step.Put? || step.PutFails?
    ensures id in Apply(s, step).clients && Evolves(s.clients[id], Apply(s, step).clients[id])
  {
  }

  lemma CallerEvolves(s: State, step: Step, id: Id)
    requires Enabled(s, step) && id in s.clients
    requires step.Await? || step.Send? || step.Abandon? || step.Cancel?
    ensures id in Apply(s, step).clients && Evolves(s.clients[id], Apply(s, step).clients[id])
  {
    hide Receive;
    if step.Await? {
      ReceiveEvolves(s.clients[step.id]);
    }
  }

  lemma ResolutionEvolves(s: State, step: Step, id: Id)
    requires Enabled(s, step) && id in s.clients
    requires step.Complete? || step.FailDead? || step.FailClosed?
    ensures id in Apply(s, step).clients && Evolves(s.clients[id], Apply(s, step).clients[id])
  {
    hide Resolve;
    match step
    case Complete =>
      var d := s.dispatcher;
      ResolveEvolves(s.clients[d.id], d.future, Settled(d.outcome));
    case FailDead(x) => ResolveEvolves(s.clients[x], s.dispatcher.todo[x], HasException(DeadProcess));
    case FailClosed(x) => ResolveEvolves(s.clients[x], s.closer.todo[x], HasException(ProxyClosing));
  }

  /** Every step lets every caller's record evolve, whoever the step is about. */
  lemma StepEvolves(s: State, step: Step, id: Id)
    requires Inv(s) && Enabled(s, step) && id in s.clients
    ensures id in Apply(s, step).clients && Evolves(s.clients[id], Apply(s, step).clients[id])
  {
    hide Apply, Enabled, Evolves, ViewOk, ViewOf;
    if IsBackgroundStep(step) {
      BackgroundKeepsClients(s, step);
      EvolvesToItself(s.clients[id]);
    } else if step.Await? || step.Send? || step.Abandon? || step.Cancel? {
      CallerEvolves(s, step, id);
    } else if step.Complete? || step.FailDead? || step.FailClosed? {
      ResolutionEvolves(s, step, id);
    } else {
      CallEvolves(s, step, id);
    }
  }

  lemma EvolvesToItself(c: Client)
    ensures Evolves(c, c)
  {
  }

  /** A future is completed at most once, in every run from every reachable state. */
  lemma {:induction false} CompletedOnce(s: State, steps: seq<Step>, t: State, id: Id, k: nat)
    requires Inv(s) && IsRun(s, steps, t) && id in s.clients && k < |s.clients[id].made|
    ensures id in t.clients && k < |t.clients[id].made|
    ensures !s.clients[id].made[k].Pending? ==> t.clients[id].made[k] == s.clients[id].made[k]
    decreases |steps|
  {
    hide Inv, Apply, Enabled;
    if steps == [] {
    } else {
      StepKeepsInv(s, steps[0]);
      StepEvolves(s, steps[0], id);
      CompletedOnce(Apply(s, steps[0]), steps[1..], t, id, k);
    }
  }

  /** The future a response finds under its id is the one its request was sent for. */
  lemma PopFindsItsOwn(s: State)
    requires Reachable(s) && s.responses != [] && s.responses[0].id in s.futures
    ensures s.futures[s.responses[0].id] == s.responses[0].serial
  {
    ReachableInv(s);
    var r := s.responses[0];
    var v := ViewOf(s, r.id);
    assert ViewOk(v, s.alive);
    assert v.answered[0] == r && r in v.answered;
  }

  /** A future resolved by the child holds what the handler produced for that very request. */
  lemma ResolvedByItsOwn(s: State, id: Id, k: nat)
    requires Reachable(s) && id in s.clients && k < |s.clients[id].made| && FromChild(s.clients[id].made[k])
    ensures id in s.remotes && k < |s.remotes[id].log| && s.clients[id].made[k] == Settled(s.remotes[id].log[k].got)
  {
    ReachableInv(s);
    assert ViewOk(ViewOf(s, id), s.alive);
  }

  // ---------- How callers end ----------

  ghost predicate EndsWith(log: seq<Exchange>, got: Outcome) {
    log != [] && log[|log| - 1].got == got
  }

  /** The end of a caller is told by what it received last, and the other way round. */
  ghost predicate EndsAsLogged(c: Client) {
    && (!c.at.Finished? ==> AllReturned(c.log) && (c.call.Plain? ==> c.log == []))
    && (c.at == Finished(Exhausted) <==> c.call.Generator? && EndsWith(c.log, Raised(StopAsyncIteration)))
    && (forall e :: c.at == Finished(Failed(ChildError(e))) <==>
          EndsWith(c.log, Raised(e)) && (c.call.Generator? ==> e != StopAsyncIteration))
    && (forall v :: c.at == Finished(Completed(v)) <==> c.call.Plain? && EndsWith(c.log, Returned(v)))
  }

  ghost predicate AllEndAsLogged(s: State) {
    forall id :: id in s.clients ==> EndsAsLogged(s.clients[id])
  }

  lemma ReceiveEndsAsLogged(c: Client)
    requires EndsAsLogged(c) && c.at.Waiting? && c.made != []
    ensures EndsAsLogged(Receive(c))
  {
    assert EndsWith(c.log, Raised(StopAsyncIteration)) ==> !AllReturned(c.log);
  }

  /** The log and the end stay as they are when a future is resolved. */
  lemma ResolveEndsAsLogged(c: Client, future: nat, to: FutureState)
    requires EndsAsLogged(c) && future < |c.made|
    ensures EndsAsLogged(Resolve(c, future, to))
  {
  }

  /** A caller that leaves without an answer ends in a way of its own. */
  lemma LeavingEndsAsLogged(c: Client, d: Client)
    requires EndsAsLogged(c) && !c.at.Finished? && d.log == c.log && d.call == c.call
    requires d.at.Finished? ==> !d.at.end.Exhausted? && !d.at.end.Completed?
    requires d.at.Finished? && d.at.end.Failed? ==> !d.at.end.failure.ChildError?
    ensures EndsAsLogged(d)
  {
    assert forall got :: EndsWith(c.log, got) ==> got.Returned?;
  }

  lemma CallerStepEndsAsLogged(s: State, step: Step, id: Id)
    requires Enabled(s, step) && id in s.clients && EndsAsLogged(s.clients[id])
    requires step.Enter? || step.Put? || step.PutFails? || step.Send? || step.Abandon? || step.Cancel?
    ensures id in Apply(s, step).clients && EndsAsLogged(Apply(s, step).clients[id])
  {
    hide EndsAsLogged, Resolve, Receive;
    var d := Apply(s, step).clients[id];
    if id == step.id {
      LeavingEndsAsLogged(s.clients[id], d);
    }
  }

  lemma AnswerEndsAsLogged(s: State, step: Step, id: Id)
    requires Enabled(s, step) && id in s.clients && EndsAsLogged(s.clients[id])
    requires step.Await? || step.Complete? || step.FailDead? || step.FailClosed?
    ensures id in Apply(s, step).clients && EndsAsLogged(Apply(s, step).clients[id])
  {
    hide EndsAsLogged, Resolve, Receive;
    var c := s.clients[id];
    match step
    case Await(x) =>
      if x == id {
        ReceiveEndsAsLogged(c);
      }
    case Complete =>
      var d := s.dispatcher;
      if d.id == id {
        ResolveEndsAsLogged(c, d.future, Settled(d.outcome));
      }
    case FailDead(x) =>
      if x == id {
        ResolveEndsAsLogged(c, s.dispatcher.todo[x], HasException(DeadProcess));
      }
    case FailClosed(x) =>
      if x == id {
        ResolveEndsAsLogged(c, s.closer.todo[x], HasException(ProxyClosing));
      }
  }

  lemma StartEndsAsLogged(s: State, call: Call)
    requires AllEndAsLogged(s)
    ensures AllEndAsLogged(Apply(s, Start(call)))
  {
  }

  lemma StepEndsAsLogged(s: State, step: Step)
    requires Enabled(s, step) && AllEndAsLogged(s)
    ensures AllEndAsLogged(Apply(s, step))
  {
    hide Apply, Enabled, EndsAsLogged;
    if step.Start? {
      StartEndsAsLogged(s, step.call);
    } else if IsBackgroundStep(step) {
      BackgroundKeepsClients(s, step);
    } else {
      forall id | id in Apply(s, step).clients
        ensures EndsAsLogged(Apply(s, step).clients[id])
      {
        if step.Await? || step.Complete? || step.FailDead? || step.FailClosed? {
          AnswersAddNobody(s, step);
          AnswerEndsAsLogged(s, step, id);
        } else {
          CallersAddNobody(s, step);
          CallerStepEndsAsLogged(s, step, id);
        }
      }
    }
  }

  lemma AnswersAddNobody(s: State, step: Step)
    requires Enabled(s, step) && (step.Await? || step.Complete? || step.FailDead? || step.FailClosed?)
    ensures Apply(s, step).clients.Keys == s.clients.Keys
  {
    hide Resolve, Receive;
  }

  lemma CallersAddNobody(s: State, step: Step)
    requires Enabled(s, step)
    requires step.Enter? || step.Put? || step.PutFails? || step.Send? || step.Abandon? || step.Cancel?
    ensures Apply(s, step).clients.Keys == s.clients.Keys
  {
  }

  lemma {:induction false} RunEndsAsLogged(s: State, steps: seq<Step>, t: State)
    requires IsRun(s, steps, t) && AllEndAsLogged(s)
    ensures AllEndAsLogged(t)
    decreases |steps|
  {
    hide Apply, Enabled, AllEndAsLogged;
    if steps == [] {
    } else {
      StepEndsAsLogged(s, steps[0]);
      RunEndsAsLogged(Apply(s, steps[0]), steps[1..], t);
    }
  }

  /** In every run: a generator consumer ends normally exactly when the last thing it received is the generator's
    * end, any other caller exactly when it received a value, and a caller fails with an exception of the child
    * exactly when that is what it received last and it is not such an end.
    */
  lemma CallersEndAsLogged(s: State, id: Id)
    requires Reachable(s) && id in s.clients
    ensures EndsAsLogged(s.clients[id])
  {
    var steps :| IsRun(INITIAL, steps, s);
    RunEndsAsLogged(INITIAL, steps, s);
  }

  // ---------- What a caller that is left alone is told ----------

  /** Where a caller stands agrees with the state of its last future: what it ends with is what that future holds,
    * unless it was refused before there was one, left by itself, or got an exception from `put`.
    */
  ghost predicate EndFits(c: Client) {
    match c.at
    case Entering(_) => Last(c) == None || Last(c).value.HasResult?
    case Holding => Last(c) == None || Last(c).value.HasResult?
    case Putting(_) => Last(c).Some?
    case Waiting(_) => Last(c).Some?
    case Finished(end) =>
      match end
      case Completed(v) => c.call.Plain? && Last(c) == Some(HasResult(v))
      case Exhausted => c.call.Generator? && Last(c) == Some(HasException(ChildError(StopAsyncIteration)))
      case Failed(f) =>
        Last(c) == Some(HasException(f)) && (c.call.Generator? ==> f != ChildError(StopAsyncIteration))
      case Refused(f) => !f.ChildError? && (Last(c) == None || Last(c).value.HasResult?)
      case PutFailed => Last(c).Some?
      case CancelledByCaller => Last(c) == Some(Cancelled)
      case Abandoned => Last(c) == None || Last(c).value.HasResult?
  }

  /** Some future or the end of this caller blames a death, or a close. */
  ghost predicate Blames(c: Client, f: Failure) {
    || c.at == Finished(Failed(f))
    || c.at == Finished(Refused(f))
    || HasException(f) in c.made
  }

  ghost predicate Told(s: State, c: Client) {
    && EndFits(c)
    && (Blames(c, DeadProcess) ==> s.dead)
    && (Blames(c, ProxyClosing) ==> s.closing)
  }

  ghost predicate AllTold(s: State) {
    forall id :: id in s.clients ==> Told(s, s.clients[id])
  }

  lemma ReceiveFits(c: Client)
    requires EndFits(c) && c.at.Waiting?
    requires Last(c).Some? && (Last(c).value.HasResult? || Last(c).value.HasException?)
    ensures EndFits(Receive(c))
    ensures forall f :: Blames(Receive(c), f) ==> Blames(c, f)
  {
  }

  lemma ResolveFits(c: Client, future: nat, to: FutureState)
    requires EndFits(c) && future < |c.made| && (to.HasResult? || to.HasException?)
    ensures EndFits(Resolve(c, future, to))
    ensures forall f :: Blames(Resolve(c, future, to), f) ==> Blames(c, f) || to == HasException(f)
  {
  }

  /** A caller's own step that leaves its last future as it is, or makes a new one, or cancels it. */
  lemma CallerStepTells(s: State, step: Step, id: Id)
    requires Enabled(s, step) && id in s.clients && Told(s, s.clients[id])
    requires step.Enter? || step.Put? || step.PutFails? || step.Send? || step.Abandon? || step.Cancel?
    ensures id in Apply(s, step).clients && Told(s, Apply(s, step).clients[id])
  {
    hide Resolve, Receive, EndFits, Blames;
    var c, d := s.clients[id], Apply(s, step).clients[id];
    if step.Enter? && step.id == id {
      EnterTells(s, id);
    } else if step.Cancel? && step.id == id {
      CancelFits(c, d);
    } else if (step.Put? || step.PutFails?) && step.id == id {
      PutFits(c, d);
    } else if step.id == id {
      HolderFits(c, d);
    }
  }

  lemma EnterTells(s: State, id: Id)
    requires Enabled(s, Enter(id)) && Told(s, s.clients[id])
    ensures Told(s, Apply(s, Enter(id)).clients[id])
  {
  }

  lemma CancelFits(c: Client, d: Client)
    requires c.at.Waiting? && Last(c) == Some(Pending)
    requires d == c.(at := Finished(CancelledByCaller), made := c.made[|c.made| - 1 := Cancelled])
    ensures EndFits(d) && forall f :: Blames(d, f) ==> Blames(c, f)
  {
  }

  lemma PutFits(c: Client, d: Client)
    requires c.at.Putting? && EndFits(c)
    requires d == c.(at := Waiting(c.at.send)) || d == c.(at := Finished(PutFailed))
    ensures EndFits(d) && forall f :: Blames(d, f) ==> Blames(c, f)
  {
  }

  lemma HolderFits(c: Client, d: Client)
    requires c.at.Holding? && EndFits(c) && d.made == c.made && (d.at.Entering? || d.at == Finished(Abandoned))
    ensures EndFits(d) && forall f :: Blames(d, f) ==> Blames(c, f)
  {
  }

  lemma AnswerTells(s: State, step: Step, id: Id)
    requires Inv(s) && Enabled(s, step) && id in s.clients && Told(s, s.clients[id])
    requires step.Await? || step.Complete? || step.FailDead? || step.FailClosed?
    ensures id in Apply(s, step).clients && Told(s, Apply(s, step).clients[id])
  {
    hide EndFits, Blames, Resolve, Receive, ViewOk;
    var c := s.clients[id];
    match step
    case Await(x) =>
      if x == id {
        ReceiveFits(c);
      }
    case Complete =>
      var d := s.dispatcher;
      if d.id == id {
        ResolveFits(c, d.future, Settled(d.outcome));
      }
    case FailDead(x) =>
      if x == id {
        ResolveFits(c, s.dispatcher.todo[x], HasException(DeadProcess));
      }
    case FailClosed(x) =>
      if x == id {
        ResolveFits(c, s.closer.todo[x], HasException(ProxyClosing));
      }
  }

  lemma StartTells(s: State, call: Call)
    requires AllTold(s)
    ensures AllTold(Apply(s, Start(call)))
  {
  }

  /** A flag that is up stays up. */
  lemma FlagsStay(s: State, step: Step)
    requires Enabled(s, step)
    ensures s.dead ==> Apply(s, step).dead
    ensures s.closing ==> Apply(s, step).closing
  {
    hide Resolve, Receive, Settled;
  }

  lemma StepTells(s: State, step: Step)
    requires Inv(s) && Enabled(s, step) && AllTold(s)
    ensures AllTold(Apply(s, step))
  {
    hide Inv, Apply, Enabled, EndFits, Blames;
    FlagsStay(s, step);
    if step.Start? {
      StartTells(s, step.call);
    } else if IsBackgroundStep(step) {
      BackgroundKeepsClients(s, step);
    } else {
      forall id | id in Apply(s, step).clients
        ensures Told(s, Apply(s, step).clients[id])
      {
        if step.Await? || step.Complete? || step.FailDead? || step.FailClosed? {
          AnswersAddNobody(s, step);
          AnswerTells(s, step, id);
        } else {
          CallersAddNobody(s, step);
          CallerStepTells(s, step, id);
        }
      }
    }
  }

  lemma {:induction false} RunTells(s: State, steps: seq<Step>, t: State)
    requires Inv(s) && IsRun(s, steps, t) && AllTold(s)
    ensures AllTold(t)
    decreases |steps|
  {
    hide Inv, Apply, Enabled, AllTold;
    if steps == [] {
    } else {
      StepKeepsInv(s, steps[0]);
      StepTells(s, steps[0]);
      RunTells(Apply(s, steps[0]), steps[1..], t);
    }
  }

  /** In every run: a caller whose last future holds an exception ends with that exception, unless its own `put`
    * failed or it is a generator's end; a caller that is done has been given what its last future holds; and
    * nobody is told of a death or a close before there was one.
    */
  lemma CallersAreTold(s: State, id: Id)
    requires Reachable(s) && id in s.clients
    ensures var c := s.clients[id];
            && EndFits(c)
            && (forall f :: c.at.Finished? && Last(c) == Some(HasException(f)) ==>
                  || c.at.end == Failed(f) || c.at.end == PutFailed
                  || (c.at.end == Exhausted && c.call.Generator? && f == ChildError(StopAsyncIteration)))
            && (Blames(c, DeadProcess) ==> s.dead) && (Blames(c, ProxyClosing) ==> s.closing)
  {
    var steps :| IsRun(INITIAL, steps, s);
    InitialInv();
    RunTells(INITIAL, steps, s);
  }

  // ---------- Generators ----------

  ghost function Served(s: State, id: Id): seq<Exchange> {
    if id in s.remotes then s.remotes[id].log else []
  }

  /** The remote generator refines the local one: what the consumer sent and received is, in order, what
    * the child's generator was sent and gave back, at most one exchange behind, and the generator is made
    * from the first request's arguments; while the consumer holds a value nothing is outstanding, and it ends
    * normally exactly when it has received the generator's own end.
    */
  lemma GeneratorRefinement(s: State, id: Id)
    requires Reachable(s) && id in s.clients
    ensures var c, served := s.clients[id], Served(s, id);
            && (id in s.remotes ==> s.remotes[id].args == Some(c.call.args))
            && c.log <= served && |served| <= |c.log| + 1
            && (c.at.Holding? || c.at.Entering? || c.at.Putting? ==> served == c.log)
            && (!c.at.Finished? ==> AllReturned(c.log))
            && (c.at == Finished(Exhausted) <==> c.call.Generator? && EndsWith(c.log, Raised(StopAsyncIteration)))
            && (c.at == Finished(Exhausted) ==> served == c.log && AllReturned(c.log[..|c.log| - 1]))
  {
    ReachableInv(s);
    assert ViewOk(ViewOf(s, id), s.alive);
    CallersEndAsLogged(s, id);
  }

  /** The child's log is never rewritten either: only its own handlers extend it. */
  lemma RemoteLogsOnlyGrow(s: State, step: Step, id: Id)
    requires Enabled(s, step)
    ensures step.Finish? || Apply(s, step).remotes == s.remotes
    ensures Served(s, id) <= Served(Apply(s, step), id)
  {
    if step.Finish? {
      HandlerAppends(s, step.index, step.outcome, id);
    }
  }

  /** A handler that ends adds its own exchange to its own generator, and to no other. */
  lemma HandlerAppends(s: State, index: nat, outcome: Outcome, id: Id)
    requires Enabled(s, Finish(index, outcome))
    ensures Served(Apply(s, Finish(index, outcome)), id)
            == Served(s, id)
               + (if s.handling[index].id == id then [Exchange(s.handling[index].send, outcome)] else [])
  {
  }

  // ---------- Nobody is stranded ----------

  /** A flag is set and the `_fail_pending` that follows it has held the lock. */
  ghost predicate ShutDown(s: State) {
    (s.dead && !s.dispatcher.DeadFlagged?) || (s.closing && !s.closer.ClosingFlagged?)
  }

  /** Somebody still has to resolve this future, and will: the dispatcher or a `_fail_pending` loop. */
  ghost predicate InHands(s: State, id: Id, k: nat) {
    || (s.dispatcher.Popped? && s.dispatcher.id == id && s.dispatcher.future == k)
    || (s.dispatcher.FailingDead? && id in s.dispatcher.todo && s.dispatcher.todo[id] == k)
    || (s.closer.FailingClosed? && id in s.closer.todo && s.closer.todo[id] == k)
  }

  lemma ShutDownStays(s: State, step: Step)
    requires Inv(s) && Enabled(s, step) && ShutDown(s)
    ensures ShutDown(Apply(s, step))
  {
  }

  lemma {:induction false} ShutDownForGood(s: State, steps: seq<Step>, t: State)
    requires Inv(s) && IsRun(s, steps, t) && ShutDown(s)
    ensures Inv(t) && ShutDown(t)
    decreases |steps|
  {
    hide Inv, Apply, Enabled, ShutDown;
    if steps == [] {
    } else {
      StepKeepsInv(s, steps[0]);
      ShutDownStays(s, steps[0]);
      ShutDownForGood(Apply(s, steps[0]), steps[1..], t);
    }
  }

  lemma NothingRegistered(t: State)
    requires Inv(t) && ShutDown(t)
    ensures t.futures == map[]
  {
  }

  lemma PendingIsHeld(t: State, id: Id, k: nat)
    requires Inv(t) && t.futures == map[]
    requires id in t.clients && k < |t.clients[id].made| && t.clients[id].made[k].Pending?
    ensures InHands(t, id, k) || t.clients[id].at == Finished(PutFailed)
  {
    assert ViewOk(ViewOf(t, id), t.alive);
  }

  /** After a shutdown no future is registered in any later state, and every future ever made is done, in the
    * hands of a thread that is about to resolve it, or belongs to a caller that got an exception from `put`.
    */
  lemma NobodyIsStranded(s: State, steps: seq<Step>, t: State)
    requires Reachable(s) && ShutDown(s) && IsRun(s, steps, t)
    ensures t.futures == map[]
    ensures forall id, k: nat :: id in t.clients && k < |t.clients[id].made| && t.clients[id].made[k].Pending? ==>
              InHands(t, id, k) || t.clients[id].at == Finished(PutFailed)
  {
    hide Inv, InHands, ShutDown;
    ReachableInv(s);
    ShutDownForGood(s, steps, t);
    NothingRegistered(t);
    forall id, k: nat | id in t.clients && k < |t.clients[id].made| && t.clients[id].made[k].Pending?
      ensures InHands(t, id, k) || t.clients[id].at == Finished(PutFailed)
    {
      PendingIsHeld(t, id, k);
    }
  }

  /** A caller that enters after a shutdown is refused: it never registers. */
  lemma LateCallersAreRefused(s: State, id: Id)
    requires Reachable(s) && ShutDown(s) && Enabled(s, Enter(id))
    ensures Apply(s, Enter(id)).clients[id].at.Finished? && Apply(s, Enter(id)).futures == map[]
  {
    ReachableInv(s);
  }

  // ---------- What a step hands on ----------

  /** A caller that enters is refused for a death before it is for a close; with neither, it gets a new future,
    * registered under its id, and keeps what it wants to send.
    */
  lemma EnteringMeans(s: State, id: Id)
    requires Enabled(s, Enter(id))
    ensures var c, s' := s.clients[id], Apply(s, Enter(id));
      && id in s'.clients
      && (s.dead ==> s'.clients[id].at == Finished(Refused(DeadProcess)) && s'.futures == s.futures)
      && (!s.dead && s.closing ==> s'.clients[id].at == Finished(Refused(ProxyClosing)) && s'.futures == s.futures)
      && (!s.dead && !s.closing ==>
            && s'.clients[id] == c.(at := Putting(c.at.send), made := c.made + [Pending])
            && s'.futures == s.futures[id := |c.made|])
  {
  }

  /** The value that a consumer sends is in its request, and in the exchange that it has in the end. */
  lemma SentValueIsCarried(s: State, id: Id, value: Option<Value>)
    requires id in s.clients
    ensures Enabled(s, Send(id, value)) ==> Apply(s, Send(id, value)).clients[id].at == Entering(value)
    ensures Enabled(s, Put(id)) ==>
      var s' := Apply(s, Put(id));
      && s'.clients[id].at == Waiting(s.clients[id].at.send)
      && |s'.requests| == |s.requests| + 1 && s'.requests[|s.requests|].id == id
      && s'.requests[|s.requests|].send == s.clients[id].at.send
      && (|s.clients[id].made| <= 1 ==> s'.requests[|s.requests|].args == Some(s.clients[id].call.args))
      && (|s.clients[id].made| > 1 ==> s'.requests[|s.requests|].args == None)
    ensures Enabled(s, Await(id)) && LastFromChild(s.clients[id]) ==>
      var log, log' := s.clients[id].log, Apply(s, Await(id)).clients[id].log;
      |log'| == |log| + 1 && log <= log' && log'[|log|].sent == s.clients[id].at.send
  {
    hide EnterStep, FinishStep, PopStep, Receive, Resolve;
    if Enabled(s, Put(id)) {
      PutStep(s, id);
    }
    if Enabled(s, Await(id)) && LastFromChild(s.clients[id]) {
      ReceivedWithSent(s.clients[id]);
    }
  }

  lemma ReceivedWithSent(c: Client)
    requires c.at.Waiting? && LastFromChild(c)
    ensures var log' := Receive(c).log;
      |log'| == |c.log| + 1 && c.log <= log' && log'[|c.log|].sent == c.at.send
  {
  }

  /** A first request sends nothing. */
  lemma StartSendsNothing(s: State, call: Call)
    ensures var s' := Apply(s, Start(call));
      s.nextId in s'.clients && s'.clients[s.nextId] == Client(call, Entering(None), [], [])
  {
  }

  /** The queues are first in, first out: requests are put at the end and taken at the front; so are responses, of
    * which a death may lose the last ones.
    */
  lemma QueuesKeepOrder(s: State, step: Step)
    requires Enabled(s, step)
    ensures var s' := Apply(s, step);
      && (step.Put? ==> |s'.requests| == |s.requests| + 1 && s.requests <= s'.requests)
      && (step.Take? ==> s.requests == [s'.handling[|s.handling|]] + s'.requests && s.handling <= s'.handling)
      && (!step.Put? && !step.Take? ==> s'.requests == s.requests)
      && (step.Finish? ==> |s'.responses| == |s.responses| + 1 && s.responses <= s'.responses)
      && (step.Pop? ==> s.responses == [s.responses[0]] + s'.responses)
      && (step.Die? ==> s'.responses <= s.responses)
      && (!step.Finish? && !step.Pop? && !step.Die? ==> s'.responses == s.responses)
  {
    hide Resolve, Receive, EnterStep, Settled, HasFuture;
    if step.Enter? {
      EnterKeepsQueues(s, step.id);
    }
  }

  /** A dead child takes no request, ends no handler and answers nothing any more. */
  lemma {:induction false} DeadChildIsSilent(s: State, steps: seq<Step>, t: State)
    requires IsRun(s, steps, t) && !s.alive
    ensures !t.alive && t.remotes == s.remotes && t.handling == s.handling
    ensures |t.responses| <= |s.responses| && t.responses == s.responses[|s.responses| - |t.responses|..]
    ensures s.requests <= t.requests
    decreases |steps|
  {
    hide Apply, Enabled;
    if steps == [] {
    } else {
      DeadChildStep(s, steps[0]);
      DeadChildIsSilent(Apply(s, steps[0]), steps[1..], t);
    }
  }

  lemma DeadChildStep(s: State, step: Step)
    requires Enabled(s, step) && !s.alive
    ensures var s' := Apply(s, step);
      && !s'.alive && s'.remotes == s.remotes && s'.handling == s.handling
      && (s'.responses == s.responses || (s.responses != [] && s'.responses == s.responses[1..]))
      && s.requests <= s'.requests
  {
    hide Resolve, Receive, FinishStep, EnterStep, Settled, HasFuture;
    if step.Enter? {
      EnterKeepsQueues(s, step.id);
    }
  }

  lemma EnterKeepsQueues(s: State, id: Id)
    requires Enabled(s, Enter(id))
    ensures var s' := EnterStep(s, id);
      && s'.alive == s.alive && s'.remotes == s.remotes && s'.handling == s.handling
      && s'.responses == s.responses && s'.requests == s.requests
  {
  }

  /** What a caller can do next: it enters, puts or fails to put, wakes up exactly when its last future has a result
    * or an exception, may be cancelled while that is pending, and with a value in hand goes on or leaves.
    */
  lemma CallersGoOn(s: State, id: Id, value: Option<Value>)
    requires id in s.clients
    ensures var c := s.clients[id];
      && (Enabled(s, Enter(id)) <==> c.at.Entering?)
      && (Enabled(s, Put(id)) <==> c.at.Putting?) && (Enabled(s, PutFails(id)) <==> c.at.Putting?)
      && (Enabled(s, Send(id, value)) <==> c.at.Holding?) && (Enabled(s, Abandon(id)) <==> c.at.Holding?)
      && (Enabled(s, Cancel(id)) <==> c.at.Waiting? && Last(c) == Some(Pending))
      && (Enabled(s, Await(id)) <==>
            c.at.Waiting? && Last(c).Some? && (Last(c).value.HasResult? || Last(c).value.HasException?))
  {
    hide HasFuture, Last;
  }

  /** What may happen at any time: a new call, a close if there was none, and, while the child lives, its death, which
    * loses any number of the last responses; and any of its handlers ends, in any way.
    */
  lemma TheOutsideGoesOn(s: State, call: Call, kept: nat, index: nat, outcome: Outcome)
    ensures Enabled(s, Start(call))
    ensures Enabled(s, Step.Close) <==> s.closer == Open
    ensures Enabled(s, Die(kept)) <==> s.alive && kept <= |s.responses|
    ensures Enabled(s, Finish(index, outcome)) <==> s.alive && index < |s.handling|
    ensures Enabled(s, Take) <==> s.alive && |s.requests| > 0
  {
    hide HasFuture, Last;
  }

  lemma Goes(s: State, steps: seq<Step>, t: State, step: Step)
    requires Enabled(s, step) && IsRun(Apply(s, step), steps, t)
    ensures IsRun(s, [step] + steps, t)
  {
    hide Enabled, Apply;
    assert ([step] + steps)[1..] == steps;
  }

  lemma OneStep(s: State, step: Step)
    requires Enabled(s, step)
    ensures IsRun(s, [step], Apply(s, step))
  {
    hide Enabled, Apply;
    assert [step][1..] == [];
  }

  lemma {:induction false} RunsJoin(s: State, a: seq<Step>, t: State, b: seq<Step>, u: State)
    requires IsRun(s, a, t) && IsRun(t, b, u)
    ensures IsRun(s, a + b, u)
    decreases |a|
  {
    hide Enabled, Apply;
    if a == [] {
      assert a + b == b;
    } else {
      assert (a + b)[0] == a[0] && (a + b)[1..] == a[1..] + b;
      RunsJoin(Apply(s, a[0]), a[1..], t, b, u);
    }
  }

  /** The only call so far, whose request is queued. */
  ghost function FirstRequest(args: int): State {
    INITIAL.(nextId := 2,
             clients := map[1 := Client(Plain(args), Waiting(None), [Pending], [])],
             futures := map[1 := 0],
             requests := [Request(1, 0, Some(args), None)])
  }

  lemma FirstRequestGoesOut(args: int)
    ensures IsRun(INITIAL, [Start(Plain(args)), Enter(1), Put(1)], FirstRequest(args))
  {
    hide FinishStep, PopStep, Receive, Resolve;
    var s1 := Apply(INITIAL, Start(Plain(args)));
    assert s1.clients == map[1 := Client(Plain(args), Entering(None), [], [])];
    var s2 := Apply(s1, Enter(1));
    assert [] + [Pending] == [Pending];
    assert s2.clients[1] == Client(Plain(args), Putting(None), [Pending], []);
    assert s2.clients == map[1 := Client(Plain(args), Putting(None), [Pending], [])];
    assert s2.futures == map[1 := 0];
    assert Apply(s2, Put(1)).clients == FirstRequest(args).clients;
    assert Apply(s2, Put(1)) == FirstRequest(args);
    OneStep(s2, Put(1));
    Goes(s1, [Put(1)], FirstRequest(args), Enter(1));
    Goes(INITIAL, [Enter(1)] + [Put(1)], FirstRequest(args), Start(Plain(args)));
    assert [Start(Plain(args))] + ([Enter(1)] + [Put(1)]) == [Start(Plain(args)), Enter(1), Put(1)];
  }

  /** The child has answered, and the dispatcher holds the future. */
  ghost function FirstAnswer(args: int, outcome: Outcome): State {
    FirstRequest(args).(futures := map[], requests := [], dispatcher := Popped(1, 0, None, outcome),
                        remotes := map[1 := Remote(Some(args), [Exchange(None, outcome)])])
  }

  lemma FirstAnswerComesBack(args: int, outcome: Outcome)
    ensures IsRun(FirstRequest(args), [Take, Finish(0, outcome), Pop], FirstAnswer(args, outcome))
  {
    hide EnterStep, Receive, Resolve;
    var s := FirstRequest(args);
    var s1 := Apply(s, Take);
    assert s1 == s.(requests := [], handling := [Request(1, 0, Some(args), None)]);
    var s2 := Apply(s1, Finish(0, outcome));
    assert [] + [Exchange(None, outcome)] == [Exchange(None, outcome)];
    assert s2.remotes == FirstAnswer(args, outcome).remotes && s2.handling == [];
    assert s2.responses == [Response(1, 0, None, outcome)];
    assert Apply(s2, Pop).futures == map[];
    assert Apply(s2, Pop) == FirstAnswer(args, outcome);
    OneStep(s2, Pop);
    Goes(s1, [Pop], FirstAnswer(args, outcome), Finish(0, outcome));
    Goes(s, [Finish(0, outcome)] + [Pop], FirstAnswer(args, outcome), Take);
    assert [Take] + ([Finish(0, outcome)] + [Pop]) == [Take, Finish(0, outcome), Pop];
  }

  lemma FirstAnswerArrives(args: int, outcome: Outcome) returns (t: State)
    ensures IsRun(FirstAnswer(args, outcome), [Complete, Await(1)], t)
    ensures 1 in t.clients && t.clients[1].call == Plain(args)
    ensures match outcome
      case Returned(v) => t.clients[1].at == Finished(Completed(v))
      case Raised(e) => t.clients[1].at == Finished(Failed(ChildError(e)))
  {
    hide EnterStep, PopStep, FinishStep;
    var s := FirstAnswer(args, outcome);
    var s1 := Apply(s, Complete);
    t := Apply(s1, Await(1));
    OneStep(s1, Await(1));
    Goes(s, [Await(1)], t, Complete);
    assert [Complete] + [Await(1)] == [Complete, Await(1)];
  }

  /** Calls do get through: from the start, a call with any argument can have any outcome, and it ends with it. */
  lemma CallsGetThrough(args: int, outcome: Outcome) returns (steps: seq<Step>, t: State)
    ensures IsRun(INITIAL, steps, t) && 1 in t.clients && t.clients[1].call == Plain(args)
    ensures match outcome
      case Returned(v) => t.clients[1].at == Finished(Completed(v))
      case Raised(e) => t.clients[1].at == Finished(Failed(ChildError(e)))
  {
    hide IsRun;
    var out, back := [Start(Plain(args)), Enter(1), Put(1)], [Take, Finish(0, outcome), Pop];
    FirstRequestGoesOut(args);
    FirstAnswerComesBack(args, outcome);
    t := FirstAnswerArrives(args, outcome);
    RunsJoin(INITIAL, out, FirstRequest(args), back, FirstAnswer(args, outcome));
    RunsJoin(INITIAL, out + back, FirstAnswer(args, outcome), [Complete, Await(1)], t);
    steps := out + back + [Complete, Await(1)];
  }

  // ---------- The system drains ----------

  /** The steps taken by the runtime itself: callers between registering and waiting, the child, the two threads. */
  ghost predicate IsSystemStep(step: Step) {
    || step.Put? || step.Take? || step.Finish? || step.Pop? || step.Complete?
    || step.DetectDeath? || step.LockDead? || step.FailDead? || step.EndDead? || step.ExitDispatcher?
    || step.LockClose? || step.FailClosed? || step.EndClose?
  }

  ghost function Putters(s: State): set<Id> {
    set id | id in s.clients && s.clients[id].at.Putting?
  }

  ghost function DispatcherRank(s: State): nat {
    (if s.dispatcher.Exited? then 0 else 1)
    + (match s.dispatcher
       case Popped(_, _, _, _) => 1
       case DeadFlagged => |s.futures| + 2
       case FailingDead(todo) => |todo| + 1
       case _ => 0)
    + (if s.dead then 0 else |s.futures| + 3)
  }

  ghost function CloserRank(s: State): nat {
    match s.closer
    case ClosingFlagged => |s.futures| + 2
    case FailingClosed(todo) => |todo| + 1
    case _ => 0
  }

  ghost function Rank(s: State): nat {
    5 * |Putters(s)| + 4 * |s.requests| + 3 * |s.handling| + 2 * |s.responses| + DispatcherRank(s) + CloserRank(s)
  }

  lemma PutterLeaves(s: State, id: Id)
    requires id in s.clients && s.clients[id].at.Putting?
    ensures |Putters(Apply(s, Put(id)))| == |Putters(s)| - 1
  {
    assert Putters(Apply(s, Put(id))) == Putters(s) - {id};
  }

  lemma ResolveKeepsPutters(s: State, s': State, id: Id, future: nat, to: FutureState)
    requires HasFuture(s, id, future) && s'.clients == s.clients[id := Resolve(s.clients[id], future, to)]
    ensures Putters(s') == Putters(s)
  {
  }

  lemma PutDescends(s: State, id: Id)
    requires Enabled(s, Put(id))
    ensures Rank(Apply(s, Put(id))) < Rank(s)
  {
    hide Putters;
    PutterLeaves(s, id);
  }

  lemma ChildDescends(s: State, step: Step)
    requires Enabled(s, step)
    requires step.Take? || step.Finish?
    ensures Rank(Apply(s, step)) < Rank(s)
  {
    hide Putters;
    SamePutters(s, Apply(s, step));
  }

  lemma RemoveSize(m: map<Id, nat>, id: Id)
    requires id in m
    ensures |m - {id}| == |m| - 1
  {
  }

  lemma PopShape(s: State)
    requires Enabled(s, Pop)
    ensures var s' := Apply(s, Pop);
            && |s'.responses| == |s.responses| - 1 && |s'.futures| <= |s.futures|
            && s'.clients == s.clients && s'.requests == s.requests && s'.handling == s.handling
            && s'.dead == s.dead && s'.closer == s.closer
            && (s'.dispatcher.Idle? || s'.dispatcher.Popped?)
  {
    var id := s.responses[0].id;
    if id in s.futures {
      RemoveSize(s.futures, id);
    }
  }

  lemma PopDescends(s: State)
    requires Enabled(s, Pop)
    ensures Rank(Apply(s, Pop)) < Rank(s)
  {
    hide Apply, Putters;
    PopShape(s);
    SamePutters(s, Apply(s, Pop));
  }

  lemma ResolutionShape(s: State, step: Step)
    requires Enabled(s, step)
    requires step.Complete? || step.FailDead? || step.FailClosed?
    ensures var s' := Apply(s, step);
            && Putters(s') == Putters(s) && s'.futures == s.futures && s'.dead == s.dead
            && s'.requests == s.requests && s'.handling == s.handling && s'.responses == s.responses
            && (step.Complete? ==> s'.dispatcher == Idle && s'.closer == s.closer)
            && (step.FailDead? ==>
                  && s'.dispatcher.FailingDead? && |s'.dispatcher.todo| == |s.dispatcher.todo| - 1
                  && s'.closer == s.closer)
            && (step.FailClosed? ==>
                  s'.closer.FailingClosed? && |s'.closer.todo| == |s.closer.todo| - 1 && s'.dispatcher == s.dispatcher)
  {
    hide Putters, Resolve;
    var s' := Apply(s, step);
    match step
    case Complete =>
      ResolveKeepsPutters(s, s', s.dispatcher.id, s.dispatcher.future, Settled(s.dispatcher.outcome));
    case FailDead(id) =>
      ResolveKeepsPutters(s, s', id, s.dispatcher.todo[id], HasException(DeadProcess));
      RemoveSize(s.dispatcher.todo, id);
    case FailClosed(id) =>
      ResolveKeepsPutters(s, s', id, s.closer.todo[id], HasException(ProxyClosing));
      RemoveSize(s.closer.todo, id);
  }

  lemma ResolutionDescends(s: State, step: Step)
    requires Enabled(s, step)
    requires step.Complete? || step.FailDead? || step.FailClosed?
    ensures Rank(Apply(s, step)) < Rank(s)
  {
    hide Apply, Putters;
    ResolutionShape(s, step);
  }

  lemma DispatcherDescends(s: State, step: Step)
    requires Enabled(s, step)
    requires step.DetectDeath? || step.LockDead? || step.EndDead? || step.ExitDispatcher?
    ensures Rank(Apply(s, step)) < Rank(s)
  {
    hide Putters;
    SamePutters(s, Apply(s, step));
  }

  lemma CloserDescends(s: State, step: Step)
    requires Enabled(s, step)
    requires step.LockClose? || step.EndClose?
    ensures Rank(Apply(s, step)) < Rank(s)
  {
    hide Putters;
    SamePutters(s, Apply(s, step));
  }

  lemma SystemStepDescends(s: State, step: Step)
    requires Enabled(s, step) && IsSystemStep(step)
    ensures Rank(Apply(s, step)) < Rank(s)
  {
    hide Rank, Apply, Enabled;
    if step.Put? {
      PutDescends(s, step.id);
    } else if step.Take? || step.Finish? {
      ChildDescends(s, step);
    } else if step.Pop? {
      PopDescends(s);
    } else if step.Complete? || step.FailDead? || step.FailClosed? {
      ResolutionDescends(s, step);
    } else if step.LockClose? || step.EndClose? {
      CloserDescends(s, step);
    } else {
      DispatcherDescends(s, step);
    }
  }

  lemma SamePutters(s: State, s': State)
    requires s'.clients == s.clients
    ensures Putters(s') == Putters(s)
  {
  }

  ghost predicate WaitsInVain(s: State, id: Id) {
    id in s.clients && s.clients[id].at.Waiting? && Last(s.clients[id]) == Some(Pending)
  }

  ghost predicate CanMove(s: State) {
    exists step :: IsSystemStep(step) && Enabled(s, step)
  }

  lemma Moves(s: State, step: Step)
    requires IsSystemStep(step) && Enabled(s, step)
    ensures CanMove(s)
  {
  }

  lemma BusyDispatcherMoves(s: State)
    requires Inv(s) && (s.dispatcher.Popped? || s.dispatcher.DeadFlagged? || s.dispatcher.FailingDead?)
    ensures CanMove(s)
  {
    match s.dispatcher
    case Popped(id, future, _, _) =>
      assert ViewOk(ViewOf(s, id), s.alive);
      Moves(s, Complete);
    case DeadFlagged => Moves(s, LockDead);
    case FailingDead(todo) =>
      if todo == map[] {
        Moves(s, EndDead);
      } else {
        assert (forall x :: x !in todo) ==> todo == map[];
        var id :| id in todo;
        assert ViewOk(ViewOf(s, id), s.alive);
        Moves(s, FailDead(id));
      }
  }

  /** While anyone waits for a pending future, the runtime itself can take a step: there is no deadlock. */
  lemma NeverStuck(s: State, id: Id)
    requires Inv(s) && WaitsInVain(s, id)
    ensures CanMove(s)
  {
    var v := ViewOf(s, id);
    assert ViewOk(v, s.alive);
    if s.dispatcher.Popped? || s.dispatcher.DeadFlagged? || s.dispatcher.FailingDead? {
      BusyDispatcherMoves(s);
    } else if v.failingClosed.Some? {
      Moves(s, FailClosed(id));
    } else if s.closing {
      assert s.closer.ClosingFlagged?;
      Moves(s, LockClose);
    } else if !s.alive {
      Moves(s, DetectDeath);
    } else if v.queued != [] {
      Moves(s, Take);
    } else if v.handling != [] {
      Moves(s, Finish(0, Returned(0)));
    } else {
      Moves(s, Pop);
    }
  }

  /** Left alone, the runtime makes at most `Rank` steps, and when it comes to rest every waiter has been served. */
  lemma {:induction false} SystemDrains(s: State, steps: seq<Step>, t: State)
    requires Inv(s) && IsRun(s, steps, t)
    requires forall i :: 0 <= i < |steps| ==> IsSystemStep(steps[i])
    ensures |steps| + Rank(t) <= Rank(s)
    ensures !CanMove(t) ==> forall id :: !WaitsInVain(t, id)
    decreases |steps|
  {
    hide Inv, Apply, Enabled, Rank, CanMove, WaitsInVain, IsSystemStep;
    if steps == [] {
      forall id | WaitsInVain(t, id)
        ensures CanMove(t)
      {
        NeverStuck(t, id);
      }
    } else {
      StepKeepsInv(s, steps[0]);
      SystemStepDescends(s, steps[0]);
      SystemDrains(Apply(s, steps[0]), steps[1..], t);
    }
  }
}
