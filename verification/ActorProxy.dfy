/** The imperative form of `src/mp_actors/move.py`: the proxy's fields, the two queues and the child's
  * tables, changed in place. Each method is one atomic action of the source and is proved to be one
  * step of `ActorProtocol`; `FailPending` is the source's loop, proved to be a run of such steps.
  */
module ActorProxy {
  import opened Wrappers
  import opened ActorProtocol
  import opened ActorTheorems

  class Proxy {
    var nextId: Id
    var clients: map<Id, Client>
    var futures: map<Id, nat>
    var requests: seq<Request>
    var responses: seq<Response>
    var deadProcessError: bool
    var closing: bool
    var dispatcher: Dispatcher
    var closer: Closer
    // The child process.
    var alive: bool
    var handling: seq<Request>
    var remotes: map<Id, Remote>

    constructor ()
      ensures View() == INITIAL
    {
      nextId := 1;
      clients, futures, requests, responses := map[], map[], [], [];
      deadProcessError, closing, dispatcher, closer := false, false, Idle, Open;
      alive, handling, remotes := true, [], map[];
    }

    ghost function View(): State
      reads this
    {
      State(nextId, clients, futures, requests, handling, responses, remotes,
            alive, deadProcessError, closing, dispatcher, closer)
    }

    method StartCall(call: Call) returns (id: Id)
      modifies this
      ensures id == old(nextId) && View() == Apply(old(View()), Start(call))
    {
      id := nextId;
      nextId := nextId + 1;
      clients := clients[id := Client(call, Entering(None), [], [])];
    }

    /** `response_future`, the section under the lock. */
    method ResponseFuture(id: Id)
      requires Enabled(View(), Enter(id))
      modifies this
      ensures View() == Apply(old(View()), Enter(id))
    {
      var c := clients[id];
      if deadProcessError {
        clients := clients[id := c.(at := Finished(Refused(DeadProcess)))];
        return;
      }
      if closing {
        clients := clients[id := c.(at := Finished(Refused(ProxyClosing)))];
        return;
      }
      clients := clients[id := c.(at := Putting(c.at.send), made := c.made + [Pending])];
      futures := futures[id := |c.made|];
    }

    method PutNowait(id: Id)
      requires Enabled(View(), Step.Put(id))
      modifies this
      ensures View() == Apply(old(View()), Step.Put(id))
    {
      var c := clients[id];
      var serial := if |c.made| == 0 then 0 else |c.made| - 1;
      requests := requests + [Request(id, serial, ArgsOf(c.call, serial), c.at.send)];
      clients := clients[id := c.(at := Waiting(c.at.send))];
    }

    /** `response_future`, when `put_nowait` raises. */
    method Unregister(id: Id)
      requires Enabled(View(), PutFails(id))
      modifies this
      ensures View() == Apply(old(View()), PutFails(id))
    {
      futures := futures - {id};
      clients := clients[id := clients[id].(at := Finished(PutFailed))];
    }

    /** `_dispatch_responses`: one response taken, its future looked up and removed under the lock. */
    method TakeResponse()
      requires Enabled(View(), Pop)
      modifies this
      ensures View() == Apply(old(View()), Pop)
    {
      var response := responses[0];
      responses := responses[1..];
      if response.id in futures {
        dispatcher := Popped(response.id, futures[response.id], response.sent, response.outcome);
        futures := futures - {response.id};
      }
    }

    /** `set_result` or `set_exception` on the future taken, outside the lock. */
    method CompleteTaken()
      requires Enabled(View(), Complete)
      modifies this
      ensures View() == Apply(old(View()), Complete)
    {
      var id, future := dispatcher.id, dispatcher.future;
      var c := clients[id];
      if c.made[future].Pending? {
        var state := match dispatcher.outcome
          case Returned(v) => HasResult(v)
          case Raised(e) => HasException(ChildError(e));
        clients := clients[id := c.(made := c.made[future := state])];
      } else {
        assert clients[id := c] == clients;
      }
      dispatcher := Idle;
    }

    method NoticeDeath()
      requires Enabled(View(), DetectDeath)
      modifies this
      ensures View() == Apply(old(View()), DetectDeath)
    {
      deadProcessError := true;
      dispatcher := DeadFlagged;
    }

    /** One future of `_fail_pending`'s list, after a death or for `close`. */
    method FailOne(atDeath: bool, id: Id)
      requires Enabled(View(), FailStep(atDeath, id))
      modifies this
      ensures View() == Apply(old(View()), FailStep(atDeath, id))
    {
      var todo := if atDeath then dispatcher.todo else closer.todo;
      var c := clients[id];
      if c.made[todo[id]].Pending? {
        clients := clients[id := c.(made := c.made[todo[id] := HasException(ErrorOf(atDeath))])];
      } else {
        assert clients[id := c] == clients;
      }
      if atDeath {
        dispatcher := FailingDead(todo - {id});
      } else {
        closer := FailingClosed(todo - {id});
      }
    }

    /** `_fail_pending`, by the dispatcher after a death or by `close`, run without interruption: every registered
      * future that was pending fails, every other future is untouched, and nothing stays registered.
      */
    method FailPending(atDeath: bool) returns (ghost steps: seq<Step>)
      requires Inv(View()) && if atDeath then dispatcher.DeadFlagged? else closer.ClosingFlagged?
      modifies this
      ensures IsRun(old(View()), steps, View()) && Inv(View())
      ensures futures == map[] && if atDeath then dispatcher == Idle else closer == Closed
      ensures clients.Keys == old(clients.Keys)
      ensures forall id :: id in clients ==> FailedSoFar(old(View()), id, clients[id], map[], ErrorOf(atDeath))
    {
      hide Inv, IsRun, FailedSoFar, Apply, Enabled;
      ghost var before := View();
      steps := [LockStep(atDeath)];
      FailingStarts(before, atDeath);
      if atDeath {
        dispatcher := FailingDead(futures);
      } else {
        closer := FailingClosed(futures);
      }
      futures := map[];
      while (if atDeath then dispatcher.todo else closer.todo).Keys != {}
        invariant Failing(before, steps, View(), atDeath)
        decreases TodoOf(View(), atDeath).Keys
      {
        var id :| id in (if atDeath then dispatcher.todo else closer.todo).Keys;
        FailingGoesOn(before, steps, View(), id, atDeath);
        FailOne(atDeath, id);
        steps := steps + [FailStep(atDeath, id)];
      }
      assert TodoOf(View(), atDeath) == map[];
      FailingEnds(before, steps, View(), atDeath);
      if atDeath {
        dispatcher := Idle;
      } else {
        closer := Closed;
      }
      steps := steps + [EndStep(atDeath)];
    }

    /** `close`, its first lines: the flag goes up before anything is failed. */
    method Close()
      requires Enabled(View(), Step.Close)
      modifies this
      ensures View() == Apply(old(View()), Step.Close)
    {
      closing := true;
      closer := ClosingFlagged;
    }

    /** `_handle_requests`: the child takes a request and starts a task for it. */
    method TakeRequest()
      requires Enabled(View(), Take)
      modifies this
      ensures View() == Apply(old(View()), Take)
    {
      handling := handling + [requests[0]];
      requests := requests[1..];
    }

    /** `_handle_request`: a task ends with a result or an exception and puts its response. */
    method HandleRequest(index: nat, outcome: Outcome)
      requires Enabled(View(), Finish(index, outcome))
      modifies this
      ensures View() == Apply(old(View()), Finish(index, outcome))
    {
      var request := handling[index];
      if request.id !in remotes {
        remotes := remotes[request.id := Remote(request.args, [])];
      }
      var remote := remotes[request.id];
      remotes := remotes[request.id := remote.(log := remote.log + [Exchange(request.send, outcome)])];
      handling := handling[..index] + handling[index + 1..];
      responses := responses + [Response(request.id, request.serial, request.send, outcome)];
      assert remotes == Apply(old(View()), Finish(index, outcome)).remotes;
    }
  }

  // ---------- The two calls of `_fail_pending` ----------

  function ErrorOf(atDeath: bool): Failure {
    if atDeath then DeadProcess else ProxyClosing
  }

  ghost function LockStep(atDeath: bool): Step {
    if atDeath then LockDead else LockClose
  }

  ghost function FailStep(atDeath: bool, id: Id): Step {
    if atDeath then FailDead(id) else FailClosed(id)
  }

  ghost function EndStep(atDeath: bool): Step {
    if atDeath then EndDead else EndClose
  }

  ghost predicate IsFailing(s: State, atDeath: bool) {
    if atDeath then s.dispatcher.FailingDead? else s.closer.FailingClosed?
  }

  ghost function TodoOf(s: State, atDeath: bool): map<Id, nat>
    requires IsFailing(s, atDeath)
  {
    if atDeath then s.dispatcher.todo else s.closer.todo
  }

  /** What the loop has done to one caller: its registered pending future has failed, unless it is still to do. */
  ghost predicate FailedSoFar(before: State, id: Id, c: Client, todo: map<Id, nat>, error: Failure) {
    && id in before.clients
    && |c.made| == |before.clients[id].made|
    && forall k :: 0 <= k < |c.made| ==>
        var was := before.clients[id].made[k];
        c.made[k] == (if id in before.futures && id !in todo && before.futures[id] == k && was.Pending?
                      then HasException(error) else was)
  }

  ghost predicate Failing(before: State, steps: seq<Step>, s: State, atDeath: bool) {
    && Inv(s) && IsRun(before, steps, s)
    && IsFailing(s, atDeath) && s.futures == map[]
    && s.clients.Keys == before.clients.Keys
    && var todo := TodoOf(s, atDeath);
    && (forall id :: id in todo ==> id in before.futures && todo[id] == before.futures[id])
    && (forall id :: id in s.clients ==> FailedSoFar(before, id, s.clients[id], todo, ErrorOf(atDeath)))
  }

  lemma FailingStarts(before: State, atDeath: bool)
    requires Inv(before) && if atDeath then before.dispatcher.DeadFlagged? else before.closer.ClosingFlagged?
    ensures Enabled(before, LockStep(atDeath))
    ensures var s := Apply(before, LockStep(atDeath));
      && Failing(before, [LockStep(atDeath)], s, atDeath)
      && s == if atDeath then before.(futures := map[], dispatcher := FailingDead(before.futures))
              else before.(futures := map[], closer := FailingClosed(before.futures))
  {
    StepKeepsInv(before, LockStep(atDeath));
    assert [LockStep(atDeath)][1..] == [];
  }

  /** One step of the loop: one future resolved, and struck off the list. */
  lemma FailingStep(s: State, id: Id, atDeath: bool)
    requires Inv(s) && IsFailing(s, atDeath) && id in TodoOf(s, atDeath)
    ensures Enabled(s, FailStep(atDeath, id)) && id in s.clients && TodoOf(s, atDeath)[id] < |s.clients[id].made|
    ensures var s' := Apply(s, FailStep(atDeath, id));
      && IsFailing(s', atDeath) && TodoOf(s', atDeath) == TodoOf(s, atDeath) - {id} && s'.futures == s.futures
      && s'.clients == s.clients[id := Resolve(s.clients[id], TodoOf(s, atDeath)[id], HasException(ErrorOf(atDeath)))]
  {
    hide Resolve;
    assert ViewOk(ViewOf(s, id), s.alive);
  }

  lemma FailingGoesOn(before: State, steps: seq<Step>, s: State, id: Id, atDeath: bool)
    requires Failing(before, steps, s, atDeath) && id in TodoOf(s, atDeath)
    ensures Enabled(s, FailStep(atDeath, id))
    ensures var s' := Apply(s, FailStep(atDeath, id));
      && Failing(before, steps + [FailStep(atDeath, id)], s', atDeath)
      && TodoOf(s', atDeath) == TodoOf(s, atDeath) - {id}
  {
    hide Inv, IsRun, Apply, Enabled, FailStep, IsFailing, TodoOf;
    FailingStep(s, id, atDeath);
    StepKeepsInv(s, FailStep(atDeath, id));
    RunExtends(before, steps, s, FailStep(atDeath, id));
    var s' := Apply(s, FailStep(atDeath, id));
    forall x | x in s'.clients
      ensures FailedSoFar(before, x, s'.clients[x], TodoOf(s', atDeath), ErrorOf(atDeath))
    {
      assert FailedSoFar(before, x, s.clients[x], TodoOf(s, atDeath), ErrorOf(atDeath));
    }
  }

  lemma FailingEnds(before: State, steps: seq<Step>, s: State, atDeath: bool)
    requires Failing(before, steps, s, atDeath) && TodoOf(s, atDeath) == map[]
    ensures Enabled(s, EndStep(atDeath))
    ensures var s' := Apply(s, EndStep(atDeath));
      && Inv(s') && IsRun(before, steps + [EndStep(atDeath)], s')
      && s' == if atDeath then s.(dispatcher := Idle) else s.(closer := Closed)
  {
    StepKeepsInv(s, EndStep(atDeath));
    RunExtends(before, steps, s, EndStep(atDeath));
  }

  lemma {:induction false} RunExtends(s: State, steps: seq<Step>, t: State, step: Step)
    requires IsRun(s, steps, t) && Enabled(t, step)
    ensures IsRun(s, steps + [step], Apply(t, step))
    decreases |steps|
  {
    hide Apply, Enabled;
    if steps == [] {
      assert [step][1..] == [];
    } else {
      RunExtends(Apply(s, steps[0]), steps[1..], t, step);
      assert (steps + [step])[0] == steps[0] && (steps + [step])[1..] == steps[1..] + [step];
    }
  }
}
