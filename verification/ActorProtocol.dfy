/** The remote-actor protocol of `src/mp_actors/move.py` as a step system.
  *
  * Callers, the child's handlers, the dispatcher thread and `close` interleave in any order. One
  * step is one atomic action: a section under `_futures_lock`, one flag write, one queue operation,
  * one completion of a future. The flag writes are steps of their own, outside the lock.
  *
  * A caller is named by the id it takes from `_next_id`; a generator wrapper reuses its id for every
  * request. `made` lists the `Future` objects a caller has created, so a future is an id and an index
  * into `made`. The `serial` and `sent` fields of messages are history: no step reads them.
  */
module ActorProtocol {
  import opened Wrappers

  type Id = nat
  type Value = int

  datatype Exc = StopAsyncIteration | OtherException(code: int)

  /** What a handler produced for one request. */
  datatype Outcome = Returned(value: Value) | Raised(exc: Exc)

  datatype Failure = ChildError(exc: Exc) | DeadProcess | ProxyClosing

  datatype FutureState = Pending | HasResult(value: Value) | HasException(failure: Failure) | Cancelled

  datatype Call = Plain(args: int) | Generator(args: int)

  datatype Exchange = Exchange(sent: Option<Value>, got: Outcome)

  datatype End =
    | Completed(value: Value)
    | Exhausted
    | Failed(failure: Failure)
    | Refused(failure: Failure)
    | PutFailed
    | CancelledByCaller
    | Abandoned

  /** Where a caller stands. `Holding`: a generator consumer that has a value and may ask for the next. */
  datatype Where =
    | Entering(send: Option<Value>)
    | Putting(send: Option<Value>)
    | Waiting(send: Option<Value>)
    | Holding
    | Finished(end: End)

  /** `log` is what the caller sent and received, one exchange per answered request. */
  datatype Client = Client(call: Call, at: Where, made: seq<FutureState>, log: seq<Exchange>)

  /** Without arguments: the source sends `(), {}` with every request of a generator after the first. */
  datatype Request = Request(id: Id, serial: nat, args: Option<int>, send: Option<Value>)

  datatype Response = Response(id: Id, serial: nat, sent: Option<Value>, outcome: Outcome)

  /** What the child did for one id. For a generator function this is the object kept in `generators`,
    * created from the first request's arguments; for any other call it is history.
    */
  datatype Remote = Remote(args: Option<int>, log: seq<Exchange>)

  datatype Dispatcher =
    | Idle
    | Popped(id: Id, future: nat, sent: Option<Value>, outcome: Outcome)
    | DeadFlagged
    | FailingDead(todo: map<Id, nat>)
    | Exited

  datatype Closer = Open | ClosingFlagged | FailingClosed(todo: map<Id, nat>) | Closed

  datatype State = State(
    nextId: Id,
    clients: map<Id, Client>,
    futures: map<Id, nat>,
    requests: seq<Request>,
    handling: seq<Request>,
    responses: seq<Response>,
    remotes: map<Id, Remote>,
    alive: bool,
    dead: bool,
    closing: bool,
    dispatcher: Dispatcher,
    closer: Closer
  )

  const INITIAL := State(1, map[], map[], [], [], [], map[], true, false, false, Idle, Open)

  datatype Step =
    | Start(call: Call)
    | Enter(id: Id)
    | Put(id: Id)
    | PutFails(id: Id)
    | Take
    | Finish(index: nat, outcome: Outcome)
    | Pop
    | Complete
    | DetectDeath
    | LockDead
    | FailDead(id: Id)
    | EndDead
    | ExitDispatcher
    | Close
    | LockClose
    | FailClosed(id: Id)
    | EndClose
    | Die(kept: nat)
    | Await(id: Id)
    | Send(id: Id, value: Option<Value>)
    | Abandon(id: Id)
    | Cancel(id: Id)

  /** The future a caller made last. */
  ghost function Last(c: Client): Option<FutureState> {
    if c.made == [] then None else Some(c.made[|c.made| - 1])
  }

  ghost predicate Enabled(s: State, step: Step) {
    match step
    case Start(_) => true
    case Enter(id) => id in s.clients && s.clients[id].at.Entering?
    case Put(id) => id in s.clients && s.clients[id].at.Putting?
    case PutFails(id) => id in s.clients && s.clients[id].at.Putting?
    case Take => s.alive && s.requests != []
    case Finish(index, _) => s.alive && index < |s.handling|
    case Pop => s.dispatcher.Idle? && s.responses != []
    case Complete =>
      && s.dispatcher.Popped? && s.dispatcher.id in s.clients
      && s.dispatcher.future < |s.clients[s.dispatcher.id].made|
    case DetectDeath => s.dispatcher.Idle? && !s.dead && !s.alive
    case LockDead => s.dispatcher.DeadFlagged?
    case FailDead(id) => s.dispatcher.FailingDead? && id in s.dispatcher.todo && HasFuture(s, id, s.dispatcher.todo[id])
    case EndDead => s.dispatcher.FailingDead? && s.dispatcher.todo == map[]
    case ExitDispatcher => s.dispatcher.Idle? && s.closing
    case Close => s.closer.Open?
    case LockClose => s.closer.ClosingFlagged?
    case FailClosed(id) => s.closer.FailingClosed? && id in s.closer.todo && HasFuture(s, id, s.closer.todo[id])
    case EndClose => s.closer.FailingClosed? && s.closer.todo == map[]
    case Die(kept) => s.alive && kept <= |s.responses|
    case Await(id) =>
      && id in s.clients && s.clients[id].at.Waiting?
      && Last(s.clients[id]).Some?
      && (Last(s.clients[id]).value.HasResult? || Last(s.clients[id]).value.HasException?)
    case Send(id, _) => id in s.clients && s.clients[id].at.Holding?
    case Abandon(id) => id in s.clients && s.clients[id].at.Holding?
    case Cancel(id) =>
      id in s.clients && s.clients[id].at.Waiting? && Last(s.clients[id]) == Some(Pending)
  }

  ghost predicate HasFuture(s: State, id: Id, future: nat) {
    id in s.clients && future < |s.clients[id].made|
  }

  ghost function Update(s: State, id: Id, c: Client): State {
    s.(clients := s.clients[id := c])
  }

  /** `set_result`, `set_exception`: a future that is already done stays as it is. */
  ghost function Resolve(c: Client, future: nat, to: FutureState): Client
    requires future < |c.made|
  {
    if c.made[future].Pending? then c.(made := c.made[future := to]) else c
  }

  ghost function Settled(outcome: Outcome): FutureState {
    match outcome
    case Returned(v) => HasResult(v)
    case Raised(e) => HasException(ChildError(e))
  }

  /** The arguments go with a caller's first request only. */
  function ArgsOf(call: Call, serial: nat): Option<int> {
    if serial == 0 then Some(call.args) else None
  }

  /** `response_future` under the lock: refuse if a flag is set, register a new future otherwise. */
  ghost function EnterStep(s: State, id: Id): State
    requires Enabled(s, Enter(id))
  {
    var c := s.clients[id];
    if s.dead then
      Update(s, id, c.(at := Finished(Refused(DeadProcess))))
    else if s.closing then
      Update(s, id, c.(at := Finished(Refused(ProxyClosing))))
    else
      Update(s, id, c.(at := Putting(c.at.send), made := c.made + [Pending]))
      .(futures := s.futures[id := |c.made|])
  }

  /** One handler ends: its generator, created on first use, has answered once more. */
  ghost function FinishStep(s: State, index: nat, outcome: Outcome): State
    requires Enabled(s, Finish(index, outcome))
  {
    var r := s.handling[index];
    var remote := if r.id in s.remotes then s.remotes[r.id] else Remote(r.args, []);
    s.(handling := s.handling[..index] + s.handling[index + 1..],
       remotes := s.remotes[r.id := remote.(log := remote.log + [Exchange(r.send, outcome)])],
       responses := s.responses + [Response(r.id, r.serial, r.send, outcome)])
  }

  /** The dispatcher takes a response and, under the lock, whatever future its id names now. */
  ghost function PopStep(s: State): State
    requires Enabled(s, Pop)
  {
    var r := s.responses[0];
    var rest := s.(responses := s.responses[1..]);
    if r.id in s.futures then
      rest.(futures := s.futures - {r.id}, dispatcher := Popped(r.id, s.futures[r.id], r.sent, r.outcome))
    else
      rest
  }

  /** The caller wakes up with what its last future holds. */
  ghost function Receive(c: Client): Client
    requires c.at.Waiting? && c.made != []
  {
    match c.made[|c.made| - 1]
    case HasResult(v) =>
      var at := if c.call.Generator? then Holding else Finished(Completed(v));
      c.(at := at, log := c.log + [Exchange(c.at.send, Returned(v))])
    case HasException(ChildError(e)) =>
      var end := if c.call.Generator? && e == StopAsyncIteration then Exhausted else Failed(ChildError(e));
      c.(at := Finished(end), log := c.log + [Exchange(c.at.send, Raised(e))])
    case HasException(f) => c.(at := Finished(Failed(f)))
    case _ => c
  }

  ghost function Apply(s: State, step: Step): State
    requires Enabled(s, step)
  {
    match step
    case Start(call) =>
      s.(nextId := s.nextId + 1, clients := s.clients[s.nextId := Client(call, Entering(None), [], [])])
    case Enter(id) => EnterStep(s, id)
    case Put(id) =>
      var c := s.clients[id];
      var serial := if |c.made| == 0 then 0 else |c.made| - 1;
      Update(s, id, c.(at := Waiting(c.at.send)))
      .(requests := s.requests + [Request(id, serial, ArgsOf(c.call, serial), c.at.send)])
    case PutFails(id) => Update(s, id, s.clients[id].(at := Finished(PutFailed))).(futures := s.futures - {id})
    case Take => s.(requests := s.requests[1..], handling := s.handling + [s.requests[0]])
    case Finish(index, outcome) => FinishStep(s, index, outcome)
    case Pop => PopStep(s)
    case Complete =>
      var d := s.dispatcher;
      Update(s, d.id, Resolve(s.clients[d.id], d.future, Settled(d.outcome))).(dispatcher := Idle)
    case DetectDeath => s.(dead := true, dispatcher := DeadFlagged)
    case LockDead => s.(futures := map[], dispatcher := FailingDead(s.futures))
    case FailDead(id) =>
      var todo := s.dispatcher.todo;
      Update(s, id, Resolve(s.clients[id], todo[id], HasException(DeadProcess)))
      .(dispatcher := FailingDead(todo - {id}))
    case EndDead => s.(dispatcher := Idle)
    case ExitDispatcher => s.(dispatcher := Exited)
    case Close => s.(closing := true, closer := ClosingFlagged)
    case LockClose => s.(futures := map[], closer := FailingClosed(s.futures))
    case FailClosed(id) =>
      var todo := s.closer.todo;
      Update(s, id, Resolve(s.clients[id], todo[id], HasException(ProxyClosing)))
      .(closer := FailingClosed(todo - {id}))
    case EndClose => s.(closer := Closed)
    case Die(kept) => s.(alive := false, responses := s.responses[..kept])
    case Await(id) => Update(s, id, Receive(s.clients[id]))
    case Send(id, value) => Update(s, id, s.clients[id].(at := Entering(value)))
    case Abandon(id) => Update(s, id, s.clients[id].(at := Finished(Abandoned)))
    case Cancel(id) =>
      var c := s.clients[id];
      Update(s, id, c.(at := Finished(CancelledByCaller), made := c.made[|c.made| - 1 := Cancelled]))
  }

  // ---------- One caller's view ----------

  ghost function RequestsOf(queue: seq<Request>, id: Id): seq<Request> {
    if queue == [] then
      []
    else
      (if queue[0].id == id then [queue[0]] else []) + RequestsOf(queue[1..], id)
  }

  ghost function ResponsesOf(queue: seq<Response>, id: Id): seq<Response> {
    if queue == [] then
      []
    else
      (if queue[0].id == id then [queue[0]] else []) + ResponsesOf(queue[1..], id)
  }

  ghost function Lookup<T>(m: map<Id, T>, id: Id): Option<T> {
    if id in m then Some(m[id]) else None
  }

  datatype Hand = Hand(future: nat, sent: Option<Value>, outcome: Outcome)

  /** Everything in the state that concerns one id. */
  datatype View = View(
    client: Option<Client>,
    registered: Option<nat>,
    queued: seq<Request>,
    handling: seq<Request>,
    answered: seq<Response>,
    hand: Option<Hand>,
    remote: Option<Remote>,
    failingDead: Option<nat>,
    failingClosed: Option<nat>
  )

  ghost function ViewOf(s: State, id: Id): View {
    View(
      Lookup(s.clients, id),
      Lookup(s.futures, id),
      RequestsOf(s.requests, id),
      RequestsOf(s.handling, id),
      ResponsesOf(s.responses, id),
      (if s.dispatcher.Popped? && s.dispatcher.id == id
       then Some(Hand(s.dispatcher.future, s.dispatcher.sent, s.dispatcher.outcome)) else None),
      Lookup(s.remotes, id),
      (if s.dispatcher.FailingDead? then Lookup(s.dispatcher.todo, id) else None),
      (if s.closer.FailingClosed? then Lookup(s.closer.todo, id) else None))
  }

  /** In how many of the four places (two queues, the handlers, the dispatcher's hand) the id has a message. */
  ghost function Places(v: View): nat {
    |v.queued| + |v.handling| + |v.answered| + (if v.hand.Some? then 1 else 0)
  }

  ghost function RemoteLog(v: View): seq<Exchange> {
    if v.remote.Some? then v.remote.value.log else []
  }

  /** Resolved by the child, rather than by `_fail_pending` or a cancellation. */
  ghost predicate FromChild(f: FutureState) {
    f.HasResult? || (f.HasException? && f.failure.ChildError?)
  }

  ghost predicate LastFromChild(c: Client) {
    c.made != [] && FromChild(c.made[|c.made| - 1])
  }

  /** A message answers or carries the caller's latest request; the caller waits for it, or has left. */
  ghost predicate IsLatest(c: Client, serial: nat, send: Option<Value>) {
    |c.made| == serial + 1 && (c.at == Waiting(send) || c.at.Finished?)
  }

  ghost predicate MessagesOk(v: View, c: Client) {
    && Places(v) <= 1
    && (forall r :: r in v.queued ==> IsLatest(c, r.serial, r.send) && r.args == ArgsOf(c.call, r.serial))
    && (forall r :: r in v.handling ==> IsLatest(c, r.serial, r.send) && r.args == ArgsOf(c.call, r.serial))
    && (forall r :: r in v.answered ==> IsLatest(c, r.serial, r.sent))
    && (v.hand.Some? ==> IsLatest(c, v.hand.value.future, v.hand.value.sent))
  }

  ghost predicate IsLast(c: Client, future: Option<nat>) {
    future.Some? ==> future.value + 1 == |c.made|
  }

  /** Where the caller's last future is, if it is not done. */
  ghost predicate FuturesOk(v: View, c: Client, alive: bool) {
    && IsLast(c, v.registered) && IsLast(c, v.failingDead) && IsLast(c, v.failingClosed)
    && (v.registered.Some? ==>
          && v.hand.None? && v.failingDead.None? && v.failingClosed.None?
          && (Last(c) == Some(Pending) || Last(c) == Some(Cancelled))
          && (c.at.Putting? || c.at.Waiting? || c.at == Finished(CancelledByCaller))
          && (alive ==> c.at.Putting? || Places(v) == 1))
    && (v.hand.Some? ==> v.failingDead.None? && v.failingClosed.None?)
    && (forall k :: 0 <= k < |c.made| - 1 ==> !c.made[k].Pending?)
    && (Last(c) == Some(Pending) ==>
          || v.registered.Some? || v.hand.Some? || v.failingDead.Some? || v.failingClosed.Some?
          || c.at == Finished(PutFailed))
    && (c.at.Putting? || c.at.Waiting? ==> c.made != [] && Last(c) != Some(Cancelled))
    && (c.at.Putting? ==> Places(v) == 0)
    && (c.at.Entering? || c.at.Holding? || LastFromChild(c) ==>
          Places(v) == 0 && v.registered.None? && v.failingDead.None? && v.failingClosed.None?)
  }

  ghost predicate AllReturned(log: seq<Exchange>) {
    forall i :: 0 <= i < |log| ==> log[i].got.Returned?
  }

  /** The two logs: the caller's is a prefix of the child's, and which one is ahead is known at every place. */
  ghost predicate LogsOk(v: View, c: Client) {
    var remote, n := RemoteLog(v), |c.made|;
    && (v.remote.Some? ==> v.remote.value.args == Some(c.call.args))
    && c.log <= remote
    && |c.log| <= n <= |c.log| + 1
    && n <= |remote| + 1 && |remote| <= n
    && (c.at.Entering? || c.at.Holding? ==> |c.log| == n)
    && (c.at.Putting? || c.at.Waiting? ==> |c.log| + 1 == n)
    && (c.at.Putting? ==> |remote| + 1 == n)
    && (v.queued != [] || v.handling != [] ==> |remote| + 1 == n)
    && (forall r :: r in v.answered ==> |remote| == n > 0 && remote[n - 1] == Exchange(r.sent, r.outcome))
    && (v.hand.Some? ==> |remote| == n > 0 && remote[n - 1] == Exchange(v.hand.value.sent, v.hand.value.outcome))
    && (forall k :: 0 <= k < n && FromChild(c.made[k]) ==> k < |remote| && c.made[k] == Settled(remote[k].got))
    && (c.at.Waiting? && LastFromChild(c) ==> |remote| == n && remote[n - 1].sent == c.at.send)
    && (!c.at.Finished? ==> AllReturned(c.log))
    && (c.at == Finished(Exhausted) ==>
          && |remote| == |c.log| == n > 0
          && AllReturned(c.log[..|c.log| - 1])
          && c.log[|c.log| - 1].got == Raised(StopAsyncIteration))
  }

  ghost predicate ViewOk(v: View, alive: bool) {
    match v.client
    case Some(c) => MessagesOk(v, c) && FuturesOk(v, c, alive) && LogsOk(v, c)
    case None => v == View(None, None, [], [], [], None, None, None, None)
  }

  ghost predicate Flags(s: State) {
    && (s.dead ==> !s.alive)
    && (s.dispatcher.DeadFlagged? || s.dispatcher.FailingDead? ==> s.dead)
    && (s.dead && !s.dispatcher.DeadFlagged? ==> s.futures == map[])
    && (s.closing <==> !s.closer.Open?)
    && (s.closing && !s.closer.ClosingFlagged? ==> s.futures == map[])
    && (s.dispatcher.Exited? ==> s.closing)
  }

  ghost predicate Inv(s: State) {
    && Flags(s)
    && (forall id :: ViewOk(ViewOf(s, id), s.alive))
    && (forall id :: id >= s.nextId ==> id !in s.clients)
  }

  lemma InitialInv()
    ensures Inv(INITIAL)
  {
  }

  // ---------- Filtering queues ----------

  lemma {:induction false} RequestsConcat(a: seq<Request>, b: seq<Request>, id: Id)
    ensures RequestsOf(a + b, id) == RequestsOf(a, id) + RequestsOf(b, id)
    decreases |a|
  {
    if a == [] {
      assert a + b == b;
    } else {
      var head := if a[0].id == id then [a[0]] else [];
      assert (a + b)[0] == a[0] && (a + b)[1..] == a[1..] + b;
      assert RequestsOf(a + b, id) == head + RequestsOf(a[1..] + b, id);
      RequestsConcat(a[1..], b, id);
      assert head + (RequestsOf(a[1..], id) + RequestsOf(b, id))
          == (head + RequestsOf(a[1..], id)) + RequestsOf(b, id);
    }
  }

  lemma {:induction false} ResponsesConcat(a: seq<Response>, b: seq<Response>, id: Id)
    ensures ResponsesOf(a + b, id) == ResponsesOf(a, id) + ResponsesOf(b, id)
    decreases |a|
  {
    if a == [] {
      assert a + b == b;
    } else {
      var head := if a[0].id == id then [a[0]] else [];
      assert (a + b)[0] == a[0] && (a + b)[1..] == a[1..] + b;
      assert ResponsesOf(a + b, id) == head + ResponsesOf(a[1..] + b, id);
      ResponsesConcat(a[1..], b, id);
      assert head + (ResponsesOf(a[1..], id) + ResponsesOf(b, id))
          == (head + ResponsesOf(a[1..], id)) + ResponsesOf(b, id);
    }
  }

  lemma RequestsAppend(queue: seq<Request>, r: Request, id: Id)
    ensures RequestsOf(queue + [r], id) == RequestsOf(queue, id) + (if r.id == id then [r] else [])
  {
    RequestsConcat(queue, [r], id);
    assert [r][1..] == [];
  }

  lemma ResponsesAppend(queue: seq<Response>, r: Response, id: Id)
    ensures ResponsesOf(queue + [r], id) == ResponsesOf(queue, id) + (if r.id == id then [r] else [])
  {
    ResponsesConcat(queue, [r], id);
    assert [r][1..] == [];
  }

  /** Taking one element out of the middle. */
  lemma RequestsRemove(queue: seq<Request>, i: nat, id: Id)
    requires i < |queue|
    ensures var a, b := RequestsOf(queue[..i], id), RequestsOf(queue[i + 1..], id);
            && RequestsOf(queue, id) == a + (if queue[i].id == id then [queue[i]] else []) + b
            && RequestsOf(queue[..i] + queue[i + 1..], id) == a + b
  {
    assert queue == queue[..i] + ([queue[i]] + queue[i + 1..]);
    RequestsConcat(queue[..i], [queue[i]] + queue[i + 1..], id);
    RequestsConcat([queue[i]], queue[i + 1..], id);
    RequestsConcat(queue[..i], queue[i + 1..], id);
    assert [queue[i]][1..] == [];
  }

  // What each step does to the one view it concerns.

  lemma LocalEnter(v: View, c: Client, alive: bool, failure: Failure)
    requires v.client == Some(c) && c.at.Entering? && ViewOk(v, alive)
    ensures ViewOk(v.(client := Some(c.(at := Finished(Refused(failure))))), alive)
    ensures ViewOk(v.(client := Some(c.(at := Putting(c.at.send), made := c.made + [Pending])),
                      registered := Some(|c.made|)), alive)
  {
    LocalRefuse(v, c, alive, failure);
    hide LogsOk, FuturesOk, MessagesOk;
    EnteringKeepsRest(v, c, alive);
    EnteringKeepsLogs(v, c, alive);
  }

  lemma LocalRefuse(v: View, c: Client, alive: bool, failure: Failure)
    requires v.client == Some(c) && c.at.Entering? && ViewOk(v, alive)
    ensures ViewOk(v.(client := Some(c.(at := Finished(Refused(failure))))), alive)
  {
  }

  lemma EnteringKeepsRest(v: View, c: Client, alive: bool)
    requires c.at.Entering? && MessagesOk(v, c) && FuturesOk(v, c, alive)
    ensures var d := c.(at := Putting(c.at.send), made := c.made + [Pending]);
            var w := v.(client := Some(d), registered := Some(|c.made|));
            MessagesOk(w, d) && FuturesOk(w, d, alive)
  {
    var d := c.(at := Putting(c.at.send), made := c.made + [Pending]);
    assert forall k :: 0 <= k < |c.made| ==> d.made[k] == c.made[k];
  }

  lemma EnteringKeepsLogs(v: View, c: Client, alive: bool)
    requires c.at.Entering? && FuturesOk(v, c, alive) && LogsOk(v, c)
    ensures var d := c.(at := Putting(c.at.send), made := c.made + [Pending]);
            LogsOk(v.(client := Some(d), registered := Some(|c.made|)), d)
  {
    var d := c.(at := Putting(c.at.send), made := c.made + [Pending]);
    assert forall k :: 0 <= k < |c.made| ==> d.made[k] == c.made[k];
  }

  lemma LocalPut(v: View, c: Client, alive: bool, r: Request)
    requires v.client == Some(c) && c.at.Putting? && ViewOk(v, alive)
    requires |c.made| == r.serial + 1 && r.args == ArgsOf(c.call, r.serial) && r.send == c.at.send
    ensures c.made != []
    ensures ViewOk(v.(client := Some(c.(at := Waiting(c.at.send))), queued := v.queued + [r]), alive)
  {
  }

  lemma LocalPutFails(v: View, c: Client, alive: bool)
    requires v.client == Some(c) && c.at.Putting? && ViewOk(v, alive)
    ensures ViewOk(v.(client := Some(c.(at := Finished(PutFailed))), registered := None), alive)
  {
  }

  lemma LocalTake(v: View, alive: bool)
    requires ViewOk(v, alive) && v.queued != []
    ensures ViewOk(v.(queued := v.queued[1..], handling := v.handling + [v.queued[0]]), alive)
  {
    assert v.queued[0] in v.queued;
  }

  lemma LocalFinish(v: View, alive: bool, a: seq<Request>, r: Request, b: seq<Request>, outcome: Outcome)
    requires ViewOk(v, alive) && v.handling == a + [r] + b
    ensures var remote := if v.remote.Some? then v.remote.value else Remote(r.args, []);
            ViewOk(v.(handling := a + b,
                      remote := Some(remote.(log := remote.log + [Exchange(r.send, outcome)])),
                      answered := v.answered + [Response(r.id, r.serial, r.send, outcome)]), alive)
  {
    assert v.handling[|a|] == r;
    assert r in v.handling && v.client.Some?;
    var c := v.client.value;
    var log := RemoteLog(v);
    var log' := log + [Exchange(r.send, outcome)];
    assert log'[..|log|] == log;
    assert forall k :: 0 <= k < |log| ==> log'[k] == log[k];
    assert !FromChild(c.made[|c.made| - 1]);
  }

  lemma LocalPop(v: View, alive: bool)
    requires ViewOk(v, alive) && v.answered != [] && v.hand.None?
    ensures v.registered.None? ==> ViewOk(v.(answered := v.answered[1..]), alive)
    ensures v.registered.Some? ==>
              ViewOk(v.(answered := v.answered[1..], registered := None,
                        hand := Some(Hand(v.registered.value, v.answered[0].sent, v.answered[0].outcome))), alive)
  {
    assert v.answered[0] in v.answered;
  }

  lemma LocalComplete(v: View, c: Client, alive: bool)
    requires ViewOk(v, alive) && v.hand.Some? && v.client == Some(c)
    ensures v.hand.value.future < |c.made|
    ensures var d := Resolve(c, v.hand.value.future, Settled(v.hand.value.outcome));
            ViewOk(v.(client := Some(d), hand := None), alive)
  {
  }

  lemma LocalLock(v: View, alive: bool)
    requires ViewOk(v, alive)
    ensures v.failingDead.None? ==> ViewOk(v.(registered := None, failingDead := v.registered), alive)
    ensures v.failingClosed.None? ==> ViewOk(v.(registered := None, failingClosed := v.registered), alive)
  {
  }

  /** Failing a future touches neither the messages nor the logs of its caller. */
  lemma FailedElsewhere(v: View, w: View, c: Client, future: nat, failure: Failure)
    requires MessagesOk(v, c) && LogsOk(v, c)
    requires !failure.ChildError? && future < |c.made| && c.made[future].Pending?
    requires v.queued == w.queued && v.handling == w.handling && v.answered == w.answered
    requires v.hand == w.hand && v.remote == w.remote
    ensures var c' := c.(made := c.made[future := HasException(failure)]);
            MessagesOk(w, c') && LogsOk(w, c')
  {
    var c' := c.(made := c.made[future := HasException(failure)]);
    assert forall k :: 0 <= k < |c.made| && k != future ==> c'.made[k] == c.made[k];
    assert LastFromChild(c') ==> LastFromChild(c);
  }

  lemma LocalFail(v: View, c: Client, alive: bool, future: nat, failure: Failure)
    requires ViewOk(v, alive) && v.client == Some(c) && !failure.ChildError?
    requires v.failingDead == Some(future) || v.failingClosed == Some(future)
    ensures future + 1 == |c.made|
    ensures var v' := v.(client := Some(Resolve(c, future, HasException(failure))));
            && (v.failingDead == Some(future) ==> ViewOk(v'.(failingDead := None), alive))
            && (v.failingClosed == Some(future) ==> ViewOk(v'.(failingClosed := None), alive))
  {
    hide LogsOk, MessagesOk;
    if c.made[future].Pending? {
      var c' := c.(made := c.made[future := HasException(failure)]);
      var v' := v.(client := Some(c'));
      FailedElsewhere(v, v'.(failingDead := None), c, future, failure);
      FailedElsewhere(v, v'.(failingClosed := None), c, future, failure);
      assert forall k :: 0 <= k < future ==> c'.made[k] == c.made[k];
    } else {
      NotTheirMatter(v, c);
    }
  }

  lemma NotTheirMatter(v: View, c: Client)
    requires MessagesOk(v, c) && LogsOk(v, c)
    ensures MessagesOk(v.(failingDead := None), c) && LogsOk(v.(failingDead := None), c)
    ensures MessagesOk(v.(failingClosed := None), c) && LogsOk(v.(failingClosed := None), c)
    ensures v.client == Some(c) ==>
              v.(client := Some(c), failingDead := None) == v.(failingDead := None)
  {
  }

  lemma LocalDie(v: View, kept: seq<Response>, lost: seq<Response>, alive: bool)
    requires ViewOk(v, alive) && v.answered == kept + lost
    ensures ViewOk(v.(answered := kept), false)
  {
    assert forall r :: r in kept ==> r in v.answered;
  }

  lemma LocalReceive(v: View, c: Client, alive: bool)
    requires ViewOk(v, alive) && v.client == Some(c) && c.at.Waiting?
    requires c.made != [] && (c.made[|c.made| - 1].HasResult? || c.made[|c.made| - 1].HasException?)
    ensures ViewOk(v.(client := Some(Receive(c))), alive)
  {
    hide LogsOk, FuturesOk, MessagesOk, Receive;
    ReceiveKeepsMessages(v, c, alive);
    ReceiveKeepsLogs(v, c);
  }

  lemma ReceiveKeepsMessages(v: View, c: Client, alive: bool)
    requires MessagesOk(v, c) && FuturesOk(v, c, alive) && c.at.Waiting?
    requires c.made != [] && (c.made[|c.made| - 1].HasResult? || c.made[|c.made| - 1].HasException?)
    ensures var w := v.(client := Some(Receive(c)));
            MessagesOk(w, Receive(c)) && FuturesOk(w, Receive(c), alive)
  {
  }

  lemma ReceiveKeepsLogs(v: View, c: Client)
    requires LogsOk(v, c) && c.at.Waiting?
    requires c.made != [] && (c.made[|c.made| - 1].HasResult? || c.made[|c.made| - 1].HasException?)
    ensures LogsOk(v.(client := Some(Receive(c))), Receive(c))
  {
    if LastFromChild(c) {
      AnswerKeepsLogs(v, c);
    } else {
      FailureKeepsLogs(v, c);
    }
  }

  lemma FailureKeepsLogs(v: View, c: Client)
    requires LogsOk(v, c) && c.at.Waiting? && c.made != []
    requires c.made[|c.made| - 1].HasException? && !c.made[|c.made| - 1].failure.ChildError?
    ensures LogsOk(v.(client := Some(Receive(c))), Receive(c))
  {
    var d := Receive(c);
    assert d.at.Finished? && d.log == c.log && d.made == c.made && d.call == c.call;
  }

  /** The log grows by the exchange that the child's log has at that place. */
  lemma AnswerKeepsLogs(v: View, c: Client)
    requires LogsOk(v, c) && c.at.Waiting? && LastFromChild(c)
    ensures LogsOk(v.(client := Some(Receive(c))), Receive(c))
  {
    var d, n := Receive(c), |c.made|;
    assert d.log == c.log + [RemoteLog(v)[n - 1]];
    assert d.log == RemoteLog(v)[..n] == RemoteLog(v);
    assert d.log[..n - 1] == c.log;
    AppendedReturned(c.log, RemoteLog(v)[n - 1]);
  }

  lemma AppendedReturned(log: seq<Exchange>, last: Exchange)
    ensures AllReturned(log + [last]) <==> AllReturned(log) && last.got.Returned?
  {
    assert forall i :: 0 <= i < |log| ==> (log + [last])[i] == log[i];
    assert (log + [last])[|log|] == last;
  }

  /** How a caller goes on with the value it holds, leaves, or is cancelled while it waits. */
  ghost predicate Leaves(c: Client, d: Client, value: Option<Value>) {
    || (c.at.Holding? && (d == c.(at := Entering(value)) || d == c.(at := Finished(Abandoned))))
    || (c.at.Waiting? && Last(c) == Some(Pending)
        && d == c.(at := Finished(CancelledByCaller), made := c.made[|c.made| - 1 := Cancelled]))
  }

  lemma LocalLeave(v: View, c: Client, d: Client, alive: bool, value: Option<Value>)
    requires ViewOk(v, alive) && v.client == Some(c) && Leaves(c, d, value)
    ensures ViewOk(v.(client := Some(d)), alive)
  {
    hide LogsOk, FuturesOk, MessagesOk, Leaves;
    HoldersHaveNoMessage(v, c, alive);
    LeavingKeepsMessages(v, c, d, value);
    LeavingKeepsFutures(v, c, d, alive, value);
    LeavingKeepsLogs(v, c, d, value);
  }

  lemma HoldersHaveNoMessage(v: View, c: Client, alive: bool)
    requires FuturesOk(v, c, alive)
    ensures c.at.Holding? ==> Places(v) == 0
  {
  }

  lemma LeavingKeepsMessages(v: View, c: Client, d: Client, value: Option<Value>)
    requires MessagesOk(v, c) && Leaves(c, d, value)
    requires c.at.Holding? ==> Places(v) == 0
    ensures MessagesOk(v.(client := Some(d)), d)
  {
  }

  lemma LeavingKeepsFutures(v: View, c: Client, d: Client, alive: bool, value: Option<Value>)
    requires FuturesOk(v, c, alive) && Leaves(c, d, value)
    ensures FuturesOk(v.(client := Some(d)), d, alive)
  {
  }

  lemma LeavingKeepsLogs(v: View, c: Client, d: Client, value: Option<Value>)
    requires LogsOk(v, c) && Leaves(c, d, value)
    ensures LogsOk(v.(client := Some(d)), d)
  {
  }

  // ---------- Every step keeps the invariant ----------

  /** A fresh id has left no trace, so its first view is sound. */
  lemma NewView(s: State, call: Call)
    requires Inv(s)
    ensures ViewOk(ViewOf(Apply(s, Start(call)), s.nextId), s.alive)
  {
    assert ViewOk(ViewOf(s, s.nextId), s.alive);
  }

  lemma InvStart(s: State, call: Call)
    requires Inv(s) && Enabled(s, Start(call))
    ensures Inv(Apply(s, Start(call)))
  {
    hide ViewOk;
    var s' := Apply(s, Start(call));
    forall x
      ensures ViewOk(ViewOf(s', x), s'.alive)
    {
      var v := ViewOf(s, x);
      assert ViewOk(v, s.alive);
      NewView(s, call);
      if x != s.nextId {
        assert ViewOf(s', x) == v;
      }
    }
  }

  lemma InvEnter(s: State, id: Id)
    requires Inv(s) && Enabled(s, Enter(id))
    ensures Inv(Apply(s, Enter(id)))
  {
    hide ViewOk;
    var s' := Apply(s, Enter(id));
    forall x
      ensures ViewOk(ViewOf(s', x), s'.alive)
    {
      var v := ViewOf(s, x);
      assert ViewOk(v, s.alive);
      if x == id {
        LocalEnter(v, s.clients[id], s.alive, if s.dead then DeadProcess else ProxyClosing);
      } else {
        assert ViewOf(s', x) == v;
      }
    }
  }

  lemma PuttingHasFuture(v: View, c: Client, alive: bool)
    requires ViewOk(v, alive) && v.client == Some(c) && c.at.Putting?
    ensures c.made != []
  {
  }

  lemma InvPut(s: State, id: Id)
    requires Inv(s) && Enabled(s, Put(id))
    ensures Inv(Apply(s, Put(id)))
  {
    hide ViewOk, RequestsOf, ResponsesOf;
    var s' := Apply(s, Put(id));
    var r := s'.requests[|s.requests|];
    PutStep(s, id);
    hide Apply, Enabled;
    forall x
      ensures ViewOk(ViewOf(s', x), s'.alive)
    {
      var v := ViewOf(s, x);
      assert ViewOk(v, s.alive);
      RequestsAppend(s.requests, r, x);
      if x == id {
        PuttingHasFuture(v, s.clients[id], s.alive);
        LocalPut(v, s.clients[id], s.alive, r);
      } else {
        assert ViewOf(s', x) == v;
      }
    }
  }

  lemma PutStep(s: State, id: Id)
    requires Enabled(s, Put(id))
    ensures var c := s.clients[id];
            var serial := if |c.made| == 0 then 0 else |c.made| - 1;
            var r := Request(id, serial, ArgsOf(c.call, serial), c.at.send);
            c.at.Putting? &&
            Apply(s, Put(id)) == Update(s, id, c.(at := Waiting(c.at.send))).(requests := s.requests + [r])
  {
  }

  lemma InvPutFails(s: State, id: Id)
    requires Inv(s) && Enabled(s, PutFails(id))
    ensures Inv(Apply(s, PutFails(id)))
  {
    hide ViewOk;
    var s' := Apply(s, PutFails(id));
    forall x
      ensures ViewOk(ViewOf(s', x), s'.alive)
    {
      var v := ViewOf(s, x);
      assert ViewOk(v, s.alive);
      if x == id {
        LocalPutFails(v, s.clients[id], s.alive);
      } else {
        assert ViewOf(s', x) == v;
      }
    }
  }

  lemma InvTake(s: State)
    requires Inv(s) && Enabled(s, Take)
    ensures Inv(Apply(s, Take))
  {
    hide ViewOk;
    var s' := Apply(s, Take);
    forall x
      ensures ViewOk(ViewOf(s', x), s'.alive)
    {
      var v := ViewOf(s, x);
      assert ViewOk(v, s.alive);
      RequestsAppend(s.handling, s.requests[0], x);
      if x == s.requests[0].id {
        assert v.queued[0] == s.requests[0] && v.queued[1..] == RequestsOf(s.requests[1..], x);
        LocalTake(v, s.alive);
      } else {
        assert ViewOf(s', x) == v;
      }
    }
  }

  lemma FinishView(s: State, index: nat, outcome: Outcome, x: Id)
    requires Enabled(s, Finish(index, outcome))
    ensures var v, r := ViewOf(s, x), s.handling[index];
            var a, b := RequestsOf(s.handling[..index], x), RequestsOf(s.handling[index + 1..], x);
            var remote := if v.remote.Some? then v.remote.value else Remote(r.args, []);
            && v.handling == a + (if r.id == x then [r] else []) + b
            && ViewOf(FinishStep(s, index, outcome), x)
               == if x == r.id
                  then v.(handling := a + b,
                          remote := Some(remote.(log := remote.log + [Exchange(r.send, outcome)])),
                          answered := v.answered + [Response(r.id, r.serial, r.send, outcome)])
                  else v
  {
    var r := s.handling[index];
    RequestsRemove(s.handling, index, x);
    ResponsesAppend(s.responses, Response(r.id, r.serial, r.send, outcome), x);
  }

  lemma InvFinish(s: State, index: nat, outcome: Outcome)
    requires Inv(s) && Enabled(s, Finish(index, outcome))
    ensures Inv(Apply(s, Finish(index, outcome)))
  {
    hide ViewOk, ViewOf;
    var s', r := FinishStep(s, index, outcome), s.handling[index];
    forall x
      ensures ViewOk(ViewOf(s', x), s'.alive)
    {
      var v := ViewOf(s, x);
      assert ViewOk(v, s.alive);
      FinishView(s, index, outcome, x);
      if x == r.id {
        var a, b := RequestsOf(s.handling[..index], x), RequestsOf(s.handling[index + 1..], x);
        LocalFinish(v, s.alive, a, r, b, outcome);
      }
    }
  }

  lemma PopOther(s: State, x: Id)
    requires Enabled(s, Pop) && x != s.responses[0].id
    ensures ViewOf(PopStep(s), x) == ViewOf(s, x)
  {
    hide RequestsOf;
  }

  lemma PopOwn(s: State)
    requires Enabled(s, Pop)
    ensures var r := s.responses[0];
            var v := ViewOf(s, r.id);
            && v.hand.None? && v.answered == [r] + v.answered[1..]
            && ViewOf(PopStep(s), r.id)
               == if v.registered.None? then v.(answered := v.answered[1..])
                  else v.(answered := v.answered[1..], registered := None,
                          hand := Some(Hand(v.registered.value, r.sent, r.outcome)))
  {
    hide RequestsOf;
    var r := s.responses[0];
    assert ResponsesOf(s.responses, r.id) == [r] + ResponsesOf(s.responses[1..], r.id);
    assert ViewOf(s, r.id).answered[1..] == ResponsesOf(s.responses[1..], r.id);
  }

  lemma InvPop(s: State)
    requires Inv(s) && Enabled(s, Pop)
    ensures Inv(Apply(s, Pop))
  {
    hide ViewOk, ViewOf;
    var s' := PopStep(s);
    forall x
      ensures ViewOk(ViewOf(s', x), s'.alive)
    {
      var v := ViewOf(s, x);
      assert ViewOk(v, s.alive);
      if x == s.responses[0].id {
        PopOwn(s);
        LocalPop(v, s.alive);
      } else {
        PopOther(s, x);
      }
    }
    assert Flags(s');
  }

  lemma InvComplete(s: State)
    requires Inv(s) && Enabled(s, Complete)
    ensures Inv(Apply(s, Complete))
  {
    hide ViewOk;
    var s' := Apply(s, Complete);
    forall x
      ensures ViewOk(ViewOf(s', x), s'.alive)
    {
      var v := ViewOf(s, x);
      assert ViewOk(v, s.alive);
      if x == s.dispatcher.id {
        LocalComplete(v, s.clients[x], s.alive);
      } else {
        assert ViewOf(s', x) == v;
      }
    }
  }

  /** `_fail_pending` takes the lock, after a death or for `close`. */
  lemma InvLock(s: State, step: Step)
    requires Inv(s) && Enabled(s, step) && (step.LockDead? || step.LockClose?)
    ensures Inv(Apply(s, step))
  {
    hide ViewOk;
    var s' := Apply(s, step);
    forall x
      ensures ViewOk(ViewOf(s', x), s'.alive)
    {
      var v := ViewOf(s, x);
      assert ViewOk(v, s.alive);
      LocalLock(v, s.alive);
    }
  }

  /** `_fail_pending` fails one future of its list. */
  lemma InvFail(s: State, step: Step)
    requires Inv(s) && Enabled(s, step) && (step.FailDead? || step.FailClosed?)
    ensures Inv(Apply(s, step))
  {
    hide ViewOk;
    var s' := Apply(s, step);
    forall x
      ensures ViewOk(ViewOf(s', x), s'.alive)
    {
      var v := ViewOf(s, x);
      assert ViewOk(v, s.alive);
      if x != step.id {
        assert ViewOf(s', x) == v;
      } else if step.FailDead? {
        LocalFail(v, s.clients[x], s.alive, s.dispatcher.todo[x], DeadProcess);
      } else {
        LocalFail(v, s.clients[x], s.alive, s.closer.todo[x], ProxyClosing);
      }
    }
  }

  /** The steps that only move a flag or a thread. */
  lemma InvFlag(s: State, step: Step)
    requires Inv(s) && Enabled(s, step)
    requires step.DetectDeath? || step.EndDead? || step.ExitDispatcher? || step.Close? || step.EndClose?
    ensures Inv(Apply(s, step))
  {
    hide ViewOk;
    var s' := Apply(s, step);
    forall x
      ensures ViewOk(ViewOf(s', x), s'.alive)
    {
      var v := ViewOf(s, x);
      assert ViewOk(v, s.alive);
      assert ViewOf(s', x) == v;
    }
  }

  lemma InvDie(s: State, kept: nat)
    requires Inv(s) && Enabled(s, Die(kept))
    ensures Inv(Apply(s, Die(kept)))
  {
    hide ViewOk;
    var s' := Apply(s, Die(kept));
    forall x
      ensures ViewOk(ViewOf(s', x), s'.alive)
    {
      var v := ViewOf(s, x);
      assert ViewOk(v, s.alive);
      assert s.responses == s.responses[..kept] + s.responses[kept..];
      ResponsesConcat(s.responses[..kept], s.responses[kept..], x);
      LocalDie(v, ResponsesOf(s.responses[..kept], x), ResponsesOf(s.responses[kept..], x), s.alive);
    }
  }

  lemma InvAwait(s: State, id: Id)
    requires Inv(s) && Enabled(s, Await(id))
    ensures Inv(Apply(s, Await(id)))
  {
    hide ViewOk;
    var s' := Apply(s, Await(id));
    forall x
      ensures ViewOk(ViewOf(s', x), s'.alive)
    {
      var v := ViewOf(s, x);
      assert ViewOk(v, s.alive);
      if x == id {
        LocalReceive(v, s.clients[id], s.alive);
      } else {
        assert ViewOf(s', x) == v;
      }
    }
  }

  /** A caller goes on, leaves or is cancelled. */
  lemma InvLeave(s: State, step: Step)
    requires Inv(s) && Enabled(s, step) && (step.Send? || step.Abandon? || step.Cancel?)
    ensures Inv(Apply(s, step))
  {
    hide ViewOk, RequestsOf, ResponsesOf, Leaves;
    var s' := Apply(s, step);
    LeaveStep(s, step);
    hide Apply, Enabled;
    forall x
      ensures ViewOk(ViewOf(s', x), s'.alive)
    {
      var v := ViewOf(s, x);
      assert ViewOk(v, s.alive);
      if x == step.id {
        LocalLeave(v, s.clients[x], s'.clients[x], s.alive, if step.Send? then step.value else None);
      } else {
        assert ViewOf(s', x) == v;
      }
    }
  }

  lemma LeaveStep(s: State, step: Step)
    requires Enabled(s, step) && (step.Send? || step.Abandon? || step.Cancel?)
    ensures var s' := Apply(s, step);
            && step.id in s.clients && step.id in s'.clients
            && s' == Update(s, step.id, s'.clients[step.id])
            && Leaves(s.clients[step.id], s'.clients[step.id], if step.Send? then step.value else None)
  {
  }

  lemma StepKeepsInv(s: State, step: Step)
    requires Inv(s) && Enabled(s, step)
    ensures Inv(Apply(s, step))
  {
    hide Inv, Apply, Enabled;
    match step
    case Start(call) => InvStart(s, call);
    case Enter(id) => InvEnter(s, id);
    case Put(id) => InvPut(s, id);
    case PutFails(id) => InvPutFails(s, id);
    case Take => InvTake(s);
    case Finish(index, outcome) => InvFinish(s, index, outcome);
    case Pop => InvPop(s);
    case Complete => InvComplete(s);
    case DetectDeath => InvFlag(s, step);
    case LockDead => InvLock(s, step);
    case FailDead(_) => InvFail(s, step);
    case EndDead => InvFlag(s, step);
    case ExitDispatcher => InvFlag(s, step);
    case Close => InvFlag(s, step);
    case LockClose => InvLock(s, step);
    case FailClosed(_) => InvFail(s, step);
    case EndClose => InvFlag(s, step);
    case Die(kept) => InvDie(s, kept);
    case Await(id) => InvAwait(s, id);
    case Send(_, _) => InvLeave(s, step);
    case Abandon(_) => InvLeave(s, step);
    case Cancel(_) => InvLeave(s, step);
  }
}
