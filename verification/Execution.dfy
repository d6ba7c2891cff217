/**
 Command cancellation: one operation's cancellation scope shared by any number of threads.

 The scope's locked sections are the methods of `CommandExecution`. `Next` interleaves the threads
 that register, unregister and cancel, and the invocations of cleanup callbacks, each of which
 stops one process under that process's own lock.
 */
module Execution {
  import opened Common

  type Thread = nat
  type Callback = nat      // the stop function of one process
  type Failure = nat

  // ----- The shared scope -----

  datatype Scope = Scope(cancelled: bool, error: Option<Failure>, callbacks: set<Callback>)

  /** The locked part of `register`: a closed scope takes no more callbacks. */
  function Admit(s: Scope, c: Callback): Scope {
    if s.cancelled then s else s.(callbacks := s.callbacks + {c})
  }

  function Discard(s: Scope, c: Callback): Scope {
    s.(callbacks := s.callbacks - {c})
  }

  /** The locked part of `cancel`: the first one closes the scope and keeps its error. */
  function Close(s: Scope, error: Option<Failure>): Scope {
    if s.cancelled then s else s.(cancelled := true, error := error)
  }

  datatype Verdict = Proceed | Raise(error: Failure) | RaiseCancelled

  class CommandExecution {
    var cancelled: bool
    var error: Option<Failure>
    var callbacks: set<Callback>

    function State(): Scope
      reads this
    {
      Scope(cancelled, error, callbacks)
    }

    constructor ()
      ensures State() == Scope(false, None, {})
    {
      cancelled, error, callbacks := false, None, {};
    }

    /** `check`: nothing goes on in a cancelled scope, and its first error is what is raised. */
    method Check() returns (v: Verdict)
      ensures v == Proceed <==> !cancelled
      ensures v.Raise? <==> cancelled && error.Some?
      ensures v.Raise? ==> error == Some(v.error)
    {
      if cancelled {
        v := if error.Some? then Raise(error.value) else RaiseCancelled;
      } else {
        v := Proceed;
      }
    }

    /** Inside the lock of `register`. */
    method Add(c: Callback) returns (added: bool)
      modifies this`callbacks
      ensures State() == Admit(old(State()), c) && added == !old(cancelled)
      ensures callbacks == if added then old(callbacks) + {c} else old(callbacks)
    {
      added := !cancelled;
      if added { callbacks := callbacks + {c}; }
    }

    /** Inside the lock of `unregister`. */
    method Remove(c: Callback)
      modifies this`callbacks
      ensures State() == Discard(old(State()), c) && callbacks == old(callbacks) - {c}
    {
      callbacks := callbacks - {c};
    }

    /** Inside the lock of `cancel`: the callbacks this caller has to invoke, if it is the first. */
    method Cancel(failure: Option<Failure>) returns (todo: Option<set<Callback>>)
      modifies this`cancelled, this`error
      ensures State() == Close(old(State()), failure)
      ensures cancelled && error == if old(cancelled) then old(error) else failure
      ensures todo == if old(cancelled) then None else Some(old(callbacks))
    {
      if cancelled { return None; }
      error, cancelled := failure, true;
      todo := Some(callbacks);
    }
  }

  // ----- Threads -----

  datatype Op =
    | Register(c: Callback)
    | Unregister(c: Callback)
    | Cancel(error: Option<Failure>)
    | CleanUp(c: Callback)               // a process's owner stops it after its own failure

  /** Where an invocation of a stop function is: before its lock, inside the body, or returned. */
  datatype Progress = Asked | InBody | Returned

  datatype Task =
    | Idle
    | Entered(op: Op)                    // called, its locked section not yet run
    | Late(c: Callback)                  // `register` found the scope closed: cleans up, then raises
    | Joining(todo: set<Callback>)       // `cancel` waits for the callbacks it invoked
    | Cleaning(c: Callback)

  datatype Call = Call(thread: Thread, callback: Callback)

  /**
   `calls` are the invocations of stop functions, `locks` who is inside a process's lock, `bodies`
   how often each body ran and `stopped` each process's flag. `live` are the callbacks registered when the scope was closed;
   `refused` those whose registration has failed; `closer` the thread that closed the scope.
   */
  datatype State = State(scope: Scope, tasks: map<Thread, Task>, calls: map<Call, Progress>, locks: map<Callback, Call>,
                         bodies: map<Callback, nat>, stopped: set<Callback>, live: set<Callback>, refused: set<Callback>,
                         closer: Option<Thread>)

  const Initial := State(Scope(false, None, {}), map[], map[], map[], map[], {}, {}, {}, None)

  datatype Event =
    | Begin(t: Thread, op: Op)
    | Locked(t: Thread)                  // the scope's locked section
    | Enter(call: Call)                  // the invocation gets the process's lock
    | Leave(call: Call)                  // the body ends and releases it
    | Return(t: Thread)

  function TaskOf(s: State, t: Thread): Task {
    if t in s.tasks then s.tasks[t] else Idle
  }

  function CallsOf(t: Thread, cs: set<Callback>): set<Call> {
    set c | c in cs :: Call(t, c)
  }

  function Ask(s: State, t: Thread, cs: set<Callback>): map<Call, Progress> {
    s.calls + map k | k in CallsOf(t, cs) :: Asked
  }

  function RunLocked(s: State, t: Thread, op: Op): State {
    match op
    case Register(c) =>
      if s.scope.cancelled
      then s.(tasks := s.tasks[t := Late(c)], calls := Ask(s, t, {c}))
      else s.(scope := Admit(s.scope, c), tasks := s.tasks[t := Idle])
    case Unregister(c) => s.(scope := Discard(s.scope, c), tasks := s.tasks[t := Idle])
    case Cancel(error) =>
      if s.scope.cancelled then s.(tasks := s.tasks[t := Idle])
      else s.(scope := Close(s.scope, error), tasks := s.tasks[t := Joining(s.scope.callbacks)],
              calls := Ask(s, t, s.scope.callbacks), live := s.scope.callbacks, closer := Some(t))
    case CleanUp(c) => s.(tasks := s.tasks[t := Cleaning(c)], calls := Ask(s, t, {c}))
  }

  /** The invocations a waiting thread has to see returned. */
  function Awaited(task: Task): set<Callback> {
    match task
    case Late(c) => {c}
    case Cleaning(c) => {c}
    case Joining(todo) => todo
    case _ => {}
  }

  predicate MayReturn(s: State, t: Thread) {
    && (TaskOf(s, t).Late? || TaskOf(s, t).Joining? || TaskOf(s, t).Cleaning?)
    && forall c | c in Awaited(TaskOf(s, t)) :: Call(t, c) in s.calls && s.calls[Call(t, c)] == Returned
  }

  function Next(s: State, e: Event): State {
    match e
    case Begin(t, op) => if TaskOf(s, t).Idle? then s.(tasks := s.tasks[t := Entered(op)]) else s
    case Locked(t) => if TaskOf(s, t).Entered? then RunLocked(s, t, TaskOf(s, t).op) else s
    case Enter(k) =>
      if k !in s.calls || s.calls[k] != Asked || k.callback in s.locks then s
      else if k.callback in s.stopped then s.(calls := s.calls[k := Returned])
      else s.(calls := s.calls[k := InBody], locks := s.locks[k.callback := k])
    case Leave(k) =>
      if k in s.calls && s.calls[k] == InBody
      then s.(calls := s.calls[k := Returned], locks := s.locks - {k.callback}, stopped := s.stopped + {k.callback},
              bodies := s.bodies[k.callback := 1 + if k.callback in s.bodies then s.bodies[k.callback] else 0]) else s
    case Return(t) =>
      if MayReturn(s, t)
      then s.(tasks := s.tasks[t := Idle],
              refused := if TaskOf(s, t).Late? then s.refused + {TaskOf(s, t).c} else s.refused) else s
  }

  function Run(s: State, events: seq<Event>): State
    decreases |events|
  {
    if events == [] then s else Run(Next(s, events[0]), events[1..])
  }

  // ----- What every step keeps -----

  /** An invocation is inside the body only with the lock, returns only when the process is stopped, and is awaited. */
  predicate CallOk(s: State, k: Call)
    requires k in s.calls
  {
    && (s.calls[k] == InBody ==> k.callback in s.locks && s.locks[k.callback] == k && k.callback !in s.stopped)
    && (s.calls[k] == Returned ==> k.callback in s.stopped)
    && (s.calls[k] != Returned ==> k.callback in Awaited(TaskOf(s, k.thread)))
  }

  predicate TaskOk(s: State, t: Thread) {
    var task := TaskOf(s, t);
    && (forall c | c in Awaited(task) :: Call(t, c) in s.calls)
    && (task.Late? || task.Joining? ==> s.scope.cancelled)
    && (task.Joining? ==> s.closer == Some(t) && task.todo == s.live)
  }

  predicate BodyOk(s: State, c: Callback) {
    (c in s.stopped <==> c in s.bodies && s.bodies[c] == 1) && (c in s.bodies ==> s.bodies[c] == 1)
  }

  /** The thread that closed the scope has every live callback stopped once it no longer joins them. */
  predicate ClosedOk(s: State) {
    && (s.scope.cancelled <==> s.closer.Some?)
    && (s.scope.cancelled && !TaskOf(s, s.closer.value).Joining? ==> s.live <= s.stopped)
    && s.refused <= s.stopped
  }

  ghost predicate Inv(s: State) {
    && (forall k {:trigger CallOk(s, k)} | k in s.calls :: CallOk(s, k))
    && (forall t {:trigger TaskOk(s, t)} :: TaskOk(s, t))
    && (forall c {:trigger BodyOk(s, c)} :: BodyOk(s, c))
    && (forall c | c in s.locks :: s.locks[c] in s.calls && s.calls[s.locks[c]] == InBody && s.locks[c].callback == c)
    && ClosedOk(s)
  }

  lemma AskKeeps(s: State, t: Thread, cs: set<Callback>, k: Call)
    ensures k in Ask(s, t, cs) <==> k in s.calls || (k.thread == t && k.callback in cs)
    ensures k in Ask(s, t, cs) ==> Ask(s, t, cs)[k] == if k.thread == t && k.callback in cs then Asked else s.calls[k]
  {
    assert k in CallsOf(t, cs) <==> k.thread == t && k.callback in cs by {
      if k.thread == t && k.callback in cs { assert k == Call(t, k.callback); }
    }
  }

  lemma BeginKeeps(s: State, t: Thread, op: Op)
    requires Inv(s)
    ensures Inv(Next(s, Begin(t, op)))
  {
    var z := Next(s, Begin(t, op));
    forall k {:trigger CallOk(z, k)} | k in z.calls ensures CallOk(z, k) { assert CallOk(s, k); }
    forall h {:trigger TaskOk(z, h)} ensures TaskOk(z, h) { assert TaskOk(s, h); }
    forall c {:trigger BodyOk(z, c)} ensures BodyOk(z, c) { assert BodyOk(s, c); }
  }

  lemma ReturnKeeps(s: State, t: Thread)
    requires Inv(s)
    ensures Inv(Next(s, Return(t)))
  {
    var z := Next(s, Return(t));
    if MayReturn(s, t) {
      forall c | c in Awaited(TaskOf(s, t)) ensures c in s.stopped {
        assert s.calls[Call(t, c)] == Returned && CallOk(s, Call(t, c));
      }
      assert TaskOk(s, t);
    }
    forall k {:trigger CallOk(z, k)} | k in z.calls ensures CallOk(z, k) { assert CallOk(s, k); }
    forall h {:trigger TaskOk(z, h)} ensures TaskOk(z, h) { assert TaskOk(s, h); }
    forall c {:trigger BodyOk(z, c)} ensures BodyOk(z, c) { assert BodyOk(s, c); }
  }

  lemma BodyKeeps(s: State, e: Event)
    requires Inv(s) && (e.Enter? || e.Leave?)
    ensures Inv(Next(s, e))
  {
    var z := Next(s, e);
    if e.call in s.calls { assert CallOk(s, e.call); }
    assert BodyOk(s, e.call.callback);
    forall k {:trigger CallOk(z, k)} | k in z.calls ensures CallOk(z, k) { assert CallOk(s, k); }
    forall h {:trigger TaskOk(z, h)} ensures TaskOk(z, h) { assert TaskOk(s, h); }
    forall c {:trigger BodyOk(z, c)} ensures BodyOk(z, c) { assert BodyOk(s, c); }
  }

  /** A locked section that asks for the callbacks of `cs` and waits for exactly them. */
  lemma AskingKeeps(s: State, t: Thread, cs: set<Callback>, z: State)
    requires Inv(s) && TaskOf(s, t).Entered? && ClosedOk(z)
    requires z.calls == Ask(s, t, cs) && t in z.tasks && Awaited(z.tasks[t]) == cs && z.tasks == s.tasks[t := z.tasks[t]]
    requires z.locks == s.locks && z.bodies == s.bodies && z.stopped == s.stopped
    requires s.scope.cancelled ==> z.scope.cancelled && z.closer == s.closer && z.live == s.live
    requires TaskOk(z, t)
    ensures Inv(z)
  {
    forall k {:trigger CallOk(z, k)} | k in z.calls ensures CallOk(z, k) {
      AskKeeps(s, t, cs, k);
      if k in s.calls { assert CallOk(s, k); }
    }
    forall h {:trigger TaskOk(z, h)} ensures TaskOk(z, h) {
      assert TaskOk(s, h);
      forall c | h != t && c in Awaited(TaskOf(z, h)) ensures Call(h, c) in z.calls { AskKeeps(s, t, cs, Call(h, c)); }
    }
    forall c {:trigger BodyOk(z, c)} ensures BodyOk(z, c) { assert BodyOk(s, c); }
    forall c | c in z.locks ensures z.locks[c] in z.calls && z.calls[z.locks[c]] == InBody && z.locks[c].callback == c {
      AskKeeps(s, t, cs, s.locks[c]);
      assert CallOk(s, s.locks[c]);
    }
  }

  lemma QuietKeeps(s: State, t: Thread, z: State)
    requires Inv(s) && TaskOf(s, t).Entered? && z == s.(tasks := s.tasks[t := Idle], scope := z.scope)
    requires z.scope.cancelled == s.scope.cancelled
    ensures Inv(z)
  {
    assert Ask(s, t, {}) == s.calls;
    AskingKeeps(s, t, {}, z);
  }

  lemma OneKeeps(s: State, t: Thread, c: Callback, z: State)
    requires Inv(s) && TaskOf(s, t).Entered? && z == s.(tasks := z.tasks, calls := Ask(s, t, {c}))
    requires (z.tasks == s.tasks[t := Late(c)] && s.scope.cancelled) || z.tasks == s.tasks[t := Cleaning(c)]
    ensures Inv(z)
  {
    AskKeeps(s, t, {c}, Call(t, c));
    AskingKeeps(s, t, {c}, z);
  }

  lemma ClosingKeeps(s: State, t: Thread, error: Option<Failure>, z: State)
    requires Inv(s) && TaskOf(s, t).Entered? && !s.scope.cancelled && z == RunLocked(s, t, Cancel(error))
    ensures Inv(z)
  {
    var cs := s.scope.callbacks;
    forall c | c in cs ensures Call(t, c) in z.calls { AskKeeps(s, t, cs, Call(t, c)); }
    AskingKeeps(s, t, cs, z);
  }

  lemma LockedKeeps(s: State, t: Thread)
    requires Inv(s)
    ensures Inv(Next(s, Locked(t)))
  {
    if TaskOf(s, t).Entered? {
      var op := TaskOf(s, t).op;
      var z := Next(s, Locked(t));
      if (op.Register? && s.scope.cancelled) || op.CleanUp? { OneKeeps(s, t, op.c, z); }
      else if op.Cancel? && !s.scope.cancelled { ClosingKeeps(s, t, op.error, z); }
      else { QuietKeeps(s, t, z); }
    }
  }

  lemma StepKeeps(s: State, e: Event)
    requires Inv(s)
    ensures Inv(Next(s, e))
  {
    match e
    case Begin(t, op) => BeginKeeps(s, t, op);
    case Locked(t) => LockedKeeps(s, t);
    case Enter(_) => BodyKeeps(s, e);
    case Leave(_) => BodyKeeps(s, e);
    case Return(t) => ReturnKeeps(s, t);
  }

  lemma {:induction false} RunKeeps(s: State, events: seq<Event>)
    requires Inv(s)
    ensures Inv(Run(s, events))
    decreases |events|
  {
    if events != [] {
      StepKeeps(s, events[0]);
      RunKeeps(Next(s, events[0]), events[1..]);
    }
  }

  // ----- Theorems -----

  /** The first error is never replaced, and a closed scope never takes a callback. */
  lemma {:induction false} FirstErrorStays(s: State, events: seq<Event>)
    requires s.scope.cancelled
    ensures var z := Run(s, events);
            z.scope.cancelled && z.scope.error == s.scope.error && z.live == s.live && z.scope.callbacks <= s.scope.callbacks
    decreases |events|
  {
    if events != [] { FirstErrorStays(Next(s, events[0]), events[1..]); }
  }

  /** The error of the first `cancel` of the run whose locked section is reached. */
  function FirstCancel(s: State, events: seq<Event>): Option<Option<Failure>>
    decreases |events|
  {
    if events == [] then None
    else if events[0].Locked? && TaskOf(s, events[0].t).Entered? && TaskOf(s, events[0].t).op.Cancel?
    then Some(TaskOf(s, events[0].t).op.error)
    else FirstCancel(Next(s, events[0]), events[1..])
  }

  /** The scope is closed exactly from the first `cancel` on, and the error everybody sees is that one's. */
  lemma {:induction false} FirstErrorIsKept(s: State, events: seq<Event>)
    requires !s.scope.cancelled
    ensures var first := FirstCancel(s, events);
            var z := Run(s, events);
            && (z.scope.cancelled <==> first.Some?)
            && z.scope.error == if first.Some? then first.value else s.scope.error
    decreases |events|
  {
    if events != [] {
      var z := Next(s, events[0]);
      if z.scope.cancelled { FirstErrorStays(z, events[1..]); } else { FirstErrorIsKept(z, events[1..]); }
    }
  }

  // ----- Whom a cancellation stops -----

  /** What one step does to the registration of `c` in an open scope. */
  predicate Word(s: State, e: Event, c: Callback, was: bool) {
    if e.Locked? && TaskOf(s, e.t) == Entered(Register(c)) then true
    else if e.Locked? && TaskOf(s, e.t) == Entered(Unregister(c)) then false
    else was
  }

  /** Whether `c` is registered after the run: its last registration or removal decides, and `was` before any. */
  predicate LastWord(s: State, events: seq<Event>, c: Callback, was: bool)
    decreases |events|
  {
    if events == [] then was else LastWord(Next(s, events[0]), events[1..], c, Word(s, events[0], c, was))
  }

  lemma RegisteredByWord(s: State, e: Event, c: Callback)
    requires !Next(s, e).scope.cancelled
    ensures !s.scope.cancelled && (c in Next(s, e).scope.callbacks <==> Word(s, e, c, c in s.scope.callbacks))
  {
  }

  lemma {:induction false} RegisteredByLastWord(s: State, events: seq<Event>, c: Callback)
    requires !Run(s, events).scope.cancelled
    ensures c in Run(s, events).scope.callbacks <==> LastWord(s, events, c, c in s.scope.callbacks)
    decreases |events|
  {
    if events != [] {
      var z := Next(s, events[0]);
      if z.scope.cancelled { FirstErrorStays(z, events[1..]); }
      RegisteredByWord(s, events[0], c);
      RegisteredByLastWord(z, events[1..], c);
    }
  }

  /**
   The first `cancel` invokes exactly the callbacks that are registered at that moment, and waits for
   exactly those: one whose process was unregistered is not invoked, none that is registered is missed.
   */
  lemma CancelInvokesRegistered(events: seq<Event>, t: Thread, error: Option<Failure>, c: Callback)
    requires var s := Run(Initial, events); !s.scope.cancelled && TaskOf(s, t) == Entered(Cancel(error))
    ensures var s := Run(Initial, events);
            var z := Next(s, Locked(t));
            && TaskOf(z, t).Joining?
            && (c in TaskOf(z, t).todo <==> LastWord(Initial, events, c, false))
            && (LastWord(Initial, events, c, false) ==> Call(t, c) in z.calls && z.calls[Call(t, c)] == Asked)
            && (!LastWord(Initial, events, c, false) ==>
                  (Call(t, c) in z.calls <==> Call(t, c) in s.calls) && (Call(t, c) in s.calls ==> z.calls[Call(t, c)] == s.calls[Call(t, c)]))
  {
    var s := Run(Initial, events);
    RegisteredByLastWord(Initial, events, c);
    AskKeeps(s, t, s.scope.callbacks, Call(t, c));
  }

  /** A process's stop body runs at most once, however many threads invoke its stop function. */
  lemma StopRunsAtMostOnce(events: seq<Event>, c: Callback)
    ensures var s := Run(Initial, events); (c in s.bodies ==> s.bodies[c] == 1) && (c in s.stopped <==> c in s.bodies)
  {
    RunKeeps(Initial, events);
    assert BodyOk(Run(Initial, events), c);
  }

  /** An invocation returns only after the process has been stopped, by it or by another. */
  lemma ReturnedMeansStopped(events: seq<Event>, k: Call)
    requires var s := Run(Initial, events); k in s.calls && s.calls[k] == Returned
    ensures k.callback in Run(Initial, events).stopped
  {
    RunKeeps(Initial, events);
    assert CallOk(Run(Initial, events), k);
  }

  /** The step unregisters `c`. */
  predicate Unregisters(s: State, e: Event, c: Callback) {
    e.Locked? && TaskOf(s, e.t) == Entered(Unregister(c))
  }

  /** Nobody unregisters `c` during the run while the scope is open. */
  predicate StaysRegistered(s: State, events: seq<Event>, c: Callback)
    decreases |events|
  {
    events != [] ==>
      (!s.scope.cancelled ==> !Unregisters(s, events[0], c)) && StaysRegistered(Next(s, events[0]), events[1..], c)
  }

  lemma {:induction false} RegisteredBecomesLive(s: State, events: seq<Event>, c: Callback)
    requires if s.scope.cancelled then c in s.live else c in s.scope.callbacks
    requires StaysRegistered(s, events, c)
    ensures var z := Run(s, events); if z.scope.cancelled then c in z.live else c in z.scope.callbacks
    decreases |events|
  {
    if events != [] { RegisteredBecomesLive(Next(s, events[0]), events[1..], c); }
  }

  /**
   No lost cleanup: a callback that is registered, and not unregistered before the scope is closed,
   has stopped its process by the time the cancelling thread returns.
   */
  lemma NoLostCleanup(events: seq<Event>, later: seq<Event>, c: Callback)
    requires var s := Run(Initial, events);
             !s.scope.cancelled && c in s.scope.callbacks && StaysRegistered(s, later, c)
    requires var z := Run(Run(Initial, events), later); z.closer.Some? && !TaskOf(z, z.closer.value).Joining?
    ensures c in Run(Run(Initial, events), later).stopped
  {
    var s := Run(Initial, events);
    RunKeeps(Initial, events);
    RunKeeps(s, later);
    RegisteredBecomesLive(s, later, c);
  }

  /** A registration that fails has stopped its process first. */
  lemma LateRegistrationStops(events: seq<Event>, c: Callback)
    requires c in Run(Initial, events).refused
    ensures c in Run(Initial, events).stopped
  {
    RunKeeps(Initial, events);
  }

  lemma {:induction false} LateReturnsRefused(s: State, events: seq<Event>, t: Thread, c: Callback)
    requires TaskOf(s, t) == Late(c) || c in s.refused
    ensures var z := Run(s, events); TaskOf(z, t) == Late(c) || c in z.refused
    decreases |events|
  {
    if events != [] { LateReturnsRefused(Next(s, events[0]), events[1..], t, c); }
  }

  /**
   No registration is lost, whichever side of the cancellation it falls on: once the cancelling thread
   has returned and `register` has too, the process is stopped, by exactly one run of its stop body.
   */
  lemma NoRegistrationIsLost(events: seq<Event>, t: Thread, c: Callback, later: seq<Event>)
    requires TaskOf(Run(Initial, events), t) == Entered(Register(c))
    requires StaysRegistered(Next(Run(Initial, events), Locked(t)), later, c)
    requires var z := Run(Next(Run(Initial, events), Locked(t)), later);
             z.closer.Some? && !TaskOf(z, z.closer.value).Joining? && TaskOf(z, t) != Late(c)
    ensures var z := Run(Next(Run(Initial, events), Locked(t)), later);
            c in z.stopped && c in z.bodies && z.bodies[c] == 1
  {
    var s := Run(Initial, events);
    RunKeeps(Initial, events);
    var s1 := Next(s, Locked(t));
    StepKeeps(s, Locked(t));
    RunKeeps(s1, later);
    var z := Run(s1, later);
    assert BodyOk(z, c);
    if s.scope.cancelled {
      LateReturnsRefused(s1, later, t, c);
    } else {
      RegisteredBecomesLive(s1, later, c);
    }
  }

  /** A thread that registers in an open scope and one that cancels it: the callback is registered, then invoked. */
  lemma RegisterThenCancel(s: State, t: Thread, c: Callback, u: Thread, error: Option<Failure>)
    requires !s.scope.cancelled && TaskOf(s, t).Idle? && TaskOf(s, u).Idle? && t != u
    ensures var y := Run(s, [Begin(t, Register(c))] + [Locked(t)]);
            var z := Run(y, [Begin(u, Cancel(error))] + [Locked(u)]);
            && TaskOf(y, t).Idle? && y.scope == Scope(false, s.scope.error, s.scope.callbacks + {c})
            && TaskOf(z, u) == Joining(s.scope.callbacks + {c}) && z.scope == Scope(true, error, s.scope.callbacks + {c})
            && Call(u, c) in z.calls && z.calls[Call(u, c)] == Asked
  {
    RunAppend(s, [Begin(t, Register(c))], [Locked(t)]);
    RunOne(s, Begin(t, Register(c)));
    RunOne(Next(s, Begin(t, Register(c))), Locked(t));
    var y := Run(s, [Begin(t, Register(c))] + [Locked(t)]);
    RunAppend(y, [Begin(u, Cancel(error))], [Locked(u)]);
    RunOne(y, Begin(u, Cancel(error)));
    var x := Next(y, Begin(u, Cancel(error)));
    RunOne(x, Locked(u));
    AskKeeps(x, u, x.scope.callbacks, Call(u, c));
  }

  // ----- Nobody waits forever -----

  predicate Waits(task: Task) {
    task.Late? || task.Joining? || task.Cleaning?
  }

  /** The thread's invocation of `c` has returned. */
  predicate Done(s: State, t: Thread, c: Callback) {
    Call(t, c) in s.calls && s.calls[Call(t, c)] == Returned
  }

  /** Whoever is inside the process's lock finishes; after that, or at once if nobody is, the invocation goes through. */
  lemma CallCanReturn(s: State, t: Thread, c: Callback) returns (rest: seq<Event>)
    requires Inv(s) && Call(t, c) in s.calls
    ensures var z := Run(s, rest); Inv(z) && z.tasks == s.tasks && Done(z, t, c) && forall h | Done(s, t, h) :: Done(z, t, h)
  {
    var k := Call(t, c);
    assert CallOk(s, k);
    if s.calls[k] == Returned {
      rest := [];
    } else {
      var leave := if c in s.locks then Leave(s.locks[c]) else Enter(k);
      var again := if c in s.locks then Enter(k) else Leave(k);
      var y := Next(s, leave);
      rest := [leave] + [again];
      RunAppend(s, [leave], [again]);
      RunOne(s, leave);
      RunOne(y, again);
      StepKeeps(s, leave);
      StepKeeps(y, again);
    }
  }

  lemma {:induction false} RunAppend(s: State, a: seq<Event>, b: seq<Event>)
    ensures Run(s, a + b) == Run(Run(s, a), b)
    decreases |a|
  {
    if a == [] {
      assert a + b == b;
    } else {
      assert (a + b)[0] == a[0] && (a + b)[1..] == a[1..] + b;
      RunAppend(Next(s, a[0]), a[1..], b);
    }
  }

  lemma RunOne(s: State, e: Event)
    ensures Run(s, [e]) == Next(s, e)
  {
    assert [e][1..] == [];
  }

  lemma {:induction false} CallsCanReturn(s: State, t: Thread, cs: set<Callback>) returns (rest: seq<Event>)
    requires Inv(s) && forall c | c in cs :: Call(t, c) in s.calls
    ensures var z := Run(s, rest); Inv(z) && z.tasks == s.tasks && (forall c | c in cs :: Done(z, t, c))
    ensures forall h | Done(s, t, h) :: Done(Run(s, rest), t, h)
    decreases cs
  {
    rest := [];
    if cs != {} {
      var c :| c in cs;
      var first := CallsCanReturn(s, t, cs - {c});
      var y := Run(s, first);
      CallsKept(s, first, Call(t, c));
      var last := CallCanReturn(y, t, c);
      RunAppend(s, first, last);
      rest := first + last;
    }
  }

  lemma {:induction false} CallsKept(s: State, events: seq<Event>, k: Call)
    requires k in s.calls
    ensures k in Run(s, events).calls
    decreases |events|
  {
    if events != [] {
      CallStays(s, events[0], k);
      CallsKept(Next(s, events[0]), events[1..], k);
    }
  }

  lemma CallStays(s: State, e: Event, k: Call)
    requires k in s.calls
    ensures k in Next(s, e).calls
  {
  }

  /** Some continuation ends with `t` returned and everything it waits for stopped. */
  ghost predicate CanReturn(s: State, t: Thread) {
    exists rest :: TaskOf(Run(s, rest), t).Idle? && Awaited(TaskOf(s, t)) <= Run(s, rest).stopped
  }

  /** In every reachable state every waiting thread can still return: stopping processes never deadlocks. */
  lemma WaitersCanReturn(events: seq<Event>, t: Thread)
    requires Waits(TaskOf(Run(Initial, events), t))
    ensures CanReturn(Run(Initial, events), t)
  {
    var s := Run(Initial, events);
    RunKeeps(Initial, events);
    assert TaskOk(s, t);
    var cs := Awaited(TaskOf(s, t));
    var first := CallsCanReturn(s, t, cs);
    var y := Run(s, first);
    forall c | c in cs ensures c in y.stopped { assert Done(y, t, c) && CallOk(y, Call(t, c)); }
    RunAppend(s, first, [Return(t)]);
    RunOne(y, Return(t));
    assert TaskOf(Run(s, first + [Return(t)]), t).Idle?;
  }
}
