/** The workspace update engine (`WorkspaceUpdator`) as a sequential state
    machine. The engine's three executors become explicit state: the
    single-thread `updates` executor is a queue of driver jobs, the update
    pool `service` is a bag of submitted parts that may run in any order,
    and the single-thread `events` executor is a queue of notifications.
    The default controller's tick is split into the steps at which other
    threads can act: `BeginTick` (time, snapshot, couplings, tick signal),
    `UpdateComponent` (one turn of the controller's loop), `ExecutePart`
    (a pool thread runs one part) and `FinishTick` (`await` returns). */
module Updator {
  import opened Optional
  import opened Latches
  import opened TickSpec

  /** Java's `int`. */
  newtype int32 = x: int | -0x8000_0000 <= x < 0x8000_0000

  const MaxInt: int32 := 0x7fff_ffff
  const MinInt: int32 := -0x8000_0000

  /** Java's `++` on an `int`. */
  function Increment(t: int32): (r: int32)
    ensures (r as int - t as int - 1) % 0x1_0000_0000 == 0
    ensures t < MaxInt ==> r > t
  {
    if t == MaxInt then MinInt else t + 1
  }

  /** Identity of a registered `WorkspaceUpdatorListener`. */
  type Listener = nat

  /** A notification handed to the `events` executor; each carries the value
      of `time` read when it was created. */
  datatype Event =
    | UpdateStarted(component: Component, time: int32, thread: int)
    | UpdateFinished(component: Component, time: int32, thread: int)
    | CouplingsUpdated(time: int32)

  /** A call made on a listener. */
  datatype ListenerCall =
    | StartingComponentUpdate(listener: Listener, component: Component, time: int32, thread: int)
    | FinishedComponentUpdate(listener: Listener, component: Component, time: int32, thread: int)
    | UpdatedCouplings(listener: Listener, time: int32)
    | ChangeNumThreads(listener: Listener)

  /** The call that delivering `ev` makes on listener `l`. */
  function Receive(l: Listener, ev: Event): (r: ListenerCall)
  {
    match ev
    case UpdateStarted(c, t, th) => StartingComponentUpdate(l, c, t, th)
    case UpdateFinished(c, t, th) => FinishedComponentUpdate(l, c, t, th)
    case CouplingsUpdated(t) => UpdatedCouplings(l, t)
  }

  /** The calls that delivering `ev` makes, one per listener, in list order. */
  function Deliveries(ls: seq<Listener>, ev: Event): (r: seq<ListenerCall>)
  {
    seq(|ls|, i requires 0 <= i < |ls| => Receive(ls[i], ev))
  }

  /** The calls that a change of the thread count makes, one per listener,
      in list order. */
  function ThreadCountNotices(ls: seq<Listener>): (r: seq<ListenerCall>)
  {
    seq(|ls|, i requires 0 <= i < |ls| => ChangeNumThreads(ls[i]))
  }

  /** `List.remove(Object)`: the list without the first element equal to
      `x`, or the list itself when there is none. */
  function Without<T(==)>(s: seq<T>, x: T): (r: seq<T>)
    ensures x !in s ==> r == s
    ensures multiset(r) == multiset(s) - multiset{x}
  {
    if s == [] then []
    else
      assert s == [s[0]] + s[1..];
      if s[0] == x then s[1..] else [s[0]] + Without(s[1..], x)
  }

  /** It is the first occurrence that goes: the elements before it and after
      it stay, in order. */
  lemma {:induction false} WithoutRemovesFirst<T>(s: seq<T>, x: T, i: nat)
    requires i < |s| && s[i] == x && x !in s[..i]
    ensures Without(s, x) == s[..i] + s[i + 1..]
  {
    if i > 0 {
      assert s[0] != x by { assert s[0] == s[..i][0]; }
      assert x !in s[1..][..i - 1] by { assert s[1..][..i - 1] == s[..i][1..]; }
      WithoutRemovesFirst(s[1..], x, i - 1);
      assert s[..i] == [s[0]] + s[1..][..i - 1];
      assert s[i + 1..] == s[1..][i..];
    }
  }

  /** The task synchronization manager: the built-in one whose methods do
      nothing, or an external one known by its identity. */
  datatype SynchManager = NoAction | Manager(id: nat)

  datatype HookOp = QueueTasks | ReleaseTasks | RunTasks

  /** A call that reached an external synchronization manager. */
  datatype HookCall = HookCall(manager: nat, op: HookOp)

  /** The observable effect of calling `op` on manager `m`. */
  function Invoke(m: SynchManager, op: HookOp): (r: seq<HookCall>)
  {
    match m
    case NoAction => []
    case Manager(id) => [HookCall(id, op)]
  }

  /** The hook calls of one `runOnce` job: `queueTasks`, the tick's
      `runTasks` unless the controller threw, then `releaseTasks` and
      `runTasks`. */
  function RunOnceHooks(m: SynchManager, controllerThrew: bool): (r: seq<HookCall>)
  {
    Invoke(m, QueueTasks) + (if controllerThrew then [] else Invoke(m, RunTasks))
      + Invoke(m, ReleaseTasks) + Invoke(m, RunTasks)
  }

  /** A call the controller makes on its `UpdateControls`. */
  datatype ControlCall =
    | GetComponentsCall
    | UpdateCouplingsCall
    | UpdateComponentCall(index: nat)

  /** The controller's loop handing over components 0 to n - 1. */
  function HandOvers(n: nat): (r: seq<ControlCall>)
  {
    seq(n, i requires 0 <= i < n => UpdateComponentCall(i))
  }

  /** The calls the default controller makes in one tick over a snapshot of
      `n` components, when the coupling update does or does not throw. */
  function ControllerTrace(n: nat, couplingsThrow: bool): (r: seq<ControlCall>)
  {
    [GetComponentsCall]
      + (if n == 0 then []
         else [UpdateCouplingsCall]
              + (if couplingsThrow then [] else HandOvers(n)))
  }

  /** With an empty snapshot the controller neither updates couplings nor
      hands over any component. Otherwise it updates couplings exactly once,
      before any component, and then hands over every component in snapshot
      order. */
  lemma {:induction false} CouplingsOnceBeforeComponents(n: nat, couplingsThrow: bool)
    ensures var t := ControllerTrace(n, couplingsThrow);
      && (UpdateCouplingsCall in t <==> n > 0)
      && multiset(t)[UpdateCouplingsCall] == (if n > 0 then 1 else 0)
      && (forall j :: 0 <= j < |t| && t[j].UpdateComponentCall? ==> 1 < j && t[1] == UpdateCouplingsCall)
      && (n > 0 && !couplingsThrow ==> |t| == n + 2 && forall i :: 0 <= i < n ==> t[i + 2] == UpdateComponentCall(i))
  {
    var t := ControllerTrace(n, couplingsThrow);
    if n > 0 {
      var tail := if couplingsThrow then [] else HandOvers(n);
      assert t == [GetComponentsCall, UpdateCouplingsCall] + tail;
      assert UpdateCouplingsCall !in tail;
      assert multiset(t) == multiset{GetComponentsCall, UpdateCouplingsCall} + multiset(tail);
    } else {
      assert t == [GetComponentsCall];
    }
  }

  /** The driver job submitted to the `updates` executor: the `while (run)`
      loop of `run()`, or the single tick of `runOnce()`. */
  datatype Job = Loop | Once


  /** Where the driver is. `Between`: a job is running, outside the
      controller's loop; `ticked` says whether it has been through `doUpdate`
      yet. `Ticking`: inside the default controller, from the creation of the
      tick signal until `await` returns. */
  datatype Phase =
    | Idle
    | Between(job: Job, ticked: bool)
    | Ticking(job: Job)

  /** `UpdatorThreadFactory`: numbers the pool threads it creates 1, 2, ... */
  class UpdatorThreadFactory {
    var nextThread: int

    constructor ()
      ensures nextThread == 1
    {
      nextThread := 1;
    }

    /** `newThread`: the new thread gets the current number, and the next
        thread the one after it. */
    method NewThread() returns (number: int)
      modifies this
      ensures number == old(nextThread)
      ensures nextThread == number + 1
    {
      number := nextThread;
      nextThread := nextThread + 1;
    }
  }

  /** `Executors.newFixedThreadPool(size, factory)`. */
  class ThreadPool {
    const size: int
    const factory: UpdatorThreadFactory

    constructor (size: int, factory: UpdatorThreadFactory)
      requires size >= 1
      ensures this.size == size && this.factory == factory
    {
      this.size := size;
      this.factory := factory;
    }
  }

  class WorkspaceUpdator {
    /** Number of times the update has started. */
    var time: int32
    /** Whether the driver loop should keep going. */
    var run: bool
    var numThreads: int
    var service: ThreadPool
    var snychManager: SynchManager
    var listeners: seq<Listener>

    /** Driver jobs submitted to the `updates` executor and not yet started. */
    var updates: seq<Job>
    /** Notifications submitted to the `events` executor and not yet delivered. */
    var events: seq<Event>
    /** Calls made on listeners so far, in order. */
    var listenerCalls: seq<ListenerCall>
    /** Calls that reached an external synchronization manager, in order. */
    var hookCalls: seq<HookCall>
    /** Calls the controller made on its controls, in order. */
    var controlCalls: seq<ControlCall>

    var phase: Phase
    /** The signals and pool of the most recent tick that created a tick
        signal. */
    var barrier: Barrier

    ghost predicate Valid()
      reads this
    {
      && barrier.Valid()
      && (!phase.Ticking? ==> barrier.pending == multiset{})
    }

    /** Whether the running job goes into `doUpdate` next: a `run()` job
        while `run` is set, a `runOnce()` job that has not ticked yet. */
    predicate MayTick()
      reads this
    {
      phase.Between? && (if phase.job == Loop then run else !phase.ticked)
    }

    /** Whether the running job leaves next: a `run()` job once `run` is
        clear, a `runOnce()` job after its tick. */
    predicate MayExit()
      reads this
    {
      phase.Between? && (if phase.job == Loop then !run else phase.ticked)
    }

    function GetTime(): (t: int32)
      reads this
    {
      time
    }

    function IsRunning(): (running: bool)
      reads this
    {
      run
    }

    function GetNumThreads(): (n: int)
      reads this
    {
      numThreads
    }

    constructor (threads: int)
      requires threads >= 1
      ensures Valid()
      ensures time == 0 && !run && numThreads == threads
      ensures fresh(service) && fresh(service.factory)
      ensures service.size == threads && service.factory.nextThread == 1
      ensures snychManager == NoAction && listeners == []
      ensures updates == [] && events == [] && phase == Idle
      ensures listenerCalls == [] && hookCalls == [] && controlCalls == []
    {
      time := 0;
      run := false;
      numThreads := threads;
      var factory := new UpdatorThreadFactory();
      service := new ThreadPool(threads, factory);
      snychManager := NoAction;
      listeners := [];
      updates, events := [], [];
      listenerCalls, hookCalls, controlCalls := [], [], [];
      phase := Idle;
      barrier := NewTick([]);
    }

    /** A null manager installs the manager whose methods do nothing. */
    method SetTaskSynchronizationManager(manager: Option<nat>)
      modifies this`snychManager
      ensures snychManager == (if manager.None? then NoAction else Manager(manager.value))
    {
      if manager.None? {
        snychManager := NoAction;
      } else {
        snychManager := Manager(manager.value);
      }
    }

    method Stop()
      modifies this`run
      ensures !run
    {
      run := false;
    }

    /** Sets `run` and submits a driver loop. */
    method Run()
      modifies this`run, this`updates
      ensures run
      ensures updates == old(updates) + [Loop]
    {
      run := true;
      updates := updates + [Loop];
    }

    /** Submits a single tick; `run` is not touched. */
    method RunOnce()
      modifies this`updates
      ensures updates == old(updates) + [Once]
    {
      updates := updates + [Once];
    }

    /** The `updates` executor starts the next job, which first calls
        `queueTasks`. */
    method StartJob()
      requires Valid() && phase == Idle && updates != []
      modifies this`updates, this`phase, this`hookCalls
      ensures Valid()
      ensures phase == Between(old(updates)[0], false)
      ensures updates == old(updates)[1..]
      ensures hookCalls == old(hookCalls) + Invoke(snychManager, QueueTasks)
    {
      var job := updates[0];
      updates := updates[1..];
      hookCalls := hookCalls + Invoke(snychManager, QueueTasks);
      phase := Between(job, false);
    }

    /** The job leaves: `releaseTasks`, then `runTasks`. */
    method ExitJob()
      requires Valid() && MayExit()
      modifies this`phase, this`hookCalls
      ensures Valid()
      ensures phase == Idle
      ensures hookCalls == old(hookCalls) + Invoke(snychManager, ReleaseTasks) + Invoke(snychManager, RunTasks)
    {
      hookCalls := hookCalls + Invoke(snychManager, ReleaseTasks) + Invoke(snychManager, RunTasks);
      phase := Idle;
    }

    /** `doUpdate` up to the controller's loop: `time++`, then the default
        controller takes the snapshot `components`. An empty snapshot ends
        the controller at once and `doUpdate` calls `runTasks`. Otherwise
        the couplings are updated; if that throws, the exception leaves
        `doUpdate` before `runTasks`. If not, the couplings notification is
        queued and the tick signal is created. */
    method BeginTick(components: seq<Component>, couplingsThrow: bool)
      requires Valid() && MayTick()
      modifies this`time, this`controlCalls, this`hookCalls, this`events, this`phase, this`barrier
      ensures Valid()
      ensures time == Increment(old(time))
      ensures |components| == 0 ==>
        && phase == Between(old(phase).job, true)
        && controlCalls == old(controlCalls) + [GetComponentsCall]
        && hookCalls == old(hookCalls) + Invoke(snychManager, RunTasks)
        && events == old(events)
        && barrier == old(barrier)
      ensures |components| > 0 && couplingsThrow ==>
        && phase == Between(old(phase).job, true)
        && controlCalls == old(controlCalls) + [GetComponentsCall, UpdateCouplingsCall]
        && hookCalls == old(hookCalls)
        && events == old(events)
        && barrier == old(barrier)
      ensures |components| > 0 && !couplingsThrow ==>
        && phase == Ticking(old(phase).job)
        && controlCalls == old(controlCalls) + [GetComponentsCall, UpdateCouplingsCall]
        && hookCalls == old(hookCalls)
        && events == old(events) + [CouplingsUpdated(time)]
        && barrier == NewTick(components)
    {
      time := Increment(time);
      var job := phase.job;
      controlCalls := controlCalls + [GetComponentsCall];
      if |components| < 1 {
        hookCalls := hookCalls + Invoke(snychManager, RunTasks);
        phase := Between(job, true);
      } else {
        controlCalls := controlCalls + [UpdateCouplingsCall];
        if couplingsThrow {
          phase := Between(job, true);
        } else {
          NotifyCouplingsUpdated();
          barrier := NewTick(components);
          phase := Ticking(job);
        }
      }
    }

    /** One turn of the controller's loop, `controls.updateComponent`: a
        disabled component calls `done()` on the tick signal and returns; an
        enabled one gets a per-component signal armed with its part count,
        and each part is submitted to the pool. */
    method UpdateComponent()
      requires Valid() && phase.Ticking? && !barrier.Awaiting()
      modifies this`controlCalls, this`barrier
      ensures Valid()
      ensures controlCalls == old(controlCalls) + [UpdateComponentCall(old(barrier).next)]
      ensures barrier == HandOver(old(barrier))
    {
      var b := barrier;
      var k := b.next;
      var c := b.snapshot[k];
      controlCalls := controlCalls + [UpdateComponentCall(k)];
      if !c.updateOn {
        barrier := b.(next := k + 1, tickCount := CountDown(b.tickCount));
        assert barrier == HandOver(b);
      } else {
        var submitted := b.pending;
        for p := 0 to c.parts
          invariant submitted == b.pending + multiset{}[k := p]
        {
          submitted := submitted + multiset{k};
        }
        barrier := b.(next := k + 1, partCounts := b.partCounts[k := c.parts], pending := submitted);
        assert barrier == HandOver(b);
      }
    }

    /** The controller's loop over the snapshot: every component, in order,
        is handed to `updateComponent`. */
    method HandOverAll()
      requires Valid() && phase.Ticking? && barrier.next == 0
      modifies this`controlCalls, this`barrier
      ensures Valid() && barrier.Awaiting()
      ensures barrier.snapshot == old(barrier).snapshot
      ensures controlCalls == old(controlCalls) + HandOvers(|barrier.snapshot|)
    {
      while !barrier.Awaiting()
        invariant Valid() && barrier.snapshot == old(barrier).snapshot
        invariant controlCalls == old(controlCalls) + HandOvers(barrier.next)
        decreases |barrier.snapshot| - barrier.next
      {
        assert HandOvers(barrier.next + 1) == HandOvers(barrier.next) + [UpdateComponentCall(barrier.next)];
        UpdateComponent();
      }
    }

    /** A pool thread runs one submitted part of component `i`. */
    method ExecutePart(i: nat)
      requires Valid() && i in barrier.pending
      modifies this`barrier
      ensures Valid() && phase.Ticking?
      ensures barrier == RunPart(old(barrier), i)
    {
      barrier := RunPart(barrier, i);
    }

    /** `await` returns once the tick signal is zero, and `doUpdate` calls
        `runTasks`. By then every part of the tick has run. */
    method FinishTick()
      requires Valid() && phase.Ticking? && barrier.Awaiting() && barrier.tickCount == 0
      modifies this`phase, this`hookCalls
      ensures Valid()
      ensures barrier.pending == multiset{}
      ensures phase == Between(old(phase).job, true)
      ensures hookCalls == old(hookCalls) + Invoke(snychManager, RunTasks)
    {
      AwaitReturnsAfterAllParts(barrier);
      hookCalls := hookCalls + Invoke(snychManager, RunTasks);
      phase := Between(phase.job, true);
    }

    /** The pool runs every submitted part, in an arbitrary order. Afterwards
        the tick signal is zero exactly when every enabled component had at
        least one part. */
    method RunPendingParts()
      requires Valid() && phase.Ticking? && barrier.Awaiting()
      modifies this`barrier
      ensures Valid() && barrier.Awaiting()
      ensures barrier.snapshot == old(barrier).snapshot
      ensures barrier.pending == multiset{}
      ensures barrier.tickCount == 0 <==> AllEnabledHaveParts(barrier.snapshot)
    {
      while barrier.pending != multiset{}
        invariant Valid() && barrier.Awaiting()
        invariant barrier.snapshot == old(barrier).snapshot
        decreases |barrier.pending|
      {
        var i :| i in barrier.pending;
        ExecutePart(i);
      }
      DrainedTickOpensIff(barrier);
    }

    /** The rest of the default controller once the tick signal exists: the
        loop hands over every component, the pool runs the parts, and if
        `await` returns `doUpdate` calls `runTasks`. */
    method CompleteTick() returns (completed: bool)
      requires Valid() && phase.Ticking? && barrier.next == 0
      modifies this`controlCalls, this`hookCalls, this`phase, this`barrier
      ensures Valid()
      ensures controlCalls == old(controlCalls) + HandOvers(|old(barrier).snapshot|)
      ensures completed <==> AllEnabledHaveParts(old(barrier).snapshot)
      ensures completed ==> phase == Between(old(phase).job, true)
      ensures !completed ==> phase == old(phase) && barrier.pending == multiset{} && barrier.tickCount > 0
      ensures hookCalls == old(hookCalls) + (if completed then Invoke(snychManager, RunTasks) else [])
    {
      HandOverAll();
      RunPendingParts();
      if barrier.tickCount == 0 {
        FinishTick();
        completed := true;
      } else {
        completed := false;
      }
    }

    /** One whole `doUpdate` under the default controller: the controller
        hands over every component, then the pool runs the parts. It
        completes unless `await` never returns, which happens exactly when
        the tick signal was created and some enabled component has no parts.
        `time` advances in every case. */
    method DoUpdate(components: seq<Component>, couplingsThrow: bool) returns (completed: bool)
      requires Valid() && MayTick()
      modifies this`time, this`controlCalls, this`hookCalls, this`events, this`phase, this`barrier
      ensures Valid()
      ensures time == Increment(old(time))
      ensures controlCalls == old(controlCalls) + ControllerTrace(|components|, couplingsThrow)
      ensures completed <==> |components| == 0 || couplingsThrow || AllEnabledHaveParts(components)
      ensures completed ==> phase == Between(old(phase).job, true)
      ensures !completed ==> phase == Ticking(old(phase).job) && barrier.pending == multiset{} && barrier.tickCount > 0
      ensures hookCalls == old(hookCalls)
        + (if completed && !(|components| > 0 && couplingsThrow) then Invoke(snychManager, RunTasks) else [])
      ensures events == old(events) + (if |components| > 0 && !couplingsThrow then [CouplingsUpdated(time)] else [])
    {
      BeginTick(components, couplingsThrow);
      if !phase.Ticking? {
        return true;
      }
      assert controlCalls + HandOvers(|components|)
          == old(controlCalls) + ControllerTrace(|components|, couplingsThrow);
      completed := CompleteTick();
    }

    /** A `runOnce()` job run to its end: `queueTasks`, one `doUpdate`,
        `releaseTasks`, `runTasks`. The `run` flag is not touched. */
    method RunOnceJob(components: seq<Component>, couplingsThrow: bool) returns (completed: bool)
      requires Valid() && phase == Idle && updates != [] && updates[0] == Once
      modifies this`time, this`controlCalls, this`hookCalls, this`events, this`phase, this`barrier, this`updates
      ensures Valid()
      ensures completed <==> |components| == 0 || couplingsThrow || AllEnabledHaveParts(components)
      ensures completed ==> phase == Idle
      ensures completed ==> hookCalls == old(hookCalls) + RunOnceHooks(snychManager, |components| > 0 && couplingsThrow)
      ensures time == Increment(old(time))
      ensures updates == old(updates)[1..]
    {
      StartJob();
      completed := DoUpdate(components, couplingsThrow);
      if completed {
        ExitJob();
      }
    }

    /** Queues a "component update started" notification carrying the
        current `time`. */
    method NotifyUpdateStarted(component: Component, thread: int)
      modifies this`events
      ensures events == old(events) + [UpdateStarted(component, time, thread)]
    {
      events := events + [UpdateStarted(component, time, thread)];
    }

    /** Queues a "component update finished" notification carrying the
        current `time`. */
    method NotifyUpdateFinished(component: Component, thread: int)
      modifies this`events
      ensures events == old(events) + [UpdateFinished(component, time, thread)]
    {
      events := events + [UpdateFinished(component, time, thread)];
    }

    /** Queues a "couplings updated" notification carrying the current
        `time`. */
    method NotifyCouplingsUpdated()
      modifies this`events
      ensures events == old(events) + [CouplingsUpdated(time)]
    {
      events := events + [CouplingsUpdated(time)];
    }

    /** The `events` executor delivers its oldest notification to every
        listener registered at that moment, in list order. */
    method DeliverEvent()
      requires events != []
      modifies this`events, this`listenerCalls
      ensures events == old(events)[1..]
      ensures listenerCalls == old(listenerCalls) + Deliveries(listeners, old(events)[0])
    {
      var ev := events[0];
      events := events[1..];
      var calls := listenerCalls;
      for i := 0 to |listeners|
        invariant calls == listenerCalls + Deliveries(listeners[..i], ev)
      {
        assert Deliveries(listeners[..i + 1], ev) == Deliveries(listeners[..i], ev) + [Receive(listeners[i], ev)];
        calls := calls + [Receive(listeners[i], ev)];
      }
      assert listeners[..|listeners|] == listeners;
      listenerCalls := calls;
    }

    method AddListener(listener: Listener)
      modifies this`listeners
      ensures listeners == old(listeners) + [listener]
    {
      listeners := listeners + [listener];
    }

    method RemoveListener(listener: Listener)
      modifies this`listeners
      ensures listeners == Without(old(listeners), listener)
    {
      listeners := Without(listeners, listener);
    }

    /** `setNumThreads`: clears `run`, records the count and builds a new pool
        with a new thread factory, then tells each listener once, in list
        order. A count below 1 makes the pool constructor throw after `run`
        and `numThreads` were set: the old pool stays and no listener hears
        of it. */
    method SetNumThreads(n: int) returns (ok: bool)
      modifies this`run, this`numThreads, this`service, this`listenerCalls
      ensures !run && numThreads == n
      ensures ok <==> n >= 1
      ensures ok ==> fresh(service) && fresh(service.factory)
      ensures ok ==> service.size == n && service.factory.nextThread == 1
      ensures !ok ==> service == old(service)
      ensures listenerCalls == old(listenerCalls) + (if ok then ThreadCountNotices(listeners) else [])
    {
      if run {
        Stop();
      }
      numThreads := n;
      if n < 1 {
        return false;
      }
      var factory := new UpdatorThreadFactory();
      service := new ThreadPool(n, factory);
      var calls := listenerCalls;
      for i := 0 to |listeners|
        invariant calls == listenerCalls + ThreadCountNotices(listeners[..i])
      {
        assert ThreadCountNotices(listeners[..i + 1]) == ThreadCountNotices(listeners[..i]) + [ChangeNumThreads(listeners[i])];
        calls := calls + [ChangeNumThreads(listeners[i])];
      }
      assert listeners[..|listeners|] == listeners;
      listenerCalls := calls;
      ok := true;
    }
  }
}
