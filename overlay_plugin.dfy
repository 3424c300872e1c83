/**
 * The overlay-window plugin as the object it is: one instance per Flutter engine, sharing
 * a process-wide handle counter, window registry and elevation future (`Statics`), and
 * recording the calls it makes on collaborators in `trace`.
 */
module OverlayPlugin {
  import opened Wrappers
  import opened Channel
  import opened ResultSlot
  import opened OverlayLayout
  import opened OverlaySpec

  /** The state of the `Future<AccessibilityService>` that requests elevation. */
  datatype FutureState = Running | Succeeded | Failed

  class ElevationFuture {
    var state: FutureState

    constructor ()
      ensures state == Running
    {
      state := Running;
    }

    method Complete(succeeded: bool)
      requires state == Running
      modifies this
      ensures state == if succeeded then Succeeded else Failed
    {
      state := if succeeded then Succeeded else Failed;
    }
  }

  /** The class's static fields: the handle counter, the window registry and the elevation future. */
  class Statics {
    var nextHandle: int
    var windows: map<int, Window<OverlayWindowPlugin>>
    var accessibilityService: ElevationFuture?

    constructor ()
      ensures nextHandle == 0 && windows == map[] && accessibilityService == null
    {
      nextHandle := 0;
      windows := map[];
      accessibilityService := null;
    }

    /** An embedder assigning the public static field. */
    method SetAccessibilityService(f: ElevationFuture?)
      modifies this
      ensures accessibilityService == f && nextHandle == old(nextHandle) && windows == old(windows)
    {
      accessibilityService := f;
    }
  }

  /** A solver helper: a non-empty set has a witness, so the fan-out loops can pick the next handle. */
  lemma NonEmpty(s: set<int>)
    requires s != {}
    ensures exists x :: x in s
  {
    if forall x :: x !in s {
      assert false;
    }
  }

  /** A solver helper: regrouping a trace extension, stated once so the loops need not rediscover it. */
  lemma AppendAssociates<T>(a: seq<T>, b: seq<T>, c: seq<T>)
    ensures (a + b) + c == a + (b + c)
  {
  }

  /** What the gate of `onMethodCall` sees in the static future `f`. */
  function GateOf(f: ElevationFuture?): Gate
    reads f
  {
    if f == null then NoElevation
    else if f.state == Running then ElevationPending
    else ElevationDone(f.state == Succeeded)
  }

  class OverlayWindowPlugin {
    const statics: Statics
    const sdkInt: int

    /** Whether the method channel has this instance as its handler. */
    var attached: bool
    var windowManager: Manager
    var serviceBinding: Option<nat>
    var activityBinding: Option<nat>
    var activityResult: Option<Sink>
    /** The commands deferred while elevation is pending. */
    var taskQueue: Option<seq<Task>>
    /** The futures that this instance's waiter threads block on. */
    var waiters: seq<ElevationFuture>
    /** The calls made so far on windows, engines, window managers, activities and results. */
    var trace: seq<OverlayEvent>

    ghost predicate Valid()
      reads this, statics
    {
      && HandlesIssued(statics.nextHandle, statics.windows)
      && (attached ==> windowManager != NoManager)
      && (taskQueue.Some? ==> attached)
    }

    constructor (statics: Statics, sdkInt: int)
      requires HandlesIssued(statics.nextHandle, statics.windows)
      ensures Valid() && this.statics == statics && this.sdkInt == sdkInt
      ensures !attached && windowManager == NoManager && serviceBinding == None && activityBinding == None
      ensures activityResult == None && taskQueue == None && waiters == [] && trace == []
    {
      this.statics := statics;
      this.sdkInt := sdkInt;
      attached := false;
      windowManager := NoManager;
      serviceBinding := None;
      activityBinding := None;
      activityResult := None;
      taskQueue := None;
      waiters := [];
      trace := [];
    }

    /** What a dispatched command reads and writes, as the specification sees it. */
    function Snapshot(): State<OverlayWindowPlugin>
      reads this`serviceBinding, this`activityBinding, this`windowManager, this`activityResult
      reads statics`nextHandle, statics`windows, statics`accessibilityService
    {
      State(statics.nextHandle, statics.windows, statics.accessibilityService != null, this, sdkInt,
            Bindings(serviceBinding, activityBinding), windowManager, activityResult)
    }

    /** The instances that own windows, and this one. */
    ghost function Owners(): set<OverlayWindowPlugin>
      reads statics`windows
    {
      (set h | h in statics.windows :: statics.windows[h].bindings) + {this}
    }

    /** The current bindings of every instance in `Owners()`. */
    ghost function OwnerBindings(): map<OverlayWindowPlugin, Bindings>
      reads statics`windows, Owners()`serviceBinding, Owners()`activityBinding
    {
      map p | p in Owners() :: Bindings(p.serviceBinding, p.activityBinding)
    }

    /** The deferred tasks, or none. */
    function Queued(): seq<Task>
      reads this
    {
      if taskQueue.Some? then taskQueue.value else []
    }

    method OnAttachedToEngine()
      requires Valid()
      modifies this
      ensures Valid() && attached && windowManager == ContextManager
      ensures serviceBinding == old(serviceBinding) && activityBinding == old(activityBinding)
      ensures activityResult == old(activityResult) && taskQueue == old(taskQueue)
      ensures waiters == old(waiters) && trace == old(trace)
    {
      attached := true;
      windowManager := ContextManager;
    }

    /** Clears the queue under the registry lock and drops the window manager; windows stay registered. */
    method OnDetachedFromEngine()
      requires Valid()
      modifies this
      ensures Valid() && !attached && windowManager == NoManager && taskQueue == None
      ensures serviceBinding == old(serviceBinding) && activityBinding == old(activityBinding)
      ensures activityResult == old(activityResult) && waiters == old(waiters) && trace == old(trace)
    {
      taskQueue := None;
      windowManager := NoManager;
      attached := false;
    }

    /** The `switch` of `onMethodCall`. */
    method Dispatch(cmd: Command, sink: Sink)
      requires Valid() && attached
      modifies this, statics
      ensures Valid() && attached
      ensures var o := Execute(old(Snapshot()), old(OwnerBindings()), cmd, sink);
        Snapshot() == o.state && trace == old(trace) + o.events
      ensures statics.accessibilityService == old(statics.accessibilityService)
      ensures taskQueue == old(taskQueue) && waiters == old(waiters)
    {
      match cmd
      case RequestPermissions(canDrawOverlays) => RequestPermissions(canDrawOverlays, sink);
      case HasPermissions(canDrawOverlays) =>
        trace := trace + [Complete(sink, Success(Bool(sdkInt < 23 || canDrawOverlays)))];
      case CreateWindow(entrypoint, args) => CreateWindow(entrypoint, args, sink);
      case UpdateWindow(h, args) => UpdateWindow(h, args, sink);
      case SetVisibility(h, visibility) => SetVisibility(h, visibility, sink);
      case DestroyWindow(h) => DestroyWindow(h, sink);
      case Unknown =>
        trace := trace + [Complete(sink, NotImplemented)];
    }

    method RequestPermissions(canDrawOverlays: bool, sink: Sink)
      requires Valid() && attached
      modifies this, statics
      ensures Valid() && attached
      ensures var o := RequestPermissionsOutcome(old(Snapshot()), canDrawOverlays, sink);
        Snapshot() == o.state && trace == old(trace) + o.events
      ensures statics.accessibilityService == old(statics.accessibilityService)
      ensures taskQueue == old(taskQueue) && waiters == old(waiters)
    {
      if sdkInt >= 23 {
        if activityBinding.None? {
          trace := trace + [Complete(sink, Error(FAILED, NEEDS_ACTIVITY))];
          return;
        }
        if activityResult.Some? {
          trace := trace + [Threw(IllegalState(UNCOMPLETED_RESULT))];
          return;
        }
        activityResult := Some(sink);
        if !canDrawOverlays {
          trace := trace + [Call(StartActivityForResult(REQUEST_CODE_ENABLE_OVERLAYS))];
        }
      } else {
        trace := trace + [Complete(sink, Success(Bool(true)))];
      }
    }

    method CreateWindow(entrypoint: int, args: ParamArgs, sink: Sink)
      requires Valid() && attached
      modifies this, statics
      ensures Valid() && attached
      ensures var o := CreateWindowOutcome(old(Snapshot()), entrypoint, args, sink);
        Snapshot() == o.state && trace == old(trace) + o.events
      ensures statics.accessibilityService == old(statics.accessibilityService)
      ensures taskQueue == old(taskQueue) && waiters == old(waiters)
    {
      var layout := ApplyParams(InitialLayout(WindowTypeFor(statics.accessibilityService != null, sdkInt)), args);
      var h := statics.nextHandle;
      statics.nextHandle := h + 1;
      statics.windows := statics.windows[h := Window(this, layout, VISIBLE)];
      trace := trace + [Call(Engine(h, ExecuteDartEntrypoint(entrypoint)))];
      AttachNewEngine(h);
      trace := trace + [Call(View(h, AttachToFlutterEngine)), Call(WindowManager(windowManager, h, AddView(layout)))];
      trace := trace + [Call(Engine(h, AppIsResumed)), Complete(sink, Success(Int(h)))];
    }

    /** Connects the new engine of window `h` to this instance's service and activity, where bound. */
    method AttachNewEngine(h: int)
      modifies this`trace
      ensures trace == old(trace)
        + (if serviceBinding.Some? then [Call(Engine(h, AttachToService(serviceBinding.value)))] else [])
        + (if activityBinding.Some? then [Call(Engine(h, AttachToActivity(activityBinding.value)))] else [])
    {
      if serviceBinding.Some? {
        trace := trace + [Call(Engine(h, AttachToService(serviceBinding.value)))];
      }
      if activityBinding.Some? {
        trace := trace + [Call(Engine(h, AttachToActivity(activityBinding.value)))];
      }
    }

    method UpdateWindow(h: int, args: ParamArgs, sink: Sink)
      requires Valid() && attached
      modifies this, statics
      ensures Valid() && attached
      ensures var o := UpdateWindowOutcome(old(Snapshot()), h, args, sink);
        Snapshot() == o.state && trace == old(trace) + o.events
      ensures statics.accessibilityService == old(statics.accessibilityService)
      ensures taskQueue == old(taskQueue) && waiters == old(waiters)
    {
      if h !in statics.windows {
        trace := trace + [Complete(sink, NoWindow(h))];
        return;
      }
      var w := statics.windows[h];
      var layout := ApplyParams(w.layout, args);
      statics.windows := statics.windows[h := w.(layout := layout)];
      trace := trace + [Call(WindowManager(windowManager, h, UpdateViewLayout(layout)))];
      trace := trace + [Complete(sink, Success(Null))];
    }

    method SetVisibility(h: int, visibility: int, sink: Sink)
      requires Valid() && attached
      modifies this, statics
      ensures Valid() && attached
      ensures var o := SetVisibilityOutcome(old(Snapshot()), h, visibility, sink);
        Snapshot() == o.state && trace == old(trace) + o.events
      ensures statics.accessibilityService == old(statics.accessibilityService)
      ensures taskQueue == old(taskQueue) && waiters == old(waiters)
    {
      if h !in statics.windows {
        trace := trace + [Threw(NullPointer)];
        return;
      }
      var w := statics.windows[h];
      if w.visibility == VISIBLE && visibility != VISIBLE {
        trace := trace + [Call(Engine(h, AppIsPaused))];
      }
      statics.windows := statics.windows[h := w.(visibility := visibility)];
      trace := trace + [Call(View(h, SetViewVisibility(visibility)))];
      if w.visibility != VISIBLE && visibility == VISIBLE {
        trace := trace + [Call(Engine(h, AppIsResumed))];
      }
      trace := trace + [Complete(sink, Success(Null))];
    }

    method DestroyWindow(h: int, sink: Sink)
      requires Valid() && attached
      modifies this, statics
      ensures Valid() && attached
      ensures var o := DestroyWindowOutcome(old(Snapshot()), old(OwnerBindings()), h, sink);
        Snapshot() == o.state && trace == old(trace) + o.events
      ensures statics.accessibilityService == old(statics.accessibilityService)
      ensures taskQueue == old(taskQueue) && waiters == old(waiters)
    {
      if h !in statics.windows {
        trace := trace + [Complete(sink, NoWindow(h))];
        return;
      }
      var w := statics.windows[h];
      assert w.bindings in Owners();
      ghost var owner := OwnerOf(OwnerBindings(), w.bindings);
      assert owner == Bindings(w.bindings.serviceBinding, w.bindings.activityBinding);
      statics.windows := statics.windows - {h};
      trace := trace + [Call(WindowManager(windowManager, h, RemoveView)), Call(Engine(h, AppIsDetached))];
      DetachOldEngine(h, w.bindings);
      trace := trace + [Call(Engine(h, Destroy)), Complete(sink, Success(Null))];
    }

    /** Disconnects the engine of window `h` from the service and activity its owner is bound to now. */
    method DetachOldEngine(h: int, owner: OverlayWindowPlugin)
      modifies this`trace
      ensures trace == old(trace)
        + (if owner.serviceBinding.Some? then [Call(Engine(h, DetachFromService))] else [])
        + (if owner.activityBinding.Some? then [Call(Engine(h, DetachFromActivity))] else [])
    {
      if owner.serviceBinding.Some? {
        trace := trace + [Call(Engine(h, DetachFromService))];
      }
      if owner.activityBinding.Some? {
        trace := trace + [Call(Engine(h, DetachFromActivity))];
      }
    }

    /**
     * `onMethodCall`: while the static elevation future is pending the command is queued,
     * and the first queued command starts a waiter; otherwise a completed future elevates
     * the window manager, a failed one is cleared, and the command is dispatched.
     */
    method OnMethodCall(cmd: Command, sink: Sink)
      requires Valid() && attached
      modifies this, statics
      ensures Valid() && attached
      ensures serviceBinding == old(serviceBinding) && activityBinding == old(activityBinding)
      ensures var f := old(statics.accessibilityService);
        GateOf(f) == ElevationPending ==>
          && taskQueue == Some(old(Queued()) + [Task(cmd, sink)])
          && waiters == (if old(taskQueue).None? then old(waiters) + [f] else old(waiters))
          && Snapshot() == old(Snapshot()) && trace == old(trace) && statics.accessibilityService == f
      ensures var f := old(statics.accessibilityService);
        GateOf(f) != ElevationPending ==>
          && var o := Execute(AfterGate(old(Snapshot()), GateOf(f)), old(OwnerBindings()), cmd, sink);
          && Snapshot() == o.state && trace == old(trace) + o.events
          && taskQueue == old(taskQueue) && waiters == old(waiters)
          && statics.accessibilityService == (if GateOf(f) == ElevationDone(false) then null else f)
    {
      var f := statics.accessibilityService;
      if f != null && f.state == Running {
        if taskQueue.None? {
          taskQueue := Some([]);
          waiters := waiters + [f];
        }
        taskQueue := Some(taskQueue.value + [Task(cmd, sink)]);
        return;
      }
      PassGate(f);
      Dispatch(cmd, sink);
    }

    /** The gate for a completed or absent future `f`: elevate on success, clear the static field on failure. */
    method PassGate(f: ElevationFuture?)
      requires Valid() && attached && f == statics.accessibilityService && GateOf(f) != ElevationPending
      modifies this`windowManager, statics`accessibilityService
      ensures Valid() && Snapshot() == AfterGate(old(Snapshot()), GateOf(f))
      ensures OwnerBindings() == old(OwnerBindings())
      ensures statics.accessibilityService == (if GateOf(f) == ElevationDone(false) then null else f)
    {
      if f != null {
        if f.state == Succeeded {
          windowManager := AccessibilityManager;
        } else {
          statics.accessibilityService := null;
        }
      }
    }

    /**
     * Waiter `i` wakes because its future completed. A failure is swallowed and strands the
     * queue; a success replays the queue in order under the registry lock, with each task
     * re-entering `onMethodCall`, then clears the queue; a task that throws ends the waiter
     * and leaves the queue in place.
     */
    method WaiterWakes(i: nat) returns (ran: nat, threw: bool)
      requires Valid() && i < |waiters| && waiters[i].state != Running
      requires waiters[i].state == Succeeded ==> statics.accessibilityService == waiters[i]
      modifies this, statics
      ensures Valid() && waiters == old(waiters[..i] + waiters[i + 1..])
      ensures serviceBinding == old(serviceBinding) && activityBinding == old(activityBinding)
      ensures statics.accessibilityService == old(statics.accessibilityService)
      ensures old(waiters[i].state) == Failed || old(taskQueue).None? ==>
        Snapshot() == old(Snapshot()) && trace == old(trace) && ran == 0 && !threw
        && taskQueue == (if old(waiters[i].state) == Failed then old(taskQueue) else None)
      ensures old(waiters[i].state) == Succeeded && old(taskQueue).Some? ==>
        var r := Replay(old(Snapshot()), old(OwnerBindings()), old(taskQueue.value));
        && ran == r.ran && threw == r.threw
        && Snapshot() == r.state && trace == old(trace) + r.events
        && taskQueue == (if threw then old(taskQueue) else None)
    {
      var f := waiters[i];
      waiters := waiters[..i] + waiters[i + 1..];
      ran, threw := 0, false;
      if f.state == Failed || taskQueue.None? {
        if f.state == Succeeded {
          taskQueue := None;
        }
        return;
      }
      ran, threw := DrainQueue();
    }

    /** The successful waiter's drain of the queue under the registry lock. */
    method DrainQueue() returns (ran: nat, threw: bool)
      requires Valid() && taskQueue.Some?
      requires statics.accessibilityService != null && statics.accessibilityService.state == Succeeded
      modifies this, statics
      ensures Valid() && waiters == old(waiters)
      ensures serviceBinding == old(serviceBinding) && activityBinding == old(activityBinding)
      ensures statics.accessibilityService == old(statics.accessibilityService)
      ensures var r := Replay(old(Snapshot()), old(OwnerBindings()), old(taskQueue.value));
        && ran == r.ran && threw == r.threw
        && Snapshot() == r.state && trace == old(trace) + r.events
        && taskQueue == (if threw then old(taskQueue) else None)
    {
      ghost var s0 := Snapshot();
      ghost var owners0 := OwnerBindings();
      ghost var trace0 := trace;
      var q := taskQueue.value;
      ghost var r := Replay(s0, owners0, q[..0]);
      ran, threw := 0, false;
      while ran < |q| && !threw
        invariant Valid() && attached && taskQueue == Some(q)
        invariant ran <= |q| && r == Replay(s0, owners0, q[..ran])
        invariant Snapshot() == r.state && trace == trace0 + r.events && ran == r.ran && threw == r.threw
        invariant serviceBinding == old(serviceBinding) && activityBinding == old(activityBinding)
        invariant statics.accessibilityService == old(statics.accessibilityService)
        invariant statics.accessibilityService.state == Succeeded
        invariant waiters == old(waiters)
        invariant BindingsAgree(owners0)
        decreases |q| - ran
      {
        ghost var o := ReplayStep(r.state, owners0, q[ran]);
        ReplayNext(s0, owners0, q, ran, r, o);
        ghost var events := r.events;
        threw := RunTask(q[ran], owners0);
        AppendAssociates(trace0, events, o.events);
        r := Replayed(o.state, r.events + o.events, r.ran + 1, threw);
        ran := ran + 1;
      }
      if threw {
        ReplayAfterThrow(s0, owners0, q, ran);
      } else {
        assert q[..ran] == q;
        taskQueue := None;
      }
      assert r == Replay(s0, owners0, q);
    }

    /** `owners0` records the bindings of every window's owner, and those bindings are current. */
    ghost predicate BindingsAgree(owners0: map<OverlayWindowPlugin, Bindings>)
      reads this, statics, owners0.Keys
    {
      && (forall h :: h in statics.windows ==> statics.windows[h].bindings in owners0)
      && (forall p :: p in owners0 ==> Bindings(p.serviceBinding, p.activityBinding) == owners0[p])
    }

    /** One queued task run by the waiter after a successful elevation; reports whether it threw. */
    method RunTask(t: Task, ghost owners0: map<OverlayWindowPlugin, Bindings>) returns (threw: bool)
      requires Valid() && attached && this in owners0 && BindingsAgree(owners0)
      requires statics.accessibilityService != null && statics.accessibilityService.state == Succeeded
      modifies this, statics
      ensures Valid() && attached && BindingsAgree(owners0)
      ensures var o := ReplayStep(old(Snapshot()), owners0, t);
        Snapshot() == o.state && trace == old(trace) + o.events && threw == EndsByThrowing(o.events)
      ensures serviceBinding == old(serviceBinding) && activityBinding == old(activityBinding)
      ensures statics.accessibilityService == old(statics.accessibilityService)
      ensures taskQueue == old(taskQueue) && waiters == old(waiters)
    {
      ghost var s := Snapshot();
      AgreeOnOwners(owners0);
      ReplayedTaskAgrees(s, OwnerBindings(), owners0, t);
      ExecuteWindowOwners(AfterGate(s, ElevationDone(true)), owners0, t.command, t.sink);
      var mark := |trace|;
      OnMethodCall(t.command, t.sink);
      threw := EndsByThrowing(trace[mark..]);
    }

    /** `onActivityResult`: only the overlay-permission request code is claimed. */
    method OnActivityResult(requestCode: int, resultCode: int, dataPresent: bool) returns (handled: bool)
      requires Valid()
      modifies this`activityResult, this`trace
      ensures Valid()
      ensures requestCode != REQUEST_CODE_ENABLE_OVERLAYS ==>
        !handled && activityResult == old(activityResult) && trace == old(trace)
      ensures requestCode == REQUEST_CODE_ENABLE_OVERLAYS ==>
        var c := Claim<OverlayCall>(old(activityResult), resultCode, dataPresent);
        activityResult == c.slot && trace == old(trace) + c.events && handled == !EndsByThrowing(c.events)
    {
      handled := false;
      if requestCode == REQUEST_CODE_ENABLE_OVERLAYS {
        var c := ActivityResultCompletion(resultCode);
        if activityResult.None? || (c.Error? && !dataPresent) {
          trace := trace + [Threw(NullPointer)];
          return;
        }
        trace := trace + [Complete(activityResult.value, c)];
        activityResult := None;
        handled := true;
      }
    }

    /** The handles of the windows this instance created, visited in some order, with `op` called on each engine. */
    method FanOut(op: EngineOp) returns (visited: seq<int>)
      modifies this`trace
      ensures IsEnumeration(visited, OwnedBy(statics.windows, this))
      ensures trace == old(trace) + EngineCalls(visited, op)
    {
      var owned := OwnedBy(statics.windows, this);
      var rest := owned;
      visited := [];
      while rest != {}
        invariant rest <= owned
        invariant forall h :: h in visited ==> h in owned && h !in rest
        invariant forall h :: h in owned ==> h in rest || h in visited
        invariant forall i, j :: 0 <= i < j < |visited| ==> visited[i] != visited[j]
        invariant trace == old(trace) + EngineCalls(visited, op)
        decreases |rest|
      {
        NonEmpty(rest);
        var h :| h in rest;
        EngineCallsSnoc(visited, h, op);
        AppendAssociates(old(trace), EngineCalls(visited, op), [Call(Engine(h, op))]);
        trace := trace + [Call(Engine(h, op))];
        visited := visited + [h];
        rest := rest - {h};
      }
    }

    /** Binds the service, then attaches every window of this instance to it. */
    method OnAttachedToService(service: nat) returns (visited: seq<int>)
      requires Valid()
      modifies this`serviceBinding, this`trace
      ensures Valid() && serviceBinding == Some(service)
      ensures IsEnumeration(visited, OwnedBy(statics.windows, this))
      ensures trace == old(trace) + EngineCalls(visited, AttachToService(service))
    {
      serviceBinding := Some(service);
      visited := FanOut(AttachToService(service));
    }

    /** Detaches every window of this instance from the service, then drops the binding. */
    method OnDetachedFromService() returns (visited: seq<int>)
      requires Valid()
      modifies this`serviceBinding, this`trace
      ensures Valid() && serviceBinding == None
      ensures IsEnumeration(visited, OwnedBy(statics.windows, this))
      ensures trace == old(trace) + EngineCalls(visited, DetachFromService)
    {
      visited := FanOut(DetachFromService);
      serviceBinding := None;
    }

    /** Binds the activity, attaches every window of this instance to it, then registers for activity results. */
    method OnAttachedToActivity(activity: nat) returns (visited: seq<int>)
      requires Valid()
      modifies this`activityBinding, this`trace
      ensures Valid() && activityBinding == Some(activity)
      ensures IsEnumeration(visited, OwnedBy(statics.windows, this))
      ensures trace == old(trace) + EngineCalls(visited, AttachToActivity(activity))
                       + [Call(AddActivityResultListener(activity))]
    {
      activityBinding := Some(activity);
      visited := FanOut(AttachToActivity(activity));
      trace := trace + [Call(AddActivityResultListener(activity))];
    }

    /** A configuration change: every window of this instance is detached for it, then the binding is dropped. */
    method OnDetachedFromActivityForConfigChanges() returns (visited: seq<int>)
      requires Valid()
      modifies this`activityBinding, this`trace
      ensures Valid() && activityBinding == None
      ensures IsEnumeration(visited, OwnedBy(statics.windows, this))
      ensures trace == old(trace) + EngineCalls(visited, DetachFromActivityForConfigChanges)
    {
      visited := FanOut(DetachFromActivityForConfigChanges);
      activityBinding := None;
    }

    /** Re-attaching after a configuration change is a plain attach. */
    method OnReattachedToActivityForConfigChanges(activity: nat) returns (visited: seq<int>)
      requires Valid()
      modifies this`activityBinding, this`trace
      ensures Valid() && activityBinding == Some(activity)
      ensures IsEnumeration(visited, OwnedBy(statics.windows, this))
      ensures trace == old(trace) + EngineCalls(visited, AttachToActivity(activity))
                       + [Call(AddActivityResultListener(activity))]
    {
      visited := OnAttachedToActivity(activity);
    }

    /** Detaches every window of this instance from the activity, then drops the binding. */
    method OnDetachedFromActivity() returns (visited: seq<int>)
      requires Valid()
      modifies this`activityBinding, this`trace
      ensures Valid() && activityBinding == None
      ensures IsEnumeration(visited, OwnedBy(statics.windows, this))
      ensures trace == old(trace) + EngineCalls(visited, DetachFromActivity)
    {
      visited := FanOut(DetachFromActivity);
      activityBinding := None;
    }

    /** The current bindings agree with `owners0` on every window's owner. */
    lemma AgreeOnOwners(owners0: map<OverlayWindowPlugin, Bindings>)
      requires BindingsAgree(owners0)
      ensures forall h :: h in statics.windows ==>
        OwnerOf(OwnerBindings(), statics.windows[h].bindings) == OwnerOf(owners0, statics.windows[h].bindings)
    {
    }
  }
}
