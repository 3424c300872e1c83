/**
 * The overlay-window dispatcher as a function of its state: what one command does to the
 * handle registry and the pending-result slot and which calls it makes on the window
 * manager, the windows' engines and views, and the result sinks (`Execute`), and what the
 * elevation waiter's replay of the deferred commands does (`Replay`).
 *
 * `O` is the identity of a plugin instance: every window records the instance that created
 * it, and the lifecycle fan-out only reaches the windows of one instance.
 */
module OverlaySpec {
  import opened Wrappers
  import opened Channel
  import opened ResultSlot
  import opened OverlayLayout

  const REQUEST_CODE_ENABLE_OVERLAYS: int := 0x20

  // The errors reported for an absent handle.
  const ARGUMENT_EXCEPTION: string := "Argument exception"
  const NO_WINDOW: string := "No window for handle "

  /** `View.VISIBLE`. */
  const VISIBLE: int := 0

  /** Which `WindowManager` the plugin holds: none after engine detach, the context's, or the accessibility service's. */
  datatype Manager = NoManager | ContextManager | AccessibilityManager

  /** Whether a plugin instance holds a service binding and an activity binding, and which. */
  datatype Bindings = Bindings(service: Option<nat>, activity: Option<nat>)

  const Unbound := Bindings(None, None)

  /** A live window: its owning plugin instance, the layout of its view and the view's visibility. */
  datatype Window<O> = Window(bindings: O, layout: Layout, visibility: int)

  /** The method-channel commands, arguments already decoded; the system query `canDrawOverlays` is an input. */
  datatype Command =
    | RequestPermissions(canDrawOverlays: bool)
    | HasPermissions(canDrawOverlays: bool)
    | CreateWindow(entrypoint: int, params: ParamArgs)
    | UpdateWindow(handle: int, params: ParamArgs)
    | SetVisibility(handle: int, visibility: int)
    | DestroyWindow(handle: int)
    | Unknown

  /** A deferred command together with the result it must complete. */
  datatype Task = Task(command: Command, sink: Sink)

  /** Calls on a window's `FlutterEngine` (its Dart executor, control surfaces and lifecycle channel). */
  datatype EngineOp =
    | ExecuteDartEntrypoint(entrypoint: int)
    | AttachToService(service: nat)
    | DetachFromService
    | AttachToActivity(activity: nat)
    | DetachFromActivityForConfigChanges
    | DetachFromActivity
    | AppIsResumed
    | AppIsPaused
    | AppIsDetached
    | Destroy

  /** Calls on a window's `FlutterView`. */
  datatype ViewOp = AttachToFlutterEngine | SetViewVisibility(visibility: int)

  /** Calls on a `WindowManager` about one window's view. */
  datatype ManagerOp = AddView(layout: Layout) | UpdateViewLayout(layout: Layout) | RemoveView

  /** A collaborator call; windows, engines and views are named by the window's handle. */
  datatype OverlayCall =
    | Engine(handle: int, op: EngineOp)
    | View(handle: int, viewOp: ViewOp)
    | WindowManager(manager: Manager, viewHandle: int, managerOp: ManagerOp)
    | StartActivityForResult(requestCode: int)
    | AddActivityResultListener(activity: nat)

  type OverlayEvent = Event<OverlayCall>

  /**
   * What a command reads and writes: the process-wide counter and registry, whether the
   * static elevation future is set, and the executing instance's identity, SDK level,
   * bindings, window manager and pending result.
   */
  datatype State<O> = State(
    nextHandle: int,
    windows: map<int, Window<O>>,
    elevationSet: bool,
    me: O,
    sdkInt: int,
    bindings: Bindings,
    manager: Manager,
    pending: Option<Sink>)

  datatype Outcome<O> = Outcome(state: State<O>, events: seq<OverlayEvent>)

  /** Every registered handle was issued before: it lies below the counter, which never went negative. */
  predicate HandlesIssued<O>(nextHandle: int, windows: map<int, Window<O>>) {
    0 <= nextHandle && forall h :: h in windows ==> 0 <= h < nextHandle
  }

  /** The current bindings of plugin instance `o`, as recorded in `owners`. */
  function OwnerOf<O>(owners: map<O, Bindings>, o: O): Bindings {
    if o in owners then owners[o] else Unbound
  }

  /** The error reported for a handle that has no window. */
  function NoWindow(h: int): Completion {
    Error(ARGUMENT_EXCEPTION, NO_WINDOW + DecimalString(h))
  }

  /** The type of a new window: an accessibility overlay once elevated, else by SDK level. */
  function WindowTypeFor(elevated: bool, sdkInt: int): WindowType {
    if elevated && sdkInt >= 22 then AccessibilityOverlay
    else if sdkInt >= 26 then ApplicationOverlay
    else SystemAlert
  }

  /** The calls `createWindow` makes for the new window `h`, in order. */
  function CreateCalls(h: int, entrypoint: int, b: Bindings, m: Manager, layout: Layout): seq<OverlayEvent> {
    [Call(Engine(h, ExecuteDartEntrypoint(entrypoint)))]
    + (if b.service.Some? then [Call(Engine(h, AttachToService(b.service.value)))] else [])
    + (if b.activity.Some? then [Call(Engine(h, AttachToActivity(b.activity.value)))] else [])
    + [Call(View(h, AttachToFlutterEngine)), Call(WindowManager(m, h, AddView(layout))), Call(Engine(h, AppIsResumed))]
  }

  /** The calls `setVisibility` makes when window `h` goes from visibility `was` to `v`. */
  function VisibilityCalls(h: int, was: int, v: int): seq<OverlayEvent> {
    (if was == VISIBLE && v != VISIBLE then [Call(Engine(h, AppIsPaused))] else [])
    + [Call(View(h, SetViewVisibility(v)))]
    + (if was != VISIBLE && v == VISIBLE then [Call(Engine(h, AppIsResumed))] else [])
  }

  /** The calls `destroyWindow` makes for window `h`, whose owner holds the bindings `owner`. */
  function DestroyCalls(h: int, m: Manager, owner: Bindings): seq<OverlayEvent> {
    [Call(WindowManager(m, h, RemoveView)), Call(Engine(h, AppIsDetached))]
    + (if owner.service.Some? then [Call(Engine(h, DetachFromService))] else [])
    + (if owner.activity.Some? then [Call(Engine(h, DetachFromActivity))] else [])
    + [Call(Engine(h, Destroy))]
  }

  /**
   * The `switch` of `onMethodCall`, once the elevation gate has let the command through.
   * `owners` gives the current bindings of the plugin instances that own windows.
   */
  function Execute<O(==)>(s: State<O>, owners: map<O, Bindings>, cmd: Command, sink: Sink): Outcome<O> {
    match cmd
    case RequestPermissions(canDrawOverlays) => RequestPermissionsOutcome(s, canDrawOverlays, sink)
    case HasPermissions(canDrawOverlays) =>
      Outcome(s, [Complete(sink, Success(Bool(s.sdkInt < 23 || canDrawOverlays)))])
    case CreateWindow(entrypoint, args) => CreateWindowOutcome(s, entrypoint, args, sink)
    case UpdateWindow(h, args) => UpdateWindowOutcome(s, h, args, sink)
    case SetVisibility(h, v) => SetVisibilityOutcome(s, h, v, sink)
    case DestroyWindow(h) => DestroyWindowOutcome(s, owners, h, sink)
    case Unknown => Outcome(s, [Complete(sink, NotImplemented)])
  }

  function RequestPermissionsOutcome<O>(s: State<O>, canDrawOverlays: bool, sink: Sink): Outcome<O> {
    if s.sdkInt >= 23 then
      if s.bindings.activity.None? then
        Outcome(s, [Complete(sink, Error(FAILED, NEEDS_ACTIVITY))])
      else if s.pending.Some? then
        Outcome(s, [Threw(IllegalState(UNCOMPLETED_RESULT))])
      else
        Outcome(s.(pending := Some(sink)),
                if canDrawOverlays then [] else [Call(StartActivityForResult(REQUEST_CODE_ENABLE_OVERLAYS))])
    else
      Outcome(s, [Complete(sink, Success(Bool(true)))])
  }

  function CreateWindowOutcome<O>(s: State<O>, entrypoint: int, args: ParamArgs, sink: Sink): Outcome<O> {
    var h := s.nextHandle;
    var layout := ApplyParams(InitialLayout(WindowTypeFor(s.elevationSet, s.sdkInt)), args);
    Outcome(s.(nextHandle := h + 1, windows := s.windows[h := Window(s.me, layout, VISIBLE)]),
            CreateCalls(h, entrypoint, s.bindings, s.manager, layout) + [Complete(sink, Success(Int(h)))])
  }

  function UpdateWindowOutcome<O>(s: State<O>, h: int, args: ParamArgs, sink: Sink): Outcome<O> {
    if h !in s.windows then
      Outcome(s, [Complete(sink, NoWindow(h))])
    else
      var w := s.windows[h];
      var layout := ApplyParams(w.layout, args);
      Outcome(s.(windows := s.windows[h := w.(layout := layout)]),
              [Call(WindowManager(s.manager, h, UpdateViewLayout(layout))), Complete(sink, Success(Null))])
  }

  function SetVisibilityOutcome<O>(s: State<O>, h: int, v: int, sink: Sink): Outcome<O> {
    // The source looks the window up without a null check.
    if h !in s.windows then
      Outcome(s, [Threw(NullPointer)])
    else
      var w := s.windows[h];
      Outcome(s.(windows := s.windows[h := w.(visibility := v)]),
              VisibilityCalls(h, w.visibility, v) + [Complete(sink, Success(Null))])
  }

  function DestroyWindowOutcome<O>(s: State<O>, owners: map<O, Bindings>, h: int, sink: Sink): Outcome<O> {
    if h !in s.windows then
      Outcome(s, [Complete(sink, NoWindow(h))])
    else
      Outcome(s.(windows := s.windows - {h}),
              DestroyCalls(h, s.manager, OwnerOf(owners, s.windows[h].bindings)) + [Complete(sink, Success(Null))])
  }

  // ---------------------------------------------------------------------------------
  // The elevation gate

  /** What the static elevation future looks like when a command arrives. */
  datatype Gate = NoElevation | ElevationPending | ElevationDone(succeeded: bool)

  /**
   * The state a command that the gate lets through runs in: a completed elevation swaps in
   * the accessibility service's window manager, a failed one clears the static future.
   */
  function AfterGate<O>(s: State<O>, g: Gate): State<O>
    requires !g.ElevationPending?
  {
    match g
    case NoElevation => s
    case ElevationDone(succeeded) =>
      if succeeded then s.(manager := AccessibilityManager) else s.(elevationSet := false)
  }

  /** What the waiter's replay of deferred tasks produced; it stops after a task that throws. */
  datatype Replayed<O> = Replayed(state: State<O>, events: seq<OverlayEvent>, ran: nat, threw: bool)

  /**
   * One replayed task: it re-enters `onMethodCall`, whose gate now sees the completed
   * future and elevates the window manager before dispatching.
   */
  function ReplayStep<O(==)>(s: State<O>, owners: map<O, Bindings>, t: Task): Outcome<O> {
    Execute(AfterGate(s, ElevationDone(true)), owners, t.command, t.sink)
  }

  /** The waiter's drain after a successful elevation: the queued tasks in order, up to the first that throws. */
  function Replay<O(==)>(s: State<O>, owners: map<O, Bindings>, tasks: seq<Task>): Replayed<O>
    decreases |tasks|
  {
    if tasks == [] then Replayed(s, [], 0, false)
    else
      var r := Replay(s, owners, tasks[..|tasks| - 1]);
      if r.threw then r
      else
        var o := ReplayStep(r.state, owners, tasks[|tasks| - 1]);
        Replayed(o.state, r.events + o.events, r.ran + 1, EndsByThrowing(o.events))
  }

  // ---------------------------------------------------------------------------------
  // Properties of one command

  /** A command changes only the counter, the registry and the pending result. */
  lemma ExecuteKeepsHost<O>(s: State<O>, owners: map<O, Bindings>, cmd: Command, sink: Sink)
    ensures var t := Execute(s, owners, cmd, sink).state;
      t.me == s.me && t.sdkInt == s.sdkInt && t.bindings == s.bindings
      && t.manager == s.manager && t.elevationSet == s.elevationSet
  {
  }

  /** Only the owner of the window being destroyed is consulted. */
  lemma ExecuteOwnersAgree<O>(s: State<O>, owners: map<O, Bindings>, owners': map<O, Bindings>, cmd: Command, sink: Sink)
    requires forall h :: h in s.windows ==> OwnerOf(owners, s.windows[h].bindings) == OwnerOf(owners', s.windows[h].bindings)
    ensures Execute(s, owners, cmd, sink) == Execute(s, owners', cmd, sink)
  {
  }

  /** Every command keeps the registry's handles issued. */
  lemma ExecuteKeepsHandlesIssued<O>(s: State<O>, owners: map<O, Bindings>, cmd: Command, sink: Sink)
    requires HandlesIssued(s.nextHandle, s.windows)
    ensures var t := Execute(s, owners, cmd, sink).state;
      HandlesIssued(t.nextHandle, t.windows) && t.nextHandle >= s.nextHandle
  {
  }

  /**
   * `createWindow` answers the current counter and increments it; the new handle was not
   * registered, now maps to a visible window of this instance, and nothing else changes.
   */
  lemma CreateWindowAllocates<O>(s: State<O>, owners: map<O, Bindings>, entrypoint: int, args: ParamArgs, sink: Sink)
    requires HandlesIssued(s.nextHandle, s.windows)
    ensures var o := Execute(s, owners, CreateWindow(entrypoint, args), sink);
      var h := s.nextHandle;
      && h !in s.windows
      && o.state.nextHandle == h + 1
      && o.state.windows.Keys == s.windows.Keys + {h}
      && o.state.windows[h].bindings == s.me && o.state.windows[h].visibility == VISIBLE
      && o.state.windows[h].layout == ApplyParams(InitialLayout(WindowTypeFor(s.elevationSet, s.sdkInt)), args)
      && (forall k :: k in s.windows ==> o.state.windows[k] == s.windows[k])
      && o.state.pending == s.pending
      && o.events[|o.events| - 1] == Complete(sink, Success(Int(h)))
      && Call(WindowManager(s.manager, h, AddView(o.state.windows[h].layout))) in o.events
  {
  }

  /** `updateWindow` merges the given fields into the window's layout and touches no other window. */
  lemma UpdateWindowMerges<O>(s: State<O>, owners: map<O, Bindings>, h: int, args: ParamArgs, sink: Sink)
    requires h in s.windows
    ensures var o := Execute(s, owners, UpdateWindow(h, args), sink);
      && o.state.windows.Keys == s.windows.Keys
      && o.state.windows[h] == s.windows[h].(layout := ApplyParams(s.windows[h].layout, args))
      && (forall k :: k in s.windows && k != h ==> o.state.windows[k] == s.windows[k])
      && o.state.nextHandle == s.nextHandle && o.state.pending == s.pending
      && o.events == [Call(WindowManager(s.manager, h, UpdateViewLayout(o.state.windows[h].layout))),
                      Complete(sink, Success(Null))]
  {
  }

  /** Updating twice with the same arguments leaves the same layout as updating once. */
  lemma UpdateWindowIdempotent<O>(s: State<O>, owners: map<O, Bindings>, h: int, args: ParamArgs, sink: Sink, sink': Sink)
    requires h in s.windows
    ensures var once := Execute(s, owners, UpdateWindow(h, args), sink).state;
      Execute(once, owners, UpdateWindow(h, args), sink').state == once
  {
    ApplyParamsIdempotent(s.windows[h].layout, args);
  }

  /**
   * On a handle without a window, `updateWindow` and `destroyWindow` report "Argument
   * exception" and change nothing, while `setVisibility` throws a `NullPointerException`.
   */
  lemma AbsentHandleFails<O>(s: State<O>, owners: map<O, Bindings>, h: int, args: ParamArgs, v: int, sink: Sink)
    requires h !in s.windows
    ensures Execute(s, owners, UpdateWindow(h, args), sink) == Outcome(s, [Complete(sink, NoWindow(h))])
    ensures Execute(s, owners, DestroyWindow(h), sink) == Outcome(s, [Complete(sink, NoWindow(h))])
    ensures Execute(s, owners, SetVisibility(h, v), sink) == Outcome(s, [Threw(NullPointer)])
    ensures NoWindow(h).code == ARGUMENT_EXCEPTION
  {
  }

  /** After `destroyWindow(h)` the handle is gone, so every later command on it fails. */
  lemma DestroyThenFails<O>(s: State<O>, owners: map<O, Bindings>, h: int, sink: Sink, later: Command, sink': Sink)
    requires h in s.windows
    requires (later.UpdateWindow? || later.DestroyWindow? || later.SetVisibility?) && later.handle == h
    ensures var t := Execute(s, owners, DestroyWindow(h), sink).state;
      h !in t.windows
      && var o := Execute(t, owners, later, sink');
      o.state == t
      && (o.events == [Complete(sink', NoWindow(h))] || o.events == [Threw(NullPointer)])
  {
  }

  /**
   * `destroyWindow(h)` removes the view first, then reports detached, then detaches the
   * engine from the owner's service and activity (only those bound), destroys the engine
   * last and completes with success; only `h` leaves the registry.
   */
  lemma DestroyTearsDown<O>(s: State<O>, owners: map<O, Bindings>, h: int, sink: Sink)
    requires h in s.windows
    ensures var o := Execute(s, owners, DestroyWindow(h), sink);
      var owner := OwnerOf(owners, s.windows[h].bindings);
      var n := |o.events|;
      && o.state.windows == s.windows - {h}
      && o.state.nextHandle == s.nextHandle && o.state.pending == s.pending
      && n == 4 + (if owner.service.Some? then 1 else 0) + (if owner.activity.Some? then 1 else 0)
      && o.events[0] == Call(WindowManager(s.manager, h, RemoveView))
      && o.events[1] == Call(Engine(h, AppIsDetached))
      && o.events[n - 2] == Call(Engine(h, Destroy))
      && o.events[n - 1] == Complete(sink, Success(Null))
      && (Call(Engine(h, DetachFromService)) in o.events <==> owner.service.Some?)
      && (Call(Engine(h, DetachFromActivity)) in o.events <==> owner.activity.Some?)
      && (owner.service.Some? && owner.activity.Some? ==>
            o.events[2] == Call(Engine(h, DetachFromService)) && o.events[3] == Call(Engine(h, DetachFromActivity)))
  {
  }

  /**
   * `setVisibility` pauses the engine only on a VISIBLE to non-VISIBLE edge, before the
   * view changes, and resumes it only on a non-VISIBLE to VISIBLE edge, after the change.
   */
  lemma VisibilityEdges<O>(s: State<O>, owners: map<O, Bindings>, h: int, v: int, sink: Sink)
    requires h in s.windows
    ensures var o := Execute(s, owners, SetVisibility(h, v), sink);
      var was := s.windows[h].visibility;
      var change := Call(View(h, SetViewVisibility(v)));
      && o.state.windows == s.windows[h := s.windows[h].(visibility := v)]
      && o.events[|o.events| - 1] == Complete(sink, Success(Null))
      && (Call(Engine(h, AppIsPaused)) in o.events <==> was == VISIBLE && v != VISIBLE)
      && (Call(Engine(h, AppIsResumed)) in o.events <==> was != VISIBLE && v == VISIBLE)
      && (was == VISIBLE && v != VISIBLE ==> o.events[0] == Call(Engine(h, AppIsPaused)) && o.events[1] == change)
      && (was != VISIBLE && v == VISIBLE ==> o.events[0] == change && o.events[1] == Call(Engine(h, AppIsResumed)))
  {
  }

  /** Setting the same visibility a second time makes no lifecycle call. */
  lemma RepeatedVisibilityIsQuiet<O>(s: State<O>, owners: map<O, Bindings>, h: int, v: int, sink: Sink, sink': Sink)
    requires h in s.windows
    ensures var t := Execute(s, owners, SetVisibility(h, v), sink).state;
      Execute(t, owners, SetVisibility(h, v), sink').events
        == [Call(View(h, SetViewVisibility(v))), Complete(sink', Success(Null))]
  {
  }

  /**
   * On SDK 23 and above `requestPermissions` fails without an activity and throws while a
   * result is pending; otherwise it parks the result, and starts the settings activity only
   * if overlays are not yet allowed, so a request made with the permission already granted
   * parks a result that nothing will complete.
   */
  lemma RequestPermissionsSlot<O>(s: State<O>, owners: map<O, Bindings>, canDraw: bool, sink: Sink)
    requires s.sdkInt >= 23
    ensures var o := Execute(s, owners, RequestPermissions(canDraw), sink);
      && (s.bindings.activity.None? ==>
            o == Outcome(s, [Complete(sink, Error(FAILED, NEEDS_ACTIVITY))]))
      && (s.bindings.activity.Some? && s.pending.Some? ==>
            o.state == s && o.events == [Threw(IllegalState(UNCOMPLETED_RESULT))])
      && (s.bindings.activity.Some? && s.pending.None? ==>
            o.state == s.(pending := Some(sink))
            && (canDraw ==> o.events == [])
            && (!canDraw ==> o.events == [Call(StartActivityForResult(REQUEST_CODE_ENABLE_OVERLAYS))]))
  {
  }

  /**
   * `hasPermissions` changes nothing and answers its own result once: `true` exactly below
   * SDK 23 or when overlays are allowed. From SDK 23 on, with an activity and an empty slot,
   * `requestPermissions` starts no activity exactly when `hasPermissions` would answer `true`.
   */
  lemma HasPermissionsAnswers<O>(s: State<O>, owners: map<O, Bindings>, canDraw: bool, sink: Sink)
    ensures var o := Execute(s, owners, HasPermissions(canDraw), sink);
      && o.state == s && |o.events| == 1 && o.events[0].Complete? && o.events[0].sink == sink
      && (o.events[0].completion == Success(Bool(true)) <==> s.sdkInt < 23 || canDraw)
    ensures s.sdkInt >= 23 && s.bindings.activity.Some? && s.pending.None? ==>
      (Execute(s, owners, RequestPermissions(canDraw), sink).events == [] <==>
       Execute(s, owners, HasPermissions(canDraw), sink).events == [Complete(sink, Success(Bool(true)))])
  {
  }

  // ---------------------------------------------------------------------------------
  // Properties of the replay

  /** The handles of the windows created in `events`, in order of creation. */
  function CreatedHandles(events: seq<OverlayEvent>): seq<int> {
    if events == [] then []
    else
      var e := events[|events| - 1];
      CreatedHandles(events[..|events| - 1]) + (if StartsWindow(e) then [e.call.handle] else [])
  }

  /** Whether `e` runs a window's Dart entrypoint, which `createWindow` does once per window. */
  predicate StartsWindow(e: OverlayEvent) {
    e.Call? && e.call.Engine? && e.call.op.ExecuteDartEntrypoint?
  }

  lemma {:induction false} CreatedHandlesAppend(a: seq<OverlayEvent>, b: seq<OverlayEvent>)
    ensures CreatedHandles(a + b) == CreatedHandles(a) + CreatedHandles(b)
    decreases |b|
  {
    if b == [] {
      assert a + b == a;
    } else {
      assert (a + b)[..|a + b| - 1] == a + b[..|b| - 1];
      CreatedHandlesAppend(a, b[..|b| - 1]);
    }
  }

  /** Collaborator calls that start no window. */
  predicate Plain(events: seq<OverlayEvent>) {
    forall i :: 0 <= i < |events| ==> events[i].Call? && !StartsWindow(events[i])
  }

  lemma {:induction false} PlainReportsNothing(events: seq<OverlayEvent>)
    requires Plain(events)
    ensures CreatedHandles(events) == [] && CompletedSinks(events) == []
    decreases |events|
  {
    if events != [] {
      PlainReportsNothing(events[..|events| - 1]);
    }
  }

  /** Plain calls followed by one completion of `sink`. */
  lemma PlainThenComplete(calls: seq<OverlayEvent>, sink: Sink, c: Completion)
    requires Plain(calls)
    ensures CreatedHandles(calls + [Complete(sink, c)]) == [] && CompletedSinks(calls + [Complete(sink, c)]) == [sink]
  {
    PlainReportsNothing(calls);
    assert (calls + [Complete(sink, c)])[..|calls|] == calls;
  }

  lemma CreateWindowReports<O>(s: State<O>, owners: map<O, Bindings>, entrypoint: int, args: ParamArgs, sink: Sink)
    ensures var o := Execute(s, owners, CreateWindow(entrypoint, args), sink);
      CreatedHandles(o.events) == [s.nextHandle] && CompletedSinks(o.events) == [sink]
  {
    var o := Execute(s, owners, CreateWindow(entrypoint, args), sink);
    var h := s.nextHandle;
    var layout := ApplyParams(InitialLayout(WindowTypeFor(s.elevationSet, s.sdkInt)), args);
    var first := [Call(Engine(h, ExecuteDartEntrypoint(entrypoint)))];
    var rest := CreateCalls(h, entrypoint, s.bindings, s.manager, layout)[1..];
    assert o.events == first + (rest + [Complete(sink, Success(Int(h)))]);
    PlainThenComplete(rest, sink, Success(Int(h)));
    CreatedHandlesAppend(first, rest + [Complete(sink, Success(Int(h)))]);
    CompletedSinksAppend(first, rest + [Complete(sink, Success(Int(h)))]);
    assert first[..0] == [];
  }

  lemma SetVisibilityReports<O>(s: State<O>, owners: map<O, Bindings>, h: int, v: int, sink: Sink)
    requires h in s.windows
    ensures var o := Execute(s, owners, SetVisibility(h, v), sink);
      CreatedHandles(o.events) == [] && CompletedSinks(o.events) == [sink]
  {
    PlainThenComplete(VisibilityCalls(h, s.windows[h].visibility, v), sink, Success(Null));
  }

  lemma DestroyWindowReports<O>(s: State<O>, owners: map<O, Bindings>, h: int, sink: Sink)
    requires h in s.windows
    ensures var o := Execute(s, owners, DestroyWindow(h), sink);
      CreatedHandles(o.events) == [] && CompletedSinks(o.events) == [sink]
  {
    PlainThenComplete(DestroyCalls(h, s.manager, OwnerOf(owners, s.windows[h].bindings)), sink, Success(Null));
  }

  lemma UpdateWindowReports<O>(s: State<O>, owners: map<O, Bindings>, h: int, args: ParamArgs, sink: Sink)
    requires h in s.windows
    ensures var o := Execute(s, owners, UpdateWindow(h, args), sink);
      CreatedHandles(o.events) == [] && CompletedSinks(o.events) == [sink]
  {
    var layout := ApplyParams(s.windows[h].layout, args);
    PlainThenComplete([Call(WindowManager(s.manager, h, UpdateViewLayout(layout)))], sink, Success(Null));
  }

  /**
   * One command creates at most one window, the one the counter names, and completes at
   * most its own result.
   */
  lemma ExecuteReports<O>(s: State<O>, owners: map<O, Bindings>, cmd: Command, sink: Sink)
    ensures var o := Execute(s, owners, cmd, sink);
      && CreatedHandles(o.events) == (if cmd.CreateWindow? then [s.nextHandle] else [])
      && o.state.nextHandle == s.nextHandle + |CreatedHandles(o.events)|
      && (CompletedSinks(o.events) == [] || CompletedSinks(o.events) == [sink])
  {
    var o := Execute(s, owners, cmd, sink);
    match cmd
    case CreateWindow(entrypoint, args) =>
      CreateWindowReports(s, owners, entrypoint, args, sink);
    case SetVisibility(h, v) =>
      if h in s.windows {
        SetVisibilityReports(s, owners, h, v, sink);
      }
    case DestroyWindow(h) =>
      if h in s.windows {
        DestroyWindowReports(s, owners, h, sink);
      }
    case UpdateWindow(h, args) =>
      if h in s.windows {
        UpdateWindowReports(s, owners, h, args, sink);
      }
    case RequestPermissions(canDraw) =>
      if s.sdkInt >= 23 && s.bindings.activity.Some? && s.pending.None? {
        PlainReportsNothing(o.events);
      }
    case HasPermissions(canDraw) =>
    case Unknown =>
  }

  /** The replay keeps every part of the state that a command does not change. */
  lemma {:induction false} ReplayKeepsHost<O>(s: State<O>, owners: map<O, Bindings>, tasks: seq<Task>)
    ensures var r := Replay(s, owners, tasks);
      r.state.me == s.me && r.state.sdkInt == s.sdkInt && r.state.bindings == s.bindings
      && r.state.elevationSet == s.elevationSet
      && (r.ran > 0 ==> r.state.manager == AccessibilityManager)
      && (r.ran == 0 ==> r.state == s)
      && r.ran <= |tasks| && (r.ran < |tasks| ==> r.threw)
    decreases |tasks|
  {
    if tasks != [] {
      var r := Replay(s, owners, tasks[..|tasks| - 1]);
      ReplayKeepsHost(s, owners, tasks[..|tasks| - 1]);
      if !r.threw {
        var t := tasks[|tasks| - 1];
        ExecuteKeepsHost(AfterGate(r.state, ElevationDone(true)), owners, t.command, t.sink);
      }
    }
  }

  /** One more task of the queue: the replay of a longer prefix extends the shorter one by one step. */
  lemma ReplayUnfold<O>(s: State<O>, owners: map<O, Bindings>, q: seq<Task>, k: nat)
    requires k < |q|
    ensures Replay(s, owners, q[..k + 1]) ==
      var r := Replay(s, owners, q[..k]);
      if r.threw then r
      else
        var o := ReplayStep(r.state, owners, q[k]);
        Replayed(o.state, r.events + o.events, r.ran + 1, EndsByThrowing(o.events))
  {
    assert q[..k + 1][..k] == q[..k];
  }

  /** The replay of one more task, given the replay so far and that task's outcome. */
  lemma ReplayNext<O>(s: State<O>, owners: map<O, Bindings>, q: seq<Task>, k: nat, r: Replayed<O>, o: Outcome<O>)
    requires k < |q| && r == Replay(s, owners, q[..k]) && !r.threw && o == ReplayStep(r.state, owners, q[k])
    ensures Replay(s, owners, q[..k + 1]) == Replayed(o.state, r.events + o.events, r.ran + 1, EndsByThrowing(o.events))
  {
    ReplayUnfold(s, owners, q, k);
  }

  /** Once a task has thrown, the rest of the queue is not run. */
  lemma {:induction false} ReplayAfterThrow<O>(s: State<O>, owners: map<O, Bindings>, q: seq<Task>, k: nat)
    requires k <= |q| && Replay(s, owners, q[..k]).threw
    ensures Replay(s, owners, q) == Replay(s, owners, q[..k])
    decreases |q|
  {
    if k == |q| {
      assert q[..k] == q;
    } else {
      var init := q[..|q| - 1];
      assert init[..k] == q[..k];
      ReplayAfterThrow(s, owners, init, k);
    }
  }

  /** A replayed task does not depend on the bindings of instances that own no window. */
  lemma ReplayedTaskAgrees<O>(s: State<O>, owners: map<O, Bindings>, owners': map<O, Bindings>, t: Task)
    requires forall h :: h in s.windows ==> OwnerOf(owners, s.windows[h].bindings) == OwnerOf(owners', s.windows[h].bindings)
    ensures Execute(AfterGate(s, ElevationDone(true)), owners, t.command, t.sink) == ReplayStep(s, owners', t)
  {
    ExecuteOwnersAgree(AfterGate(s, ElevationDone(true)), owners, owners', t.command, t.sink);
  }

  /** Every window after a command is either an earlier window with its owner or one of the executing instance's. */
  lemma ExecuteWindowOwners<O>(s: State<O>, owners: map<O, Bindings>, cmd: Command, sink: Sink)
    ensures var t := Execute(s, owners, cmd, sink).state;
      forall h :: h in t.windows ==>
        (h in s.windows && t.windows[h].bindings == s.windows[h].bindings) || t.windows[h].bindings == s.me
  {
  }

  /** `hs` counts up by one from `base`. */
  predicate Consecutive(hs: seq<int>, base: int) {
    forall i :: 0 <= i < |hs| ==> hs[i] == base + i
  }

  /** A step that creates at most the window the counter names keeps the created handles consecutive. */
  lemma ConsecutiveStep(before: seq<OverlayEvent>, step: seq<OverlayEvent>, base: int, mid: int, next: int)
    requires mid == base + |CreatedHandles(before)| && Consecutive(CreatedHandles(before), base)
    requires (CreatedHandles(step) == [] || CreatedHandles(step) == [mid]) && next == mid + |CreatedHandles(step)|
    ensures next == base + |CreatedHandles(before + step)| && Consecutive(CreatedHandles(before + step), base)
  {
    CreatedHandlesAppend(before, step);
  }

  /** The counter after a replay accounts for exactly the windows it created, which got consecutive handles. */
  lemma {:induction false} ReplayCountsHandles<O>(s: State<O>, owners: map<O, Bindings>, tasks: seq<Task>)
    requires HandlesIssued(s.nextHandle, s.windows)
    ensures var r := Replay(s, owners, tasks);
      && HandlesIssued(r.state.nextHandle, r.state.windows)
      && r.state.nextHandle == s.nextHandle + |CreatedHandles(r.events)|
      && Consecutive(CreatedHandles(r.events), s.nextHandle)
    decreases |tasks|
  {
    if tasks != [] {
      var r := Replay(s, owners, tasks[..|tasks| - 1]);
      ReplayCountsHandles(s, owners, tasks[..|tasks| - 1]);
      if !r.threw {
        var t := tasks[|tasks| - 1];
        var g := AfterGate(r.state, ElevationDone(true));
        var o := Execute(g, owners, t.command, t.sink);
        ExecuteReports(g, owners, t.command, t.sink);
        ExecuteKeepsHandlesIssued(g, owners, t.command, t.sink);
        ConsecutiveStep(r.events, o.events, s.nextHandle, g.nextHandle, o.state.nextHandle);
      }
    }
  }

  /**
   * The handles a replay hands out are strictly increasing, and none of them was
   * registered before it or is at or above the counter after it.
   */
  lemma ReplayAllocatesIncreasingHandles<O>(s: State<O>, owners: map<O, Bindings>, tasks: seq<Task>)
    requires HandlesIssued(s.nextHandle, s.windows)
    ensures var r := Replay(s, owners, tasks);
      var hs := CreatedHandles(r.events);
      && (forall i, j :: 0 <= i < j < |hs| ==> hs[i] < hs[j])
      && (forall i :: 0 <= i < |hs| ==> s.nextHandle <= hs[i] < r.state.nextHandle && hs[i] !in s.windows)
  {
    ReplayCountsHandles(s, owners, tasks);
  }

  /** `x` is the sink of one of the first `n` tasks. */
  predicate Queued(x: Sink, tasks: seq<Task>, n: nat) {
    exists k :: 0 <= k < n && k < |tasks| && tasks[k].sink == x
  }

  /** `cs` is increasing and each of its elements is the sink of one of the first `n` tasks. */
  predicate CompletesInOrder(cs: seq<Sink>, tasks: seq<Task>, n: nat) {
    && (forall i, j :: 0 <= i < j < |cs| ==> cs[i] < cs[j])
    && (forall i :: 0 <= i < |cs| ==> Queued(cs[i], tasks, n))
  }

  /** Appending at most the next task's sink keeps completions in queue order. */
  lemma CompletesInOrderStep(cs: seq<Sink>, more: seq<Sink>, prefix: seq<Task>, tasks: seq<Task>)
    requires |prefix| < |tasks| && prefix == tasks[..|prefix|]
    requires forall i, j :: 0 <= i < j < |tasks| ==> tasks[i].sink < tasks[j].sink
    requires CompletesInOrder(cs, prefix, |prefix|)
    requires more == [] || more == [tasks[|prefix|].sink]
    ensures CompletesInOrder(cs + more, tasks, |prefix| + 1)
  {
    var n := |prefix|;
    forall i | 0 <= i < |cs| ensures cs[i] < tasks[n].sink && Queued(cs[i], tasks, n + 1) {
      assert Queued(cs[i], prefix, n);
      var m :| 0 <= m < n && m < |prefix| && prefix[m].sink == cs[i];
      assert tasks[m] == prefix[m];
    }
    assert Queued(tasks[n].sink, tasks, n + 1);
  }

  /** Completions in order among a prefix of the tasks are in order among all of them. */
  lemma CompletesInOrderWiden(cs: seq<Sink>, prefix: seq<Task>, tasks: seq<Task>, n: nat)
    requires n <= |prefix| <= |tasks| && prefix == tasks[..|prefix|] && CompletesInOrder(cs, prefix, n)
    ensures CompletesInOrder(cs, tasks, n)
  {
    forall i | 0 <= i < |cs| ensures Queued(cs[i], tasks, n) {
      var m :| 0 <= m < n && m < |prefix| && prefix[m].sink == cs[i];
      assert tasks[m] == prefix[m];
    }
  }

  /** The completions of one more task, which complete at most its own sink, keep queue order. */
  lemma CompletionsInOrderStep(before: seq<OverlayEvent>, step: seq<OverlayEvent>, sink: Sink, prefix: seq<Task>, tasks: seq<Task>)
    requires |prefix| < |tasks| && prefix == tasks[..|prefix|] && sink == tasks[|prefix|].sink
    requires forall i, j :: 0 <= i < j < |tasks| ==> tasks[i].sink < tasks[j].sink
    requires CompletesInOrder(CompletedSinks(before), prefix, |prefix|)
    requires CompletedSinks(step) == [] || CompletedSinks(step) == [sink]
    ensures CompletesInOrder(CompletedSinks(before + step), tasks, |prefix| + 1)
  {
    CompletedSinksAppend(before, step);
    CompletesInOrderStep(CompletedSinks(before), CompletedSinks(step), prefix, tasks);
  }

  /**
   * The replay completes results in the order their commands were queued: if the queued
   * sinks were issued in increasing order, the completions come out in increasing order,
   * and each completes one of the tasks that were replayed.
   */
  lemma {:induction false} ReplayCompletesInQueueOrder<O>(s: State<O>, owners: map<O, Bindings>, tasks: seq<Task>)
    requires forall i, j :: 0 <= i < j < |tasks| ==> tasks[i].sink < tasks[j].sink
    ensures var r := Replay(s, owners, tasks);
      CompletesInOrder(CompletedSinks(r.events), tasks, r.ran)
    decreases |tasks|
  {
    if tasks != [] {
      var prefix := tasks[..|tasks| - 1];
      var r := Replay(s, owners, prefix);
      ReplayCompletesInQueueOrder(s, owners, prefix);
      ReplayKeepsHost(s, owners, prefix);
      if r.threw {
        CompletesInOrderWiden(CompletedSinks(r.events), prefix, tasks, r.ran);
      } else {
        ReplayCompletesNextInOrder(s, owners, tasks);
      }
    }
  }

  /** The step of `ReplayCompletesInQueueOrder`: a replay that ran the whole prefix runs the last task in order. */
  lemma ReplayCompletesNextInOrder<O>(s: State<O>, owners: map<O, Bindings>, tasks: seq<Task>)
    requires tasks != [] && forall i, j :: 0 <= i < j < |tasks| ==> tasks[i].sink < tasks[j].sink
    requires var r := Replay(s, owners, tasks[..|tasks| - 1]);
      && !r.threw && r.ran == |tasks| - 1 && CompletesInOrder(CompletedSinks(r.events), tasks[..|tasks| - 1], r.ran)
    ensures var r := Replay(s, owners, tasks);
      CompletesInOrder(CompletedSinks(r.events), tasks, r.ran)
  {
    var prefix := tasks[..|tasks| - 1];
    var r := Replay(s, owners, prefix);
    var t := tasks[|tasks| - 1];
    var o := ReplayStep(r.state, owners, t);
    ReplayNext(s, owners, tasks, |tasks| - 1, r, o);
    assert tasks[..|tasks|] == tasks;
    ExecuteReports(AfterGate(r.state, ElevationDone(true)), owners, t.command, t.sink);
    CompletionsInOrderStep(r.events, o.events, t.sink, prefix, tasks);
  }

  // ---------------------------------------------------------------------------------
  // The lifecycle fan-out

  /** The handles of the windows that instance `me` created. */
  function OwnedBy<O(==)>(windows: map<int, Window<O>>, me: O): set<int> {
    set h | h in windows && windows[h].bindings == me
  }

  /** `hs` lists every element of `s` exactly once, in some order. */
  predicate IsEnumeration(hs: seq<int>, s: set<int>) {
    (forall i, j :: 0 <= i < j < |hs| ==> hs[i] != hs[j]) && (forall h :: h in hs ==> h in s) && (forall h :: h in s ==> h in hs)
  }

  /** The engine call `op` on every window of `hs`, in that order. */
  function EngineCalls(hs: seq<int>, op: EngineOp): (es: seq<OverlayEvent>)
    ensures |es| == |hs| && forall i :: 0 <= i < |hs| ==> es[i] == Call(Engine(hs[i], op))
  {
    if hs == [] then [] else EngineCalls(hs[..|hs| - 1], op) + [Call(Engine(hs[|hs| - 1], op))]
  }

  lemma EngineCallsSnoc(hs: seq<int>, h: int, op: EngineOp)
    ensures EngineCalls(hs + [h], op) == EngineCalls(hs, op) + [Call(Engine(h, op))]
  {
    assert (hs + [h])[..|hs|] == hs;
  }

  /** The engine calls of `events` that concern window `h`. */
  function EngineCallsOn(h: int, events: seq<OverlayEvent>): seq<EngineOp> {
    if events == [] then []
    else
      var e := events[|events| - 1];
      EngineCallsOn(h, events[..|events| - 1])
      + (if e.Call? && e.call.Engine? && e.call.handle == h then [e.call.op] else [])
  }

  lemma {:induction false} EngineCallsOnAppend(h: int, a: seq<OverlayEvent>, b: seq<OverlayEvent>)
    ensures EngineCallsOn(h, a + b) == EngineCallsOn(h, a) + EngineCallsOn(h, b)
    decreases |b|
  {
    if b == [] {
      assert a + b == a;
    } else {
      assert (a + b)[..|a + b| - 1] == a + b[..|b| - 1];
      EngineCallsOnAppend(h, a, b[..|b| - 1]);
    }
  }

  /** A fan-out over an enumeration of `s` makes exactly one call on each window of `s` and none elsewhere. */
  lemma {:induction false} FanOutOncePerWindow(hs: seq<int>, s: set<int>, op: EngineOp, h: int)
    requires IsEnumeration(hs, s)
    ensures EngineCallsOn(h, EngineCalls(hs, op)) == if h in s then [op] else []
    decreases |hs|
  {
    if hs != [] {
      var last := hs[|hs| - 1];
      var init := hs[..|hs| - 1];
      assert IsEnumeration(init, s - {last}) by {
        forall x | x in init ensures x in s - {last} {
          var i :| 0 <= i < |init| && init[i] == x;
          assert hs[i] == x && hs[i] != hs[|hs| - 1];
        }
        forall x | x in s - {last} ensures x in init {
          var i :| 0 <= i < |hs| && hs[i] == x;
          assert init[i] == x;
        }
      }
      FanOutOncePerWindow(init, s - {last}, op, h);
      assert EngineCalls(hs, op) == EngineCalls(init, op) + [Call(Engine(last, op))];
      EngineCallsOnAppend(h, EngineCalls(init, op), [Call(Engine(last, op))]);
      assert EngineCallsOn(h, [Call(Engine(last, op))]) == (if h == last then [op] else []) by {
        assert [Call(Engine(last, op))][..0] == [];
      }
    }
  }

  /**
   * A service detach followed by a re-attach, with the same windows live, gives every
   * window exactly one detach followed by exactly one attach.
   */
  lemma ServiceDetachThenAttach(hs: seq<int>, hs': seq<int>, s: set<int>, service: nat, h: int)
    requires IsEnumeration(hs, s) && IsEnumeration(hs', s) && h in s
    ensures EngineCallsOn(h, EngineCalls(hs, DetachFromService) + EngineCalls(hs', AttachToService(service)))
            == [DetachFromService, AttachToService(service)]
  {
    EngineCallsOnAppend(h, EngineCalls(hs, DetachFromService), EngineCalls(hs', AttachToService(service)));
    FanOutOncePerWindow(hs, s, DetachFromService, h);
    FanOutOncePerWindow(hs', s, AttachToService(service), h);
  }
}
