/**
 * The app-widget-host plugin: binding and configuring widgets through activities that
 * report back into the shared pending-result slot, the widget check, and the
 * `AppWidgetHost` that listens for widget updates while an activity is attached.
 */
module AppWidgetHost {
  import opened Wrappers
  import opened Channel
  import opened ResultSlot

  const APP_WIDGET_HOST_ID: int := 0
  const REQUEST_BIND_APPWIDGET: int := 0x10
  const REQUEST_CONFIGURE_APPWIDGET: int := 0x11

  /** The widget host the plugin creates on engine attach: whether it is listening for updates. */
  datatype Host = Host(listening: bool)

  /** A provider component, as its package and class names (either may be absent from the call). */
  datatype Provider = Provider(packageName: Option<string>, className: Option<string>)

  /** Both names are present, so `ComponentName` can be built. */
  predicate Named(p: Provider) {
    p.packageName.Some? && p.className.Some?
  }

  /** Calls on the activity and its binding, and on the widget host. */
  datatype WidgetCall =
    | StartBindActivity(widgetId: Option<int>, provider: Provider, requestCode: int)
    | StartConfigureActivity(appWidgetId: int, requestCode: int)
    | AddActivityResultListener(activity: nat)
    | RemoveActivityResultListener(activity: nat)
    | StartListening
    | StopListening
    | DeleteHost

  type WidgetEvent = Event<WidgetCall>

  /**
   * The modelled method-channel commands. The provider lookup `getAppWidgetInfo` is an
   * input: absent for an unknown widget, else whether the provider has a configure activity.
   */
  datatype Command =
    | RequestBindAppWidget(widgetId: Option<int>, provider: Provider)
    | ConfigureAppWidget(appWidgetId: int, info: Option<bool>)
    | CheckAppWidget(appWidgetId: int, infoPresent: bool)
    | Unknown

  /** The part of the plugin's state that the commands read and write. */
  datatype WidgetState = WidgetState(slot: Option<Sink>, activity: Option<nat>, host: Option<Host>)

  /** What one command does and which events it produces. */
  function Handle(s: WidgetState, cmd: Command, sink: Sink): Slotted<WidgetCall> {
    match cmd
    case RequestBindAppWidget(id, provider) =>
      // `new ComponentName(packageName, className)` rejects a null name before the slot is checked.
      if !Named(provider) then Slotted(s.slot, [Threw(NullPointer)])
      else
        var o := Occupy<WidgetCall>(s.slot, sink);
        if EndsByThrowing(o.events) then o
        else if s.activity.None? then Slotted(o.slot, [Threw(NullPointer)])
        else Slotted(o.slot, [Call(StartBindActivity(id, provider, REQUEST_BIND_APPWIDGET))])
    case ConfigureAppWidget(id, info) =>
      if info.None? then Slotted(s.slot, [Threw(NullPointer)])
      else if !info.value then Slotted(s.slot, [Complete(sink, Success(Bool(true)))])
      else
        var o := Occupy<WidgetCall>(s.slot, sink);
        if EndsByThrowing(o.events) then o
        else if s.activity.None? || s.host.None? then Slotted(o.slot, [Threw(NullPointer)])
        else Slotted(o.slot, [Call(StartConfigureActivity(id, REQUEST_CONFIGURE_APPWIDGET))])
    case CheckAppWidget(_, present) =>
      Slotted(s.slot, [Complete(sink, Success(Bool(present)))])
    case Unknown =>
      Slotted(s.slot, [Complete(sink, NotImplemented)])
  }

  /** The commands that store their sink to wait for an activity. */
  predicate StartsActivity(cmd: Command) {
    (cmd.RequestBindAppWidget? && Named(cmd.provider)) || (cmd.ConfigureAppWidget? && cmd.info == Some(true))
  }

  /**
   * The commands that throw `NullPointerException` before the slot is looked at: a bind
   * whose provider lacks a name, and a configure of a widget with no provider info.
   */
  predicate FailsBeforeSlot(cmd: Command) {
    (cmd.RequestBindAppWidget? && !Named(cmd.provider)) || (cmd.ConfigureAppWidget? && cmd.info.None?)
  }

  /** Such a command throws and leaves the slot, the activity and the host untouched. */
  lemma FailingCommandsLeaveSlot(s: WidgetState, cmd: Command, sink: Sink)
    requires FailsBeforeSlot(cmd)
    ensures var r := Handle(s, cmd, sink);
      r == Slotted(s.slot, [Threw(NullPointer)]) && CompletedSinks(r.events) == []
  {
    var r := Handle(s, cmd, sink);
    assert CompletedSinks(r.events) == CompletedSinks(r.events[..0]) + [];
  }

  /**
   * A command that starts an activity throws on an occupied slot and leaves it alone;
   * otherwise the slot takes the sink before the activity is reached, so it stays occupied
   * even when a missing activity (or host) then throws. It completes nothing.
   */
  lemma StartingCommandsUseSlot(s: WidgetState, cmd: Command, sink: Sink)
    requires StartsActivity(cmd)
    ensures var r := Handle(s, cmd, sink);
      && CompletedSinks(r.events) == []
      && (s.slot.Some? ==> r == Slotted(s.slot, [Threw(IllegalState(UNCOMPLETED_RESULT))]))
      && (s.slot.None? ==> r.slot == Some(sink))
      && (s.slot.None? && s.activity.Some? && cmd.RequestBindAppWidget? ==>
            r.events == [Call(StartBindActivity(cmd.widgetId, cmd.provider, REQUEST_BIND_APPWIDGET))])
      && (s.slot.None? && s.activity.Some? && s.host.Some? && cmd.ConfigureAppWidget? ==>
            r.events == [Call(StartConfigureActivity(cmd.appWidgetId, REQUEST_CONFIGURE_APPWIDGET))])
      && (s.slot.None? && s.activity.None? ==> r.events == [Threw(NullPointer)])
  {
    var r := Handle(s, cmd, sink);
    assert CompletedSinks(r.events) == CompletedSinks(r.events[..0]) + [];
  }

  /** A starting command acts on the slot exactly as a slot `Request` does. */
  lemma StartingCommandIsSlotRequest(s: WidgetState, cmd: Command, sink: Sink)
    requires StartsActivity(cmd)
    ensures var r := Handle(s, cmd, sink);
      r.slot == Step<WidgetCall>(s.slot, Request(sink)).slot
      && CompletedSinks(r.events) == CompletedSinks(Step<WidgetCall>(s.slot, Request(sink)).events)
  {
    StartingCommandsUseSlot(s, cmd, sink);
  }

  /**
   * `configureAppWidget` for a provider without a configure activity answers `true` and
   * leaves the slot alone; `checkAppWidget` answers whether the provider info exists;
   * unknown methods are not implemented.
   */
  lemma OtherCommandsAnswer(s: WidgetState, cmd: Command, sink: Sink)
    requires !StartsActivity(cmd) && !FailsBeforeSlot(cmd)
    ensures var r := Handle(s, cmd, sink);
      && r.slot == s.slot && |r.events| == 1 && r.events[0].Complete? && r.events[0].sink == sink
      && (cmd.ConfigureAppWidget? ==> r.events[0].completion == Success(Bool(true)))
      && (cmd.CheckAppWidget? ==> r.events[0].completion == Success(Bool(cmd.infoPresent)))
      && (cmd.Unknown? ==> r.events[0].completion == NotImplemented)
  {
  }

  /** `onActivityResult` claims the bind and configure request codes. */
  predicate OwnRequestCode(requestCode: int) {
    requestCode == REQUEST_BIND_APPWIDGET || requestCode == REQUEST_CONFIGURE_APPWIDGET
  }

  /** The host listens exactly while an activity is attached. */
  predicate ListeningWhileAttached(activity: Option<nat>, host: Option<Host>) {
    host.Some? ==> (host.value.listening <==> activity.Some?)
  }

  class AppWidgetHostPlugin {
    /** Whether the method channel has this instance as its handler. */
    var attached: bool
    var activityBinding: Option<nat>
    var activityResult: Option<Sink>
    /** The `AppWidgetHost`, absent before engine attach and after engine detach. */
    var host: Option<Host>
    /** The calls made so far on the activity, its binding and the host, and the results completed. */
    var trace: seq<WidgetEvent>

    constructor ()
      ensures !attached && activityBinding == None && activityResult == None && host == None && trace == []
    {
      attached := false;
      activityBinding := None;
      activityResult := None;
      host := None;
      trace := [];
    }

    function State(): WidgetState
      reads this`activityResult, this`activityBinding, this`host
    {
      WidgetState(activityResult, activityBinding, host)
    }

    /** Creates a host that is not yet listening. */
    method OnAttachedToEngine()
      modifies this`attached, this`host
      ensures attached && host == Some(Host(false))
      ensures old(activityBinding).None? ==> ListeningWhileAttached(activityBinding, host)
    {
      attached := true;
      host := Some(Host(false));
    }

    /** Deletes the host and drops it; without a host the deletion throws. */
    method OnDetachedFromEngine()
      modifies this`attached, this`host, this`trace
      ensures old(host).Some? ==> !attached && host == None && trace == old(trace) + [Call(DeleteHost)]
      ensures old(host).None? ==> attached == old(attached) && host == None && trace == old(trace) + [Threw(NullPointer)]
    {
      if host.None? {
        trace := trace + [Threw(NullPointer)];
        return;
      }
      trace := trace + [Call(DeleteHost)];
      host := None;
      attached := false;
    }

    /** `onMethodCall` for the modelled commands. */
    method OnMethodCall(cmd: Command, sink: Sink)
      modifies this`activityResult, this`trace
      ensures var r := Handle(old(State()), cmd, sink);
        activityResult == r.slot && trace == old(trace) + r.events
    {
      match cmd {
        case RequestBindAppWidget(id, provider) =>
          if !Named(provider) {
            trace := trace + [Threw(NullPointer)];
            return;
          }
          if activityResult.Some? {
            trace := trace + [Threw(IllegalState(UNCOMPLETED_RESULT))];
            return;
          }
          activityResult := Some(sink);
          if activityBinding.None? {
            trace := trace + [Threw(NullPointer)];
            return;
          }
          trace := trace + [Call(StartBindActivity(id, provider, REQUEST_BIND_APPWIDGET))];
        case ConfigureAppWidget(id, info) =>
          if info.None? {
            trace := trace + [Threw(NullPointer)];
            return;
          }
          if !info.value {
            trace := trace + [Complete(sink, Success(Bool(true)))];
            return;
          }
          if activityResult.Some? {
            trace := trace + [Threw(IllegalState(UNCOMPLETED_RESULT))];
            return;
          }
          activityResult := Some(sink);
          if activityBinding.None? || host.None? {
            trace := trace + [Threw(NullPointer)];
            return;
          }
          trace := trace + [Call(StartConfigureActivity(id, REQUEST_CONFIGURE_APPWIDGET))];
        case CheckAppWidget(_, present) =>
          trace := trace + [Complete(sink, Success(Bool(present)))];
        case Unknown =>
          trace := trace + [Complete(sink, NotImplemented)];
      }
    }

    /** `onActivityResult`: the bind and configure codes complete the pending sink; the data may be absent. */
    method OnActivityResult(requestCode: int, resultCode: int) returns (handled: bool)
      modifies this`activityResult, this`trace
      ensures !OwnRequestCode(requestCode) ==>
        !handled && activityResult == old(activityResult) && trace == old(trace)
      ensures OwnRequestCode(requestCode) ==>
        var c := Claim<WidgetCall>(old(activityResult), resultCode, true);
        activityResult == c.slot && trace == old(trace) + c.events && handled == !EndsByThrowing(c.events)
    {
      handled := false;
      if OwnRequestCode(requestCode) {
        if activityResult.None? {
          trace := trace + [Threw(NullPointer)];
          return;
        }
        trace := trace + [Complete(activityResult.value, ActivityResultCompletion(resultCode))];
        activityResult := None;
        handled := true;
      }
    }

    /** Registers for activity results, then starts the host listening; without a host that throws. */
    method OnAttachedToActivity(activity: nat)
      modifies this`activityBinding, this`host, this`trace
      ensures activityBinding == Some(activity) && ListeningWhileAttached(activityBinding, host)
      ensures old(host).Some? ==>
        host == Some(Host(true)) && trace == old(trace) + [Call(AddActivityResultListener(activity)), Call(StartListening)]
      ensures old(host).None? ==>
        host == None && trace == old(trace) + [Call(AddActivityResultListener(activity)), Threw(NullPointer)]
    {
      activityBinding := Some(activity);
      trace := trace + [Call(AddActivityResultListener(activity))];
      if host.None? {
        trace := trace + [Threw(NullPointer)];
        return;
      }
      host := Some(Host(true));
      trace := trace + [Call(StartListening)];
    }

    /**
     * Fails a pending result with "Activity detached." and empties the slot, stops the host
     * listening and unregisters from the activity; a missing host or binding throws at
     * that step and skips the rest.
     */
    method OnDetachedFromActivity()
      modifies this`activityResult, this`activityBinding, this`host, this`trace
      ensures activityResult == None && ListeningWhileAttached(activityBinding, host)
      ensures var released := Release<WidgetCall>(old(activityResult)).events;
        && (old(host).None? ==>
              activityBinding == old(activityBinding) && host == None
              && trace == old(trace) + released + [Threw(NullPointer)])
        && (old(host).Some? && old(activityBinding).None? ==>
              activityBinding == None && host == Some(Host(false))
              && trace == old(trace) + released + [Call(StopListening), Threw(NullPointer)])
        && (old(host).Some? && old(activityBinding).Some? ==>
              activityBinding == None && host == Some(Host(false))
              && trace == old(trace) + released
                 + [Call(StopListening), Call(RemoveActivityResultListener(old(activityBinding).value))])
    {
      if activityResult.Some? {
        trace := trace + [Complete(activityResult.value, Error(FAILED, ACTIVITY_DETACHED))];
        activityResult := None;
      }
      if host.None? {
        trace := trace + [Threw(NullPointer)];
        return;
      }
      host := Some(Host(false));
      trace := trace + [Call(StopListening)];
      if activityBinding.None? {
        trace := trace + [Threw(NullPointer)];
        return;
      }
      trace := trace + [Call(RemoveActivityResultListener(activityBinding.value))];
      activityBinding := None;
    }

    method OnDetachedFromActivityForConfigChanges()
      modifies this`activityResult, this`activityBinding, this`host, this`trace
      ensures activityResult == None && ListeningWhileAttached(activityBinding, host)
      ensures var released := Release<WidgetCall>(old(activityResult)).events;
        && (old(host).None? ==>
              activityBinding == old(activityBinding) && host == None
              && trace == old(trace) + released + [Threw(NullPointer)])
        && (old(host).Some? && old(activityBinding).None? ==>
              activityBinding == None && host == Some(Host(false))
              && trace == old(trace) + released + [Call(StopListening), Threw(NullPointer)])
        && (old(host).Some? && old(activityBinding).Some? ==>
              activityBinding == None && host == Some(Host(false))
              && trace == old(trace) + released
                 + [Call(StopListening), Call(RemoveActivityResultListener(old(activityBinding).value))])
    {
      OnDetachedFromActivity();
    }

    method OnReattachedToActivityForConfigChanges(activity: nat)
      modifies this`activityBinding, this`host, this`trace
      ensures activityBinding == Some(activity) && ListeningWhileAttached(activityBinding, host)
      ensures old(host).Some? ==>
        host == Some(Host(true)) && trace == old(trace) + [Call(AddActivityResultListener(activity)), Call(StartListening)]
      ensures old(host).None? ==>
        host == None && trace == old(trace) + [Call(AddActivityResultListener(activity)), Threw(NullPointer)]
    {
      OnAttachedToActivity(activity);
    }
  }
}
