/**
 * The device-policy plugin: two commands that start a system activity and wait for its
 * result in the shared pending-result slot (device administration and the accessibility
 * settings), the system-setting write, the accessibility check, and the activity
 * lifecycle that fails a pending result when the activity goes away.
 */
module DevicePolicy {
  import opened Wrappers
  import opened Channel
  import opened ResultSlot
  import opened JavaPattern

  const REQUEST_CODE_ENABLE_ADMIN: int := 0x00
  const REQUEST_CODE_ENABLE_ACCESSIBILITY: int := 0x01

  /** The canonical name of the plugin's accessibility service class. */
  const ACCESSIBILITY_SERVICE_CLASS: string := "io.baku.ride_device_policy.RideAccessibilityService"
  const PUT_STRING_FAILED: string := "android.provider.Settings.System.putString failed"

  // ---------------------------------------------------------------------------------
  // The accessibility check

  /** The component name the enabled-services setting lists when this plugin's service is on. */
  function ServiceName(packageName: string): string {
    packageName + "/" + ACCESSIBILITY_SERVICE_CLASS
  }

  /**
   * `isAccessibilityActive`: the secure setting `accessibility_enabled` (absent when the
   * setting is not found) must be 1, and the enabled-services string (absent when null)
   * must match `(?:^|:)<service>(?:$|:)` as a whole.
   */
  function IsAccessibilityActive(packageName: string, enabled: Option<int>, services: Option<string>): (b: bool)
    requires PlainName(packageName)
    ensures enabled != Some(1) || services.None? ==> !b
  {
    match enabled
    case None => false
    case Some(v) =>
      if v == 1 then services.Some? && FullMatch(ServicePattern(ServiceName(packageName)), services.value)
      else false
  }

  /** The service counts as active exactly when the setting is 1 and the list is just this service, with at most one `:` on each side. */
  lemma AccessibilityActiveIff(packageName: string, enabled: Option<int>, services: Option<string>)
    requires PlainName(packageName)
    ensures IsAccessibilityActive(packageName, enabled, services) <==>
      enabled == Some(1) && services.Some? && Listed(ServiceName(packageName), services.value)
  {
    if services.Some? {
      ServicePatternMatches(ServiceName(packageName), services.value);
    }
  }

  /** The service's own name, alone in the list, is recognised. */
  lemma AccessibilityActiveAlone(packageName: string)
    requires PlainName(packageName)
    ensures IsAccessibilityActive(packageName, Some(1), Some(ServiceName(packageName)))
  {
    var name := ServiceName(packageName);
    AccessibilityActiveIff(packageName, Some(1), Some(name));
    assert NameMatches(name, name) by {
      forall i | 0 <= i < |name| ensures CharMatches(name[i], name[i]) {
        assert !LineTerminator('.');
      }
    }
  }

  /** With any other service enabled beside it, the service is reported inactive. */
  lemma AccessibilityHiddenByOtherService(packageName: string, other: string)
    requires PlainName(packageName) && |other| >= 2
    ensures !IsAccessibilityActive(packageName, Some(1), Some(other + ":" + ServiceName(packageName)))
    ensures !IsAccessibilityActive(packageName, Some(1), Some(ServiceName(packageName) + ":" + other))
  {
    var name := ServiceName(packageName);
    AccessibilityActiveIff(packageName, Some(1), Some(other + ":" + name));
    AccessibilityActiveIff(packageName, Some(1), Some(name + ":" + other));
    AnotherServiceHidesThisOne(name, other);
  }

  // ---------------------------------------------------------------------------------
  // Commands

  /** The intents the plugin starts for a result. */
  datatype Intent =
    | AddDeviceAdmin(explanation: Option<string>)
    | AccessibilitySettings

  /** Calls on the activity, its binding and the system settings. */
  datatype DeviceCall =
    | StartActivityForResult(intent: Intent, requestCode: int)
    | PutSystemSetting(name: string, value: string)
    | AddActivityResultListener(activity: nat)
    | RemoveActivityResultListener(activity: nat)

  type DeviceEvent = Event<DeviceCall>

  /** The modelled method-channel commands; the system queries are inputs. */
  datatype Command =
    | RequestAdminIfNeeded(adminActive: bool, explanation: Option<string>)
    | RequestAccessibilityIfNeeded(enabled: Option<int>, services: Option<string>)
    | SetSystemSetting(name: string, value: string, stored: bool)
    | Unknown

  /** A request that needs an activity: refused without one, else the slot takes the sink and the activity is started. */
  function StartForResult(slot: Option<Sink>, activity: Option<nat>, intent: Intent, code: int, sink: Sink): Slotted<DeviceCall> {
    if activity.None? then Slotted(slot, [Complete(sink, Error(FAILED, NEEDS_ACTIVITY))])
    else
      var o := Occupy<DeviceCall>(slot, sink);
      if EndsByThrowing(o.events) then o else Slotted(o.slot, [Call(StartActivityForResult(intent, code))])
  }

  /** What one command does to the slot and which events it produces. */
  function Handle(packageName: string, slot: Option<Sink>, activity: Option<nat>, cmd: Command, sink: Sink): Slotted<DeviceCall>
    requires PlainName(packageName)
  {
    match cmd
    case RequestAdminIfNeeded(adminActive, explanation) =>
      if adminActive then Slotted(slot, [Complete(sink, Success(Bool(true)))])
      else StartForResult(slot, activity, AddDeviceAdmin(explanation), REQUEST_CODE_ENABLE_ADMIN, sink)
    case RequestAccessibilityIfNeeded(enabled, services) =>
      if IsAccessibilityActive(packageName, enabled, services) then Slotted(slot, [Complete(sink, Success(Bool(true)))])
      else StartForResult(slot, activity, AccessibilitySettings, REQUEST_CODE_ENABLE_ACCESSIBILITY, sink)
    case SetSystemSetting(name, value, stored) =>
      Slotted(slot, [Call(PutSystemSetting(name, value)),
                     Complete(sink, if stored then Success(Null) else Error(FAILED, PUT_STRING_FAILED))])
    case Unknown =>
      Slotted(slot, [Complete(sink, NotImplemented)])
  }

  /** Whether a request command finds its permission already granted, so needs no activity. */
  predicate AlreadyGranted(packageName: string, cmd: Command)
    requires PlainName(packageName)
  {
    || (cmd.RequestAdminIfNeeded? && cmd.adminActive)
    || (cmd.RequestAccessibilityIfNeeded? && IsAccessibilityActive(packageName, cmd.enabled, cmd.services))
  }

  /** A request whose permission is already granted answers `true` and leaves the slot alone. */
  lemma GrantedRequestAnswersTrue(packageName: string, slot: Option<Sink>, activity: Option<nat>, cmd: Command, sink: Sink)
    requires PlainName(packageName) && AlreadyGranted(packageName, cmd)
    ensures Handle(packageName, slot, activity, cmd, sink) == Slotted(slot, [Complete(sink, Success(Bool(true)))])
  {
  }

  /**
   * A request that needs an activity: without one it fails with "failed" and the slot is
   * unchanged; with the slot occupied it throws and the slot is unchanged; otherwise the
   * slot takes the sink and exactly one activity is started with the command's request
   * code, and nothing is completed. The administration intent carries the explanation
   * exactly when the argument was given.
   */
  lemma RequestUsesSlot(packageName: string, slot: Option<Sink>, activity: Option<nat>, cmd: Command, sink: Sink)
    requires PlainName(packageName)
    requires (cmd.RequestAdminIfNeeded? || cmd.RequestAccessibilityIfNeeded?) && !AlreadyGranted(packageName, cmd)
    ensures var r := Handle(packageName, slot, activity, cmd, sink);
      && (activity.None? ==> r == Slotted(slot, [Complete(sink, Error(FAILED, NEEDS_ACTIVITY))]))
      && (activity.Some? && slot.Some? ==> r == Slotted(slot, [Threw(IllegalState(UNCOMPLETED_RESULT))]))
      && (activity.Some? && slot.None? ==>
            && r.slot == Some(sink) && CompletedSinks(r.events) == []
            && r.events == [Call(StartActivityForResult(
                 if cmd.RequestAdminIfNeeded? then AddDeviceAdmin(cmd.explanation) else AccessibilitySettings,
                 if cmd.RequestAdminIfNeeded? then REQUEST_CODE_ENABLE_ADMIN else REQUEST_CODE_ENABLE_ACCESSIBILITY))])
  {
    var r := Handle(packageName, slot, activity, cmd, sink);
    if activity.Some? && slot.None? {
      assert CompletedSinks(r.events) == CompletedSinks(r.events[..0]) + [];
    }
  }

  /** With an activity attached, a request that needs it acts on the slot exactly as a slot `Request` does. */
  lemma RequestIsSlotRequest(packageName: string, slot: Option<Sink>, activity: nat, cmd: Command, sink: Sink)
    requires PlainName(packageName)
    requires (cmd.RequestAdminIfNeeded? || cmd.RequestAccessibilityIfNeeded?) && !AlreadyGranted(packageName, cmd)
    ensures var r := Handle(packageName, slot, Some(activity), cmd, sink);
      r.slot == Step<DeviceCall>(slot, Request(sink)).slot
      && CompletedSinks(r.events) == CompletedSinks(Step<DeviceCall>(slot, Request(sink)).events)
  {
    RequestUsesSlot(packageName, slot, Some(activity), cmd, sink);
  }

  /** Every other command leaves the slot alone and completes its own sink exactly once. */
  lemma OtherCommandsCompleteOnce(packageName: string, slot: Option<Sink>, activity: Option<nat>, cmd: Command, sink: Sink)
    requires PlainName(packageName)
    requires cmd.SetSystemSetting? || cmd.Unknown? || AlreadyGranted(packageName, cmd)
    ensures var r := Handle(packageName, slot, activity, cmd, sink);
      r.slot == slot && CompletedSinks(r.events) == [sink] && !EndsByThrowing(r.events)
  {
    var r := Handle(packageName, slot, activity, cmd, sink);
    assert CompletedSinks(r.events) == CompletedSinks(r.events[..|r.events| - 1]) + [sink];
    if cmd.SetSystemSetting? {
      assert r.events[..1][..0] == [];
    }
  }

  /** `setSystemSetting` succeeds exactly when the settings provider stored the value, and otherwise reports "failed". */
  lemma SetSystemSettingReports(packageName: string, slot: Option<Sink>, activity: Option<nat>, name: string, value: string, stored: bool, sink: Sink)
    requires PlainName(packageName)
    ensures var r := Handle(packageName, slot, activity, SetSystemSetting(name, value, stored), sink);
      && r.events[0] == Call(PutSystemSetting(name, value))
      && (r.events[1] == Complete(sink, Success(Null)) <==> stored)
      && (!stored ==> r.events[1].completion.code == FAILED)
  {
  }

  /** `onActivityResult` claims the two request codes the plugin starts activities with. */
  predicate OwnRequestCode(requestCode: int) {
    requestCode == REQUEST_CODE_ENABLE_ADMIN || requestCode == REQUEST_CODE_ENABLE_ACCESSIBILITY
  }

  // ---------------------------------------------------------------------------------
  // The plugin

  class RideDevicePolicyPlugin {
    const packageName: string
    /** Whether the method channel has this instance as its handler. */
    var attached: bool
    var activityBinding: Option<nat>
    var activityResult: Option<Sink>
    /** The calls made so far on the activity, its binding and the settings, and the results completed. */
    var trace: seq<DeviceEvent>

    constructor (packageName: string)
      requires PlainName(packageName)
      ensures this.packageName == packageName && !attached
      ensures activityBinding == None && activityResult == None && trace == []
    {
      this.packageName := packageName;
      attached := false;
      activityBinding := None;
      activityResult := None;
      trace := [];
    }

    method OnAttachedToEngine()
      modifies this`attached
      ensures attached
    {
      attached := true;
    }

    method OnDetachedFromEngine()
      modifies this`attached
      ensures !attached
    {
      attached := false;
    }

    /** `onMethodCall` for the modelled commands. */
    method OnMethodCall(cmd: Command, sink: Sink)
      requires PlainName(packageName)
      modifies this`activityResult, this`trace
      ensures var r := Handle(packageName, old(activityResult), activityBinding, cmd, sink);
        activityResult == r.slot && trace == old(trace) + r.events
    {
      match cmd {
        case RequestAdminIfNeeded(adminActive, explanation) =>
          if adminActive {
            trace := trace + [Complete(sink, Success(Bool(true)))];
            return;
          }
          StartActivity(AddDeviceAdmin(explanation), REQUEST_CODE_ENABLE_ADMIN, sink);
        case RequestAccessibilityIfNeeded(enabled, services) =>
          if IsAccessibilityActive(packageName, enabled, services) {
            trace := trace + [Complete(sink, Success(Bool(true)))];
            return;
          }
          StartActivity(AccessibilitySettings, REQUEST_CODE_ENABLE_ACCESSIBILITY, sink);
        case SetSystemSetting(name, value, stored) =>
          trace := trace + [Call(PutSystemSetting(name, value))];
          if stored {
            trace := trace + [Complete(sink, Success(Null))];
          } else {
            trace := trace + [Complete(sink, Error(FAILED, PUT_STRING_FAILED))];
          }
        case Unknown =>
          trace := trace + [Complete(sink, NotImplemented)];
      }
    }

    /** The shared tail of both requests: check the activity and the slot, store the sink, start the activity. */
    method StartActivity(intent: Intent, code: int, sink: Sink)
      modifies this`activityResult, this`trace
      ensures var r := StartForResult(old(activityResult), activityBinding, intent, code, sink);
        activityResult == r.slot && trace == old(trace) + r.events
    {
      if activityBinding.None? {
        trace := trace + [Complete(sink, Error(FAILED, NEEDS_ACTIVITY))];
        return;
      }
      if activityResult.Some? {
        trace := trace + [Threw(IllegalState(UNCOMPLETED_RESULT))];
        return;
      }
      activityResult := Some(sink);
      trace := trace + [Call(StartActivityForResult(intent, code))];
    }

    /** `onActivityResult`: the two own request codes complete the pending sink; any other code is declined. */
    method OnActivityResult(requestCode: int, resultCode: int, dataPresent: bool) returns (handled: bool)
      modifies this`activityResult, this`trace
      ensures !OwnRequestCode(requestCode) ==>
        !handled && activityResult == old(activityResult) && trace == old(trace)
      ensures OwnRequestCode(requestCode) ==>
        var c := Claim<DeviceCall>(old(activityResult), resultCode, dataPresent);
        activityResult == c.slot && trace == old(trace) + c.events && handled == !EndsByThrowing(c.events)
    {
      handled := false;
      if OwnRequestCode(requestCode) {
        var c := ActivityResultCompletion(resultCode);
        if activityResult.None? || (c.Error? && !dataPresent) {
          trace := trace + [Threw(NullPointer)];
          return;
        }
        trace := trace + [Complete(activityResult.value, c)];
        activityResult := None;
        handled := true;
      }
    }

    method OnAttachedToActivity(activity: nat)
      modifies this`activityBinding, this`trace
      ensures activityBinding == Some(activity)
      ensures trace == old(trace) + [Call(AddActivityResultListener(activity))]
    {
      activityBinding := Some(activity);
      trace := trace + [Call(AddActivityResultListener(activity))];
    }

    /**
     * Fails a pending result with "Activity detached." and empties the slot, then
     * unregisters from the activity; without a binding the unregistering throws.
     */
    method OnDetachedFromActivity()
      modifies this`activityResult, this`activityBinding, this`trace
      ensures activityResult == None && activityBinding == None
      ensures var released := Release<DeviceCall>(old(activityResult)).events;
        trace == old(trace) + released
                 + (if old(activityBinding).Some? then [Call(RemoveActivityResultListener(old(activityBinding).value))]
                    else [Threw(NullPointer)])
    {
      if activityResult.Some? {
        trace := trace + [Complete(activityResult.value, Error(FAILED, ACTIVITY_DETACHED))];
        activityResult := None;
      }
      if activityBinding.None? {
        trace := trace + [Threw(NullPointer)];
        return;
      }
      trace := trace + [Call(RemoveActivityResultListener(activityBinding.value))];
      activityBinding := None;
    }

    method OnDetachedFromActivityForConfigChanges()
      modifies this`activityResult, this`activityBinding, this`trace
      ensures activityResult == None && activityBinding == None
      ensures var released := Release<DeviceCall>(old(activityResult)).events;
        trace == old(trace) + released
                 + (if old(activityBinding).Some? then [Call(RemoveActivityResultListener(old(activityBinding).value))]
                    else [Threw(NullPointer)])
    {
      OnDetachedFromActivity();
    }

    method OnReattachedToActivityForConfigChanges(activity: nat)
      modifies this`activityBinding, this`trace
      ensures activityBinding == Some(activity)
      ensures trace == old(trace) + [Call(AddActivityResultListener(activity))]
    {
      OnAttachedToActivity(activity);
    }
  }
}
