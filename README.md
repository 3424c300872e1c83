# A Dafny model of the ride Android plugins

This project models the Android side of three Flutter plugins of the ride app and proves
properties of the model:

- **overlay_window** (`OverlayWindowPlugin`). This is the process-wide registry of overlay windows.
  - It holds a static handle counter and a static map from handle to window, shared by every plugin instance.
  - Its dispatcher handles six commands: `requestPermissions`, `hasPermissions`, `createWindow`, `updateWindow`, `setVisibility` and `destroyWindow`. Anything else is `notImplemented`.
  - An elevation gate defers commands while the static `Future<AccessibilityService>` is pending. A waiter replays them once it completes.
  - The single pending-result slot for the overlay-permission activity is claimed by `onActivityResult`.
  - Lifecycle handlers for the service and the activity pass a call to every window that this instance created.
- **ride_device_policy** (`RideDevicePolicyPlugin`).
  - The requests for device admin and for the accessibility service share one pending-result slot.
  - `setSystemSetting` reports whether the setting was stored.
  - The predicate `isAccessibilityActive` is modelled together with the `java.util.regex` semantics that `Pattern.matches` gives it. These semantics are exact for the pattern the plugin builds from a service name whose only metacharacter is `.`, as Android component names are.
- **app_widget_host** (`AppWidgetHostPlugin`).
  - The bind and configure requests share the pending-result slot.
  - `checkAppWidget` is modelled.
  - The host's listening flag is started and stopped by the activity handlers.

Each plugin object is a Dafny `class` whose fields are the Java fields the handlers update:

- the bindings;
- the pending `Result`;
- the task queue;
- for overlay_window, the static counter, registry and future, which live in a shared `Statics` object.

Every handler is a method. Its `ensures` gives its new state and the calls it appends to `trace`, stated through a pure specification function:

- `OverlaySpec.Execute` and `OverlaySpec.Replay` for the overlay dispatcher and the waiter's drain;
- `DevicePolicy.Handle` for the device-policy commands;
- `AppWidgetHost.Handle` for the widget commands;
- `ResultSlot.Occupy`, `ResultSlot.Claim` and `ResultSlot.Release` for the slot.

Lemmas state what the source promises about those functions in terms of the model's own state.

`trace` holds three kinds of event:

- collaborator calls, such as `addView`, an engine's `appIsPaused`, or `startActivityForResult` with its request code;
- completions of a method-channel `Result` (success, error or not implemented);
- an exception leaving the handler (`IllegalStateException`, `NullPointerException`).

An exception ends the handler. The state is as it was at the throw.

The system queries become inputs of the commands. These are `canDrawOverlays`, `isAdminActive`, the secure settings, `putString`'s answer and `getAppWidgetInfo`'s answer. The SDK level is a parameter of the plugin. The collaborator objects appear only through the calls recorded in `trace`: engines, views, window managers, the app-widget host and the activities.

Where the code does something other than what a reader of its interface might expect, the model follows the code:

- `setVisibility` looks up its handle without a null check, so an absent handle throws `NullPointerException` rather than reporting an error.
- `requestPermissions` stores its `Result` even when overlays are already allowed. No activity is started, so that result is only completed by a later activity result or never.
- If the elevation future fails, the waiter swallows the exception. The queued commands are never replayed, and the queue stays set. The next command sees the failed future, clears the static field and runs directly.
- A command that arrives after the future completes, but before the waiter drains, runs ahead of the queued ones. Only the queued commands keep their arrival order among themselves.
- `onDetachedFromEngine` only discards the queue and drops the window manager. It tears no window down.
- `Pattern.matches` matches the whole string. The accessibility check therefore succeeds only when the enabled-services setting is this service's name alone, with an optional `:` before it and an optional `:` after it. A second enabled service hides this one, and every `.` in the name matches any character except a line terminator.
- `requestBindAppWidget` and `configureAppWidget` store their `Result` before they dereference the activity binding. Without an activity the handler throws and the slot stays occupied.
- `requestBindAppWidget` builds the provider's `ComponentName` before it checks the slot. A missing package or class name throws `NullPointerException` there, and the slot is left as it was.

## Model

| member | source | states |
|---|---|---|
| `Channel.Digits` | overlay_window/android/src/main/java/io/baku/overlay_window/OverlayWindowPlugin.java:256 | the decimal digits of a natural number: non-empty, all digits, no leading zero, one digit exactly below ten |
| `Channel.DecimalString` | overlay_window/android/src/main/java/io/baku/overlay_window/OverlayWindowPlugin.java:223 | `Integer.toString`: a leading `-` exactly for negative numbers, digits elsewhere |
| `Channel.DigitsRoundTrip` | overlay_window/android/src/main/java/io/baku/overlay_window/OverlayWindowPlugin.java:256 | parsing the digits of `n` gives back `n` |
| `Channel.DecimalRoundTrip` | overlay_window/android/src/main/java/io/baku/overlay_window/OverlayWindowPlugin.java:223 | parsing `Integer.toString(n)` gives back `n` |
| `Channel.DecimalStringInjective` | overlay_window/android/src/main/java/io/baku/overlay_window/OverlayWindowPlugin.java:223 | different handles (and result codes) have different decimal strings, so the "No window for handle" message names the handle |
| `Channel.ActivityResultCompletion` | overlay_window/android/src/main/java/io/baku/overlay_window/OverlayWindowPlugin.java:285-295 | `RESULT_OK` (-1) completes with `true` and only it, `RESULT_CANCELED` (0) with `false` and only it, every other code with an error whose code is the decimal result code and whose message is "Exceptional activity result." |
| `ResultSlot.Occupy` | passenger/device_policy/android/src/main/java/io/baku/ride_device_policy/RideDevicePolicyPlugin.java:151-154 | an occupied slot throws `IllegalStateException` and is kept; an empty one takes the request's sink; nothing is completed |
| `ResultSlot.Claim` | passenger/device_policy/android/src/main/java/io/baku/ride_device_policy/RideDevicePolicyPlugin.java:103-115 | it throws `NullPointerException` exactly when the slot is empty or the code is exceptional without data; otherwise it completes exactly the held sink with the mapped completion and empties the slot |
| `ResultSlot.Release` | passenger/device_policy/android/src/main/java/io/baku/ride_device_policy/RideDevicePolicyPlugin.java:79-82 | detaching fails a held sink with "failed"/"Activity detached.", completes nothing else, never throws and leaves the slot empty |
| `ResultSlot.StepCompletesHeldSink` | passenger/app_widget_host/android/src/main/java/io/baku/app_widget_host/AppWidgetHostPlugin.java:103-106 | one handler completes at most the sink it found, and leaves the slot empty, unchanged or holding the new request's sink |
| `ResultSlot.RunCompletesRequestsAtMostOnce` | passenger/app_widget_host/android/src/main/java/io/baku/app_widget_host/AppWidgetHostPlugin.java:103-106 | over any sequence of requests, activity results and detaches from an empty slot, every completed sink was requested and is completed at most once, and a sink still held was requested and is not yet completed |
| `ResultSlot.RequestThenClaim` | passenger/app_widget_host/android/src/main/java/io/baku/app_widget_host/AppWidgetHostPlugin.java:144-164 | a request into an empty slot followed by an activity result completes that request's sink with the mapped result and empties the slot |
| `OverlayLayout.InitialLayout` | overlay_window/android/src/main/java/io/baku/overlay_window/OverlayWindowPlugin.java:179-185 | a new `LayoutParams` has the chosen window type, both `FLAG_NOT_FOCUSABLE` and `FLAG_NOT_TOUCH_MODAL`, match-parent size, no gravity and the origin as position |
| `OverlayLayout.ApplyParams` | overlay_window/android/src/main/java/io/baku/overlay_window/OverlayWindowPlugin.java:72-91 | each of the six fields takes its argument when present and keeps its value when absent; the window type is never touched |
| `OverlayLayout.ApplyParamsComposes` | overlay_window/android/src/main/java/io/baku/overlay_window/OverlayWindowPlugin.java:72-91 | two partial updates equal one update with the later argument winning field by field |
| `OverlayLayout.ApplyParamsIdempotent` | overlay_window/android/src/main/java/io/baku/overlay_window/OverlayWindowPlugin.java:72-91 | applying the same arguments twice equals applying them once |
| `OverlayLayout.ApplyNoArgs` | overlay_window/android/src/main/java/io/baku/overlay_window/OverlayWindowPlugin.java:72-91 | all-null arguments leave the layout unchanged |
| `OverlaySpec.RequestPermissionsOutcome` | overlay_window/android/src/main/java/io/baku/overlay_window/OverlayWindowPlugin.java:152-172 | the `requestPermissions` branch: below SDK 23 it answers `true`; otherwise no activity reports "failed", an occupied slot throws, and else the slot takes the result and the settings activity is started only when overlays are not allowed (its properties are `RequestPermissionsSlot`) |
| `OverlaySpec.CreateWindowOutcome` | overlay_window/android/src/main/java/io/baku/overlay_window/OverlayWindowPlugin.java:176-216 | the `createWindow` branch: the window type by elevation and SDK level, the merged layout, the counter taken and incremented, the registry entry, the engine, view and window-manager calls in source order, and the handle answered (its properties are `CreateWindowAllocates` and `CreateWindowReports`) |
| `OverlaySpec.UpdateWindowOutcome` | overlay_window/android/src/main/java/io/baku/overlay_window/OverlayWindowPlugin.java:217-233 | the `updateWindow` branch: the argument error for an absent handle, else the merge, `updateViewLayout` and a `null` answer (its properties are `UpdateWindowMerges`, `UpdateWindowIdempotent` and `AbsentHandleFails`) |
| `OverlaySpec.SetVisibilityOutcome` | overlay_window/android/src/main/java/io/baku/overlay_window/OverlayWindowPlugin.java:234-250 | the `setVisibility` branch: `NullPointerException` for an absent handle, else the edge-triggered lifecycle calls around the view change (its properties are `VisibilityEdges` and `RepeatedVisibilityIsQuiet`) |
| `OverlaySpec.DestroyWindowOutcome` | overlay_window/android/src/main/java/io/baku/overlay_window/OverlayWindowPlugin.java:251-274 | the `destroyWindow` branch: the argument error for an absent handle, else the entry removed and the teardown calls by the owner's live bindings (its properties are `DestroyTearsDown` and `DestroyThenFails`) |
| `OverlaySpec.Execute` | overlay_window/android/src/main/java/io/baku/overlay_window/OverlayWindowPlugin.java:151-277 | the `switch` of `onMethodCall`: each command by its branch, `hasPermissions` answering directly and any other method `notImplemented` (its properties are `ExecuteKeepsHost`, `ExecuteReports` and the lemmas below) |
| `OverlaySpec.AfterGate` | overlay_window/android/src/main/java/io/baku/overlay_window/OverlayWindowPlugin.java:120-127 | the gate for a future that is absent or done: no future changes nothing, a completed one swaps in the accessibility service's window manager, a failed one clears the static field |
| `OverlaySpec.ReplayStep` | overlay_window/android/src/main/java/io/baku/overlay_window/OverlayWindowPlugin.java:146 | one queued task re-entering `onMethodCall`, whose gate now sees the completed future |
| `OverlaySpec.Replay` | overlay_window/android/src/main/java/io/baku/overlay_window/OverlayWindowPlugin.java:133-140 | the waiter's drain: the queued tasks in order, stopping after the first that throws (its properties are `ReplayKeepsHost`, `ReplayAfterThrow`, `ReplayCountsHandles`, `ReplayAllocatesIncreasingHandles` and `ReplayCompletesInQueueOrder`) |
| `OverlaySpec.ExecuteKeepsHost` | overlay_window/android/src/main/java/io/baku/overlay_window/OverlayWindowPlugin.java:151-277 | no command changes the instance's identity, SDK level, bindings, window manager or the elevation flag |
| `OverlaySpec.ExecuteOwnersAgree` | overlay_window/android/src/main/java/io/baku/overlay_window/OverlayWindowPlugin.java:263-268 | a command depends on other instances only through the live bindings of the owners of registered windows |
| `OverlaySpec.ExecuteKeepsHandlesIssued` | overlay_window/android/src/main/java/io/baku/overlay_window/OverlayWindowPlugin.java:193-194 | every registered handle stays below the counter, and the counter never decreases |
| `OverlaySpec.CreateWindowAllocates` | overlay_window/android/src/main/java/io/baku/overlay_window/OverlayWindowPlugin.java:176-216 | `createWindow` takes the counter as a fresh handle and increments it, adds exactly that entry (owned by this instance, visible, with the merged layout), keeps every other entry and the slot, adds the view with that layout and answers with the handle last |
| `OverlaySpec.UpdateWindowMerges` | overlay_window/android/src/main/java/io/baku/overlay_window/OverlayWindowPlugin.java:217-233 | `updateWindow` on a live handle merges the arguments into that window's layout only, keeps the counter and slot, and makes exactly the `updateViewLayout` call and a `null` answer |
| `OverlaySpec.UpdateWindowIdempotent` | overlay_window/android/src/main/java/io/baku/overlay_window/OverlayWindowPlugin.java:227-229 | repeating the same `updateWindow` leaves the state unchanged |
| `OverlaySpec.AbsentHandleFails` | overlay_window/android/src/main/java/io/baku/overlay_window/OverlayWindowPlugin.java:220-225 | on an absent handle `updateWindow` and `destroyWindow` report "Argument exception" and change nothing, while `setVisibility` throws `NullPointerException` and changes nothing |
| `OverlaySpec.DestroyThenFails` | overlay_window/android/src/main/java/io/baku/overlay_window/OverlayWindowPlugin.java:251-258 | after `destroyWindow(h)` the handle is gone, and any later update, destroy or visibility change of `h` fails and changes nothing |
| `OverlaySpec.DestroyTearsDown` | overlay_window/android/src/main/java/io/baku/overlay_window/OverlayWindowPlugin.java:253-273 | `destroyWindow` removes only `h`, and its calls are exactly removeView, appIsDetached, detachFromService exactly when the owner has a service, detachFromActivity exactly when it has an activity (in that order), then destroy and a `null` answer |
| `OverlaySpec.VisibilityEdges` | overlay_window/android/src/main/java/io/baku/overlay_window/OverlayWindowPlugin.java:234-250 | appIsPaused happens exactly on a visible-to-hidden edge, before the view changes; appIsResumed happens exactly on a hidden-to-visible edge, after it |
| `OverlaySpec.RepeatedVisibilityIsQuiet` | overlay_window/android/src/main/java/io/baku/overlay_window/OverlayWindowPlugin.java:240-246 | setting the same visibility again makes no lifecycle call |
| `OverlaySpec.RequestPermissionsSlot` | overlay_window/android/src/main/java/io/baku/overlay_window/OverlayWindowPlugin.java:152-168 | from SDK 23 on: no activity reports "failed" and changes nothing; an occupied slot throws; otherwise the slot takes the sink, and the settings activity with code 0x20 is started only when overlays are not yet allowed |
| `OverlaySpec.HasPermissionsAnswers` | overlay_window/android/src/main/java/io/baku/overlay_window/OverlayWindowPlugin.java:173-175 | `hasPermissions` changes nothing and answers its own result once, `true` exactly below SDK 23 or when overlays are allowed; from SDK 23 on, with an activity and an empty slot, `requestPermissions` starts no activity exactly when `hasPermissions` answers `true` |
| `OverlaySpec.CreateWindowReports` | overlay_window/android/src/main/java/io/baku/overlay_window/OverlayWindowPlugin.java:193-214 | `createWindow` starts exactly the window with the counter's handle and answers its own sink once |
| `OverlaySpec.SetVisibilityReports` | overlay_window/android/src/main/java/io/baku/overlay_window/OverlayWindowPlugin.java:234-249 | `setVisibility` on a live handle starts no window and answers its sink once |
| `OverlaySpec.DestroyWindowReports` | overlay_window/android/src/main/java/io/baku/overlay_window/OverlayWindowPlugin.java:251-273 | `destroyWindow` on a live handle starts no window and answers its sink once |
| `OverlaySpec.UpdateWindowReports` | overlay_window/android/src/main/java/io/baku/overlay_window/OverlayWindowPlugin.java:217-232 | `updateWindow` on a live handle starts no window and answers its sink once |
| `OverlaySpec.ExecuteReports` | overlay_window/android/src/main/java/io/baku/overlay_window/OverlayWindowPlugin.java:151-277 | only `createWindow` starts a window, with the counter's handle, and the counter grows by the windows started; every command completes at most its own sink |
| `OverlaySpec.ReplayKeepsHost` | overlay_window/android/src/main/java/io/baku/overlay_window/OverlayWindowPlugin.java:133-140 | the drain keeps the host's identity and bindings, runs at most the queued tasks and stops early only after a throw, and once any task ran the window manager is the accessibility service's |
| `OverlaySpec.ReplayAfterThrow` | overlay_window/android/src/main/java/io/baku/overlay_window/OverlayWindowPlugin.java:136-138 | once a replayed task throws, the rest of the queue is never run |
| `OverlaySpec.ExecuteWindowOwners` | overlay_window/android/src/main/java/io/baku/overlay_window/OverlayWindowPlugin.java:188-194 | a command keeps every window's owner, and a new window is owned by the executing instance |
| `OverlaySpec.ReplayCountsHandles` | overlay_window/android/src/main/java/io/baku/overlay_window/OverlayWindowPlugin.java:136-138 | replaying queued commands allocates consecutive handles from the counter, and the counter ends past them |
| `OverlaySpec.ReplayAllocatesIncreasingHandles` | overlay_window/android/src/main/java/io/baku/overlay_window/OverlayWindowPlugin.java:193-194 | the handles a replay allocates are strictly increasing, lie between the old and new counter, and none was registered before |
| `OverlaySpec.ReplayCompletesInQueueOrder` | overlay_window/android/src/main/java/io/baku/overlay_window/OverlayWindowPlugin.java:136-138 | results are completed in the order their commands were queued, and only for the tasks that ran |
| `OverlaySpec.EngineCalls` | overlay_window/android/src/main/java/io/baku/overlay_window/OverlayWindowPlugin.java:329-333 | one engine call per visited window, in visiting order |
| `OverlaySpec.FanOutOncePerWindow` | overlay_window/android/src/main/java/io/baku/overlay_window/OverlayWindowPlugin.java:329-333 | a fan-out over an enumeration of the owned windows calls each owned window's engine exactly once and every other engine never |
| `OverlaySpec.ServiceDetachThenAttach` | overlay_window/android/src/main/java/io/baku/overlay_window/OverlayWindowPlugin.java:326-347 | a service detach followed by an attach gives each owned engine exactly detach then attach, whatever order the map is visited in |
| `OverlayPlugin.ElevationFuture.constructor` | overlay_window/android/src/main/java/io/baku/overlay_window/OverlayWindowPlugin.java:58 | a new elevation future is running |
| `OverlayPlugin.ElevationFuture.Complete` | overlay_window/android/src/main/java/io/baku/overlay_window/OverlayWindowPlugin.java:133 | a running future completes, successfully or not |
| `OverlayPlugin.Statics.constructor` | overlay_window/android/src/main/java/io/baku/overlay_window/OverlayWindowPlugin.java:58-101 | the statics start with counter 0, an empty registry and no future |
| `OverlayPlugin.Statics.SetAccessibilityService` | overlay_window/android/src/main/java/io/baku/overlay_window/OverlayWindowPlugin.java:58 | setting the public static future leaves the counter and the registry alone |
| `OverlayPlugin.OverlayWindowPlugin.constructor` | overlay_window/android/src/main/java/io/baku/overlay_window/OverlayWindowPlugin.java:93-115 | a new instance has no bindings, no manager, no pending result, no queue and an empty trace, over the shared statics |
| `OverlayPlugin.OverlayWindowPlugin.OnAttachedToEngine` | overlay_window/android/src/main/java/io/baku/overlay_window/OverlayWindowPlugin.java:106-113 | attaching installs the channel handler and the context's window manager and changes nothing else |
| `OverlayPlugin.OverlayWindowPlugin.OnDetachedFromEngine` | overlay_window/android/src/main/java/io/baku/overlay_window/OverlayWindowPlugin.java:304-310 | detaching discards the queue, drops the manager and the handler, and leaves the windows, bindings and slot as they were |
| `OverlayPlugin.OverlayWindowPlugin.Dispatch` | overlay_window/android/src/main/java/io/baku/overlay_window/OverlayWindowPlugin.java:151-277 | the switch updates the statics and fields exactly as `Execute` says and appends its events, leaving the future, queue and waiters alone |
| `OverlayPlugin.OverlayWindowPlugin.RequestPermissions` | overlay_window/android/src/main/java/io/baku/overlay_window/OverlayWindowPlugin.java:152-172 | the `requestPermissions` branch, as `RequestPermissionsOutcome` says |
| `OverlayPlugin.OverlayWindowPlugin.CreateWindow` | overlay_window/android/src/main/java/io/baku/overlay_window/OverlayWindowPlugin.java:176-216 | the `createWindow` branch: the counter, registry and trace move as `CreateWindowOutcome` says |
| `OverlayPlugin.OverlayWindowPlugin.AttachNewEngine` | overlay_window/android/src/main/java/io/baku/overlay_window/OverlayWindowPlugin.java:203-208 | a new engine is attached to the service and then the activity, each only when bound |
| `OverlayPlugin.OverlayWindowPlugin.UpdateWindow` | overlay_window/android/src/main/java/io/baku/overlay_window/OverlayWindowPlugin.java:217-233 | the `updateWindow` branch, as `UpdateWindowOutcome` says |
| `OverlayPlugin.OverlayWindowPlugin.SetVisibility` | overlay_window/android/src/main/java/io/baku/overlay_window/OverlayWindowPlugin.java:234-250 | the `setVisibility` branch, as `SetVisibilityOutcome` says |
| `OverlayPlugin.OverlayWindowPlugin.DestroyWindow` | overlay_window/android/src/main/java/io/baku/overlay_window/OverlayWindowPlugin.java:251-274 | the `destroyWindow` branch, reading the owner's live bindings, as `DestroyWindowOutcome` says |
| `OverlayPlugin.OverlayWindowPlugin.DetachOldEngine` | overlay_window/android/src/main/java/io/baku/overlay_window/OverlayWindowPlugin.java:263-268 | the detaches of a destroyed engine follow its owner's current bindings |
| `OverlayPlugin.OverlayWindowPlugin.OnMethodCall` | overlay_window/android/src/main/java/io/baku/overlay_window/OverlayWindowPlugin.java:118-279 | while elevation is pending the command is queued with nothing completed, and a waiter is started only when the queue is created; otherwise the gate elevates (or clears a failed future) and the command runs as `Execute` says |
| `OverlayPlugin.OverlayWindowPlugin.PassGate` | overlay_window/android/src/main/java/io/baku/overlay_window/OverlayWindowPlugin.java:120-127 | a completed future swaps in the accessibility service's window manager; a failed one is cleared |
| `OverlayPlugin.OverlayWindowPlugin.WaiterWakes` | overlay_window/android/src/main/java/io/baku/overlay_window/OverlayWindowPlugin.java:131-144 | a failed future ends its waiter with nothing replayed and the queue left set; a successful one replays the queue as `Replay` says and clears it unless a task threw |
| `OverlayPlugin.OverlayWindowPlugin.DrainQueue` | overlay_window/android/src/main/java/io/baku/overlay_window/OverlayWindowPlugin.java:135-140 | the drain loop runs the queued tasks in order up to the first throw, exactly as `Replay` says |
| `OverlayPlugin.OverlayWindowPlugin.RunTask` | overlay_window/android/src/main/java/io/baku/overlay_window/OverlayWindowPlugin.java:137 | one replayed task re-enters `onMethodCall` and behaves as `ReplayStep` says |
| `OverlayPlugin.OverlayWindowPlugin.OnActivityResult` | overlay_window/android/src/main/java/io/baku/overlay_window/OverlayWindowPlugin.java:282-301 | code 0x20 claims the slot as `Claim` says and answers `true` unless it threw; any other code answers `false` and changes nothing |
| `OverlayPlugin.OverlayWindowPlugin.FanOut` | overlay_window/android/src/main/java/io/baku/overlay_window/OverlayWindowPlugin.java:329-333 | the loop over `windows.values()` visits each window this instance owns exactly once, and no other, and makes one call per visited window |
| `OverlayPlugin.OverlayWindowPlugin.OnAttachedToService` | overlay_window/android/src/main/java/io/baku/overlay_window/OverlayWindowPlugin.java:326-335 | the binding is set, then every owned engine is attached to the service |
| `OverlayPlugin.OverlayWindowPlugin.OnDetachedFromService` | overlay_window/android/src/main/java/io/baku/overlay_window/OverlayWindowPlugin.java:338-347 | every owned engine is detached from the service, then the binding is cleared |
| `OverlayPlugin.OverlayWindowPlugin.OnAttachedToActivity` | overlay_window/android/src/main/java/io/baku/overlay_window/OverlayWindowPlugin.java:350-360 | the binding is set, every owned engine is attached, then this instance is added as a result listener |
| `OverlayPlugin.OverlayWindowPlugin.OnDetachedFromActivityForConfigChanges` | overlay_window/android/src/main/java/io/baku/overlay_window/OverlayWindowPlugin.java:363-372 | every owned engine is detached for a configuration change, then the binding is cleared |
| `OverlayPlugin.OverlayWindowPlugin.OnReattachedToActivityForConfigChanges` | overlay_window/android/src/main/java/io/baku/overlay_window/OverlayWindowPlugin.java:375-377 | reattaching behaves as attaching |
| `OverlayPlugin.OverlayWindowPlugin.OnDetachedFromActivity` | overlay_window/android/src/main/java/io/baku/overlay_window/OverlayWindowPlugin.java:380-389 | every owned engine is detached from the activity, then the binding is cleared |
| `JavaPattern.ServicePattern` | passenger/device_policy/android/src/main/java/io/baku/ride_device_policy/RideDevicePolicyPlugin.java:132 | the compiled pattern: the leading group of start-of-input or `:`, the quoted service name, and the trailing group of end-of-input or `:` (its property is `ServicePatternMatches`) |
| `JavaPattern.Quote` | passenger/device_policy/android/src/main/java/io/baku/ride_device_policy/RideDevicePolicyPlugin.java:132 | a plain service name compiles to one node per character, a wildcard for each `.` and a literal otherwise |
| `JavaPattern.QuoteMatches` | passenger/device_policy/android/src/main/java/io/baku/ride_device_policy/RideDevicePolicyPlugin.java:132 | matching a quoted name and then the rest of the pattern is matching the name character by character and then the rest |
| `JavaPattern.TrailerMatches` | passenger/device_policy/android/src/main/java/io/baku/ride_device_policy/RideDevicePolicyPlugin.java:132 | the trailing group (end of input or `:`) finishes a full match exactly at the end or before one final `:` |
| `JavaPattern.ServicePatternMatches` | passenger/device_policy/android/src/main/java/io/baku/ride_device_policy/RideDevicePolicyPlugin.java:132 | the full match of the service pattern, a group of start-of-input or `:`, then the name, then a group of end-of-input or `:`, holds exactly when `s` is the service name, with one optional `:` before it and one optional `:` after it |
| `JavaPattern.AnotherServiceHidesThisOne` | passenger/device_policy/android/src/main/java/io/baku/ride_device_policy/RideDevicePolicyPlugin.java:132 | with another service listed before or after this one, the pattern does not match |
| `DevicePolicy.IsAccessibilityActive` | passenger/device_policy/android/src/main/java/io/baku/ride_device_policy/RideDevicePolicyPlugin.java:121-135 | a missing setting, a setting other than 1, or a null services string gives `false` |
| `DevicePolicy.AccessibilityActiveIff` | passenger/device_policy/android/src/main/java/io/baku/ride_device_policy/RideDevicePolicyPlugin.java:121-135 | active exactly when the setting is 1 and the services string is this package's service name, with an optional `:` before and after |
| `DevicePolicy.AccessibilityActiveAlone` | passenger/device_policy/android/src/main/java/io/baku/ride_device_policy/RideDevicePolicyPlugin.java:129-132 | with the setting at 1 and only this service enabled, the check succeeds |
| `DevicePolicy.AccessibilityHiddenByOtherService` | passenger/device_policy/android/src/main/java/io/baku/ride_device_policy/RideDevicePolicyPlugin.java:129-132 | with another service enabled before or after this one, the check fails |
| `DevicePolicy.StartForResult` | passenger/device_policy/android/src/main/java/io/baku/ride_device_policy/RideDevicePolicyPlugin.java:145-162 | the shared tail of both requests: no activity reports "failed", an occupied slot throws, else the slot takes the result and the activity is started with the request code |
| `DevicePolicy.Handle` | passenger/device_policy/android/src/main/java/io/baku/ride_device_policy/RideDevicePolicyPlugin.java:138-233 | the `switch` of `onMethodCall` for the modelled commands: a granted request answers `true`, an ungranted one goes to the activity, `setSystemSetting` writes and reports, any other method is `notImplemented` (its properties are the lemmas below) |
| `DevicePolicy.GrantedRequestAnswersTrue` | passenger/device_policy/android/src/main/java/io/baku/ride_device_policy/RideDevicePolicyPlugin.java:141-144 | a request whose permission is already granted answers `true` and leaves the slot untouched |
| `DevicePolicy.RequestUsesSlot` | passenger/device_policy/android/src/main/java/io/baku/ride_device_policy/RideDevicePolicyPlugin.java:146-185 | an ungranted request reports "failed" and changes nothing without an activity, throws on an occupied slot, and otherwise stores its sink and starts exactly one activity (code 0x00 with the explanation when given, or 0x01) |
| `DevicePolicy.RequestIsSlotRequest` | passenger/device_policy/android/src/main/java/io/baku/ride_device_policy/RideDevicePolicyPlugin.java:151-154 | with an activity, an ungranted request does to the slot what a slot `Request` does |
| `DevicePolicy.OtherCommandsCompleteOnce` | passenger/device_policy/android/src/main/java/io/baku/ride_device_policy/RideDevicePolicyPlugin.java:188-231 | granted requests, `setSystemSetting` and unknown methods keep the slot, never throw and complete their own result once |
| `DevicePolicy.SetSystemSettingReports` | passenger/device_policy/android/src/main/java/io/baku/ride_device_policy/RideDevicePolicyPlugin.java:188-196 | `setSystemSetting` writes the setting, then succeeds with `null` exactly when `putString` stored it and otherwise reports "failed" |
| `DevicePolicy.RideDevicePolicyPlugin.constructor` | passenger/device_policy/android/src/main/java/io/baku/ride_device_policy/RideDevicePolicyPlugin.java:40-50 | a new instance has no binding, no pending result and an empty trace |
| `DevicePolicy.RideDevicePolicyPlugin.OnAttachedToEngine` | passenger/device_policy/android/src/main/java/io/baku/ride_device_policy/RideDevicePolicyPlugin.java:53-55 | the channel handler is installed |
| `DevicePolicy.RideDevicePolicyPlugin.OnDetachedFromEngine` | passenger/device_policy/android/src/main/java/io/baku/ride_device_policy/RideDevicePolicyPlugin.java:246-249 | the channel handler is removed |
| `DevicePolicy.RideDevicePolicyPlugin.OnMethodCall` | passenger/device_policy/android/src/main/java/io/baku/ride_device_policy/RideDevicePolicyPlugin.java:138-233 | the slot and trace move as `Handle` says |
| `DevicePolicy.RideDevicePolicyPlugin.StartActivity` | passenger/device_policy/android/src/main/java/io/baku/ride_device_policy/RideDevicePolicyPlugin.java:145-162 | the shared tail of both requests: no activity reports "failed", an occupied slot throws, otherwise the sink is stored and one activity started |
| `DevicePolicy.RideDevicePolicyPlugin.OnActivityResult` | passenger/device_policy/android/src/main/java/io/baku/ride_device_policy/RideDevicePolicyPlugin.java:99-119 | codes 0x00 and 0x01 claim the slot as `Claim` says and answer `true` unless it threw; other codes answer `false` and change nothing |
| `DevicePolicy.RideDevicePolicyPlugin.OnAttachedToActivity` | passenger/device_policy/android/src/main/java/io/baku/ride_device_policy/RideDevicePolicyPlugin.java:72-75 | the binding is set and this instance is added as a result listener |
| `DevicePolicy.RideDevicePolicyPlugin.OnDetachedFromActivity` | passenger/device_policy/android/src/main/java/io/baku/ride_device_policy/RideDevicePolicyPlugin.java:78-86 | a pending result fails with "Activity detached." and the slot is cleared; then the listener is removed and the binding cleared, or, with no binding, the handler throws |
| `DevicePolicy.RideDevicePolicyPlugin.OnDetachedFromActivityForConfigChanges` | passenger/device_policy/android/src/main/java/io/baku/ride_device_policy/RideDevicePolicyPlugin.java:89-91 | a configuration-change detach is a full detach |
| `DevicePolicy.RideDevicePolicyPlugin.OnReattachedToActivityForConfigChanges` | passenger/device_policy/android/src/main/java/io/baku/ride_device_policy/RideDevicePolicyPlugin.java:94-96 | a reattach is an attach |
| `AppWidgetHost.Handle` | passenger/app_widget_host/android/src/main/java/io/baku/app_widget_host/AppWidgetHostPlugin.java:81-142 | the `switch` of `onMethodCall` for the modelled commands, in source order of checks (its properties are the three lemmas below) |
| `AppWidgetHost.FailingCommandsLeaveSlot` | passenger/app_widget_host/android/src/main/java/io/baku/app_widget_host/AppWidgetHostPlugin.java:99-113 | a bind whose provider lacks its package or class name, and a configure of a widget with no provider info, throw `NullPointerException` before the slot is looked at, leaving it as it was and completing nothing |
| `AppWidgetHost.StartingCommandsUseSlot` | passenger/app_widget_host/android/src/main/java/io/baku/app_widget_host/AppWidgetHostPlugin.java:95-128 | a bind with both provider names, or a configure with a configure activity, throws on an occupied slot and keeps it; otherwise the slot takes the sink and one activity is started (0x10 or 0x11), or the missing activity throws with the slot still taken; it completes nothing |
| `AppWidgetHost.StartingCommandIsSlotRequest` | passenger/app_widget_host/android/src/main/java/io/baku/app_widget_host/AppWidgetHostPlugin.java:103-106 | such a command (not a bind missing a provider name, which throws first) does to the slot what a slot `Request` does |
| `AppWidgetHost.OtherCommandsAnswer` | passenger/app_widget_host/android/src/main/java/io/baku/app_widget_host/AppWidgetHostPlugin.java:110-140 | a configure without a configure activity answers `true`, `checkAppWidget` answers whether the info exists, and an unknown method answers not implemented, each exactly once and leaving the slot alone |
| `AppWidgetHost.AppWidgetHostPlugin.constructor` | passenger/app_widget_host/android/src/main/java/io/baku/app_widget_host/AppWidgetHostPlugin.java:39-45 | a new instance has no binding, no pending result, no host and an empty trace |
| `AppWidgetHost.AppWidgetHostPlugin.OnAttachedToEngine` | passenger/app_widget_host/android/src/main/java/io/baku/app_widget_host/AppWidgetHostPlugin.java:48-61 | a new host, not yet listening, is created and the handler installed |
| `AppWidgetHost.AppWidgetHostPlugin.OnDetachedFromEngine` | passenger/app_widget_host/android/src/main/java/io/baku/app_widget_host/AppWidgetHostPlugin.java:183-187 | the host is deleted and dropped and the handler removed; with no host the handler throws |
| `AppWidgetHost.AppWidgetHostPlugin.OnMethodCall` | passenger/app_widget_host/android/src/main/java/io/baku/app_widget_host/AppWidgetHostPlugin.java:81-142 | the slot and trace move as `Handle` says |
| `AppWidgetHost.AppWidgetHostPlugin.OnActivityResult` | passenger/app_widget_host/android/src/main/java/io/baku/app_widget_host/AppWidgetHostPlugin.java:145-168 | codes 0x10 and 0x11 claim the slot as `Claim` says and answer `true` unless it threw; other codes answer `false` and change nothing |
| `AppWidgetHost.AppWidgetHostPlugin.OnAttachedToActivity` | passenger/app_widget_host/android/src/main/java/io/baku/app_widget_host/AppWidgetHostPlugin.java:64-68 | the binding is set, the listener added and the host starts listening, so the host listens exactly while an activity is attached |
| `AppWidgetHost.AppWidgetHostPlugin.OnDetachedFromActivity` | passenger/app_widget_host/android/src/main/java/io/baku/app_widget_host/AppWidgetHostPlugin.java:171-180 | a pending result fails with "Activity detached." and the slot is cleared; the host stops listening, the listener is removed and the binding cleared, each step throwing instead when its object is missing |
| `AppWidgetHost.AppWidgetHostPlugin.OnDetachedFromActivityForConfigChanges` | passenger/app_widget_host/android/src/main/java/io/baku/app_widget_host/AppWidgetHostPlugin.java:71-73 | a configuration-change detach is a full detach |
| `AppWidgetHost.AppWidgetHostPlugin.OnReattachedToActivityForConfigChanges` | passenger/app_widget_host/android/src/main/java/io/baku/app_widget_host/AppWidgetHostPlugin.java:76-78 | a reattach is an attach, and listening resumes |

## Left out

- Threads, `synchronized` and the blocking `Future.get()` are not modelled as concurrency. Each step is a sequential event: a command arrives (`OnMethodCall`), the future completes (`ElevationFuture.Complete`), a waiter wakes (`WaiterWakes`). Each handler runs atomically, as the lock on `windows` makes it.
- OverlayPlugin.OverlayWindowPlugin.WaiterWakes: on success it requires that the static field still holds the future this waiter was started for. The model does not cover an embedder replacing the future while a waiter is blocked on the old one.
- The engines, views, window managers, the app-widget host and manager, and the device-policy manager are not modelled as objects. Only the calls made on them are recorded. Intents are reduced to their kind, request code and explanation.
- The system queries are inputs of the commands: `canDrawOverlays`, `isAdminActive`, the two secure settings, `putString`, and `getAppWidgetInfo` with its configure activity. The SDK level is a parameter; the window-type constants are names.
- Every recorded call on a collaborator is taken to return normally. These calls include `windowManager.addView`, `updateViewLayout` and `removeView`, the engine and view calls, `startActivityForResult` and `startAppWidgetConfigureActivityForResult`, and the host's `startListening`, `stopListening` and `deleteHost`. When one of them throws, for example `addView` with a window type the system refuses, the source has already registered the window and advanced the counter, or taken the slot, and never answers the result. The model does not capture that state.
- Method-channel transport and argument decoding are not modelled. Arguments arrive decoded, and the `details` argument of an error is not recorded.
- `nextHandle` is an unbounded integer. The 32-bit wrap-around after 2^31 windows is not modelled.
- Each window's `LayoutParams` and visibility are values inside its registry entry. The source mutates them in place, but no two windows share them, so only the aliasing is lost.
- `View.getVisibility` is modelled as the last visibility set: the view's masking of the argument is not modelled.
- The visiting order of `windows.values()` is a `HashMap` order. Each fan-out returns the order it used, and its contract holds for every such order.
- `attachToActivity` casts the activity to `FlutterActivity`. The `ClassCastException` it throws for any other activity is not modelled.
- The Dart entrypoint call records only the entrypoint. Its arguments, the decimal strings of the entrypoint and the handle, are not recorded.
- DevicePolicy.IsAccessibilityActive requires a package name free of regex metacharacters other than `.`, as Android package names are. The compilation of other metacharacters is not modelled.
- The following are not part of this model: `getSystemSetting`, `home`, `wakeUp`, `lockNow`, `setVolume` (floating point), `allocateAppWidgetId`, `bindAppWidgetIdIfAllowed` and `deleteAppWidgetId`. They are single calls on the operating system with no state of their own.
- The event sink for window events (`onListen`/`onCancel`) is not modelled. FlutterAppWidgetHostView.java, MainActivity.java and RideAccessibilityService.java are not part of this model.
