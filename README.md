# CompositorWindow: per-window state machine of the luna-next compositor

The luna-next Wayland compositor keeps one `CompositorWindow` per client
surface. The client describes itself through surface properties:

- `_LUNE_APP_ID` and `_LUNE_APP_ICON`, the app id and icon
- `_LUNE_APP_KEEP_ALIVE`, whether to keep the app alive
- `_LUNE_WINDOW_TYPE`, the window type
- `_LUNE_WINDOW_PARENT_ID`, the parent window
- `_LUNE_WINDOW_LOADING_ANIMATION_DISABLED`, whether to skip the loading animation

A window becomes *ready* in one of two ways. Either both its app id and its
parent id are known, or a 2000 ms timer runs out first. Readiness is
announced once with `readyChanged`. A closed window asks to be removed with
`tryRemove`. That call posts a single `QEvent::User` to itself, and when the
event is dispatched the window deletes itself.

The project has three modules:

- `Qt` (`qt.dfy`) covers the collaborators whose code is not part of this model:
  - 32-bit `unsigned int` and `int`
  - the wrap-around when `QVariant::toInt` is stored in an `unsigned int`
  - a `Platform` record of function values standing for `QVariant::toString`/`toBool`/`toInt`, `WindowType::fromString`, `WindowType::Card` and the default `QVariant()`. These values are never given bodies, so the proofs hold for any such conversions.
- `WindowSpec` (`window_spec.dfy`) models the window as a value:
  - `Window<V>` holds the member fields, with `V` standing for `QVariant`.
  - One function per operation returns a `Step`: the new window, plus the signals emitted and the removal events posted (`Effect`).
  - `Apply` and `Run` replay any sequence of calls, and the lemmas state what holds over every such sequence.
- `Compositor` (`compositor_window.dfy`) is the class itself:
  - `CompositorWindow<V>` has the same fields, updated in place. `CheckStatus`, `OnReadyTimeout`, `OnWindowPropertyChanged`, `SetUserData`, `SetClosed`, `TryRemove` and `SetParentWinId` are each proved to follow the `WindowSpec` function of the same name. `StoreProperty` (the if-chain) follows `WindowSpec.Store`, the constructor follows `WindowSpec.Create`, and its loop `IngestSnapshot` follows `WindowSpec.Run` over the snapshot. `Event` has no counterpart in `WindowSpec`: its contract states the deletion directly.
  - A ghost log `emitted` records each signal and posted event.
  - A ghost flag `destroyed` stands for `delete this`.
  - `Valid()` says three things hold between calls. First, the window has not been deleted (`!destroyed`). Second, the log agrees with the flags: it holds one `readyChanged` if the window is ready and none otherwise, and one posted removal if the removal guard is set and none otherwise. Third, readiness is settled: an app id and a known parent imply ready, and ready implies the parent counts as known.

One point where a natural reading and the code differ: it is tempting to
assume that `closed` never goes back to false, and that a posted removal
implies the window is closed. `setClosed` assigns its argument as given, so
neither holds. The model follows the code. `WindowSpec.ReopenWithRemovalPosted`
shows a window with an outstanding removal that is no longer closed.

## Model

| member | source | states |
|---|---|---|
| Qt.ToUnsigned | plugins/compositor/compositorwindow.cpp:116 | storing the `int` from `toInt()` in the `unsigned int` parent id keeps it congruent modulo 2^32 |
| WindowSpec.KeyOf | plugins/compositor/compositorwindow.cpp:107-123 | a name dispatches to a property only if that property's wire name is exactly that name; an unrecognised name matches no property |
| WindowSpec.KeyOfName | plugins/compositor/compositorwindow.cpp:107-123 | every property name is recognised as its own property (no two branches share a name) |
| WindowSpec.Initial | plugins/compositor/compositorwindow.cpp:30-40 | a new window keeps its id and starts with parent id 0, parent unknown, type Card, empty app id and icon, keep-alive and loading-animation flags false, default user data, not ready, not closed and no removal posted; the empty log is consistent with it and readiness is settled |
| WindowSpec.CheckStatus | plugins/compositor/compositorwindow.cpp:81-90 | the window is ready afterwards iff it was ready or has a non-empty app id and a known parent; only `ready` changes; `readyChanged` is emitted exactly when it flips |
| WindowSpec.OnReadyTimeout | plugins/compositor/compositorwindow.cpp:92-101 | the window is ready afterwards; a ready window is left alone with nothing emitted; otherwise ready and parent-known are set and `readyChanged` is emitted once |
| WindowSpec.Store | plugins/compositor/compositorwindow.cpp:107-123 | each recognised property sets only its own field from the converted value and emits only its own signal; an unknown name changes nothing |
| WindowSpec.StoreKeepsConsistent | plugins/compositor/compositorwindow.cpp:107-123 | storing a property neither emits `readyChanged` nor posts a removal, so the log stays consistent with the flags |
| WindowSpec.OnWindowPropertyChanged | plugins/compositor/compositorwindow.cpp:103-126 | checkStatus runs after every property: the window is ready afterwards iff it was ready or now has a non-empty app id and a known parent; readiness is settled afterwards; an unknown name has exactly the effect of checkStatus alone |
| WindowSpec.PropertySetsOnlyItsField | plugins/compositor/compositorwindow.cpp:107-125 | for each of the six properties: its field gets the converted value, no other field except `ready` changes, and the effects are its own signal followed by `readyChanged` iff the window just became ready |
| WindowSpec.SetUserData | plugins/compositor/compositorwindow.cpp:178-185 | the user data becomes the given value; `userDataChanged` is emitted iff the value differs from the old one |
| WindowSpec.SetClosed | plugins/compositor/compositorwindow.cpp:202-205 | `closed` becomes the given flag, false included; nothing else changes and nothing is emitted |
| WindowSpec.TryRemove | plugins/compositor/compositorwindow.cpp:207-213 | the guard is set afterwards iff it was set or the window is closed; a removal is posted exactly when the window is closed and none is outstanding |
| WindowSpec.SetParentWinId | plugins/compositor/compositorwindow.cpp:246-252 | the parent id is overwritten, `parentWinIdChanged` is emitted, and neither readiness nor parent-known changes |
| WindowSpec.PropertyInputs | plugins/compositor/compositorwindow.cpp:42-47 | the snapshot becomes one onWindowPropertyChanged call per entry, in iteration order |
| WindowSpec.Create | plugins/compositor/compositorwindow.cpp:30-47 | the window built from the defaults and then the snapshot has a log that agrees with its flags, and its readiness is settled |
| WindowSpec.RunPropertiesSnoc | plugins/compositor/compositorwindow.cpp:44-47 | each turn of the snapshot loop extends the run by one onWindowPropertyChanged call |
| WindowSpec.ApplyCounts | plugins/compositor/compositorwindow.cpp:81-213 | no call clears `ready` or the removal guard; a call emits `readyChanged` exactly once iff it makes the window ready, and posts a removal exactly once iff it sets the guard; a call that makes the window ready is the timeout or leaves it with a non-empty app id and a known parent |
| WindowSpec.ApplyKeepsSettled | plugins/compositor/compositorwindow.cpp:81-126 | every call keeps readiness settled |
| WindowSpec.ApplyKeepsParentKnown | plugins/compositor/compositorwindow.cpp:115-117 | once the parent is known, no call makes it unknown |
| WindowSpec.RunCounts | plugins/compositor/compositorwindow.cpp:81-213 | over any sequence of calls, ready and the guard are monotonic, `readyChanged` is emitted once iff the window became ready, and a removal is posted once iff the guard was set |
| WindowSpec.ReadyChangedAtMostOnce | plugins/compositor/compositorwindow.cpp:83-100 | over any sequence of calls `readyChanged` fires at most once, and never for a window that was already ready |
| WindowSpec.RunKeepsConsistent | plugins/compositor/compositorwindow.cpp:86-88 | a log consistent with the flags stays consistent after any sequence of calls |
| WindowSpec.RunKeepsSettled | plugins/compositor/compositorwindow.cpp:81-126 | readiness stays settled across any sequence of calls |
| WindowSpec.RunParentKnown | plugins/compositor/compositorwindow.cpp:115-117 | a parent id delivered anywhere in a sequence leaves the parent known at the end |
| WindowSpec.ApplyKeepsParentUnknown | plugins/compositor/compositorwindow.cpp:92-126 | only the timeout and the parent id property make an unknown parent known |
| WindowSpec.NotReadyWithoutParentOrTimer | plugins/compositor/compositorwindow.cpp:81-126 | a window with no parent stays not ready, and its parent stays unknown, through any sequence of calls without a timeout or a parent id property |
| WindowSpec.ApplyAppId | plugins/compositor/compositorwindow.cpp:107-108 | only the app id property changes the app id, and it stores the converted value |
| WindowSpec.RunLastAppId | plugins/compositor/compositorwindow.cpp:107-108 | the app id at the end of a sequence is the last app id delivered |
| WindowSpec.SnapshotWithAppIdAndParentIsReady | plugins/compositor/compositorwindow.cpp:42-47 | a window whose snapshot holds a non-empty app id and a parent id is ready when the constructor returns, having emitted `readyChanged` exactly once |
| WindowSpec.RepeatedTryRemove | plugins/compositor/compositorwindow.cpp:207-213 | any number of tryRemove calls in a row post at most one removal, and only for a closed window with none outstanding |
| WindowSpec.RepeatedSetUserData | plugins/compositor/compositorwindow.cpp:178-185 | writing the same user data twice notifies at most once |
| WindowSpec.ReopenWithRemovalPosted | plugins/compositor/compositorwindow.cpp:202-213 | setClosed(false) after a posted removal leaves the guard set on an open window: a posted removal does not imply closed |
| WindowSpec.TimeoutWithoutProperties | plugins/compositor/compositorwindow.cpp:92-101 | a window that receives no properties becomes ready on the timer with parent id 0, emitting `readyChanged` once |
| Compositor.CompositorWindow.constructor | plugins/compositor/compositorwindow.cpp:30-47 | the new window is valid and its fields and log are those of the defaults followed by the snapshot |
| Compositor.CompositorWindow.IngestSnapshot | plugins/compositor/compositorwindow.cpp:42-47 | the loop feeds every snapshot entry to onWindowPropertyChanged in order and keeps the window valid |
| Compositor.CompositorWindow.CheckStatus | plugins/compositor/compositorwindow.cpp:81-90 | updates the fields and the log as `WindowSpec.CheckStatus` and leaves the window valid |
| Compositor.CompositorWindow.OnReadyTimeout | plugins/compositor/compositorwindow.cpp:92-101 | updates the fields and the log as `WindowSpec.OnReadyTimeout` and keeps the window valid |
| Compositor.CompositorWindow.OnWindowPropertyChanged | plugins/compositor/compositorwindow.cpp:103-126 | updates the fields and the log as `WindowSpec.OnWindowPropertyChanged` and keeps the window valid |
| Compositor.CompositorWindow.StoreProperty | plugins/compositor/compositorwindow.cpp:107-123 | the if-chain updates the fields and the log as `WindowSpec.Store` |
| Compositor.CompositorWindow.SetUserData | plugins/compositor/compositorwindow.cpp:178-185 | updates the fields and the log as `WindowSpec.SetUserData` and keeps the window valid |
| Compositor.CompositorWindow.SetClosed | plugins/compositor/compositorwindow.cpp:202-205 | assigns `closed` as given, emits nothing, and keeps the window valid |
| Compositor.CompositorWindow.TryRemove | plugins/compositor/compositorwindow.cpp:207-213 | updates the fields and the log as `WindowSpec.TryRemove` and keeps the window valid |
| Compositor.CompositorWindow.Event | plugins/compositor/compositorwindow.cpp:215-225 | returns the base class's answer; a User event clears the guard and destroys the window, whether or not it is closed; its log holds one posted removal iff one was outstanding; any other event changes nothing |
| Compositor.CompositorWindow.SetParentWinId | plugins/compositor/compositorwindow.cpp:246-252 | updates the fields and the log as `WindowSpec.SetParentWinId` and keeps the window valid |

## Left out

- Signal and slot connections and the QTimer calls of the constructor (compositorwindow.cpp:49-56) are left out. The 2000 ms timeout is the explicit call `OnReadyTimeout`, so any interleaving of it with the other calls is covered by `Run`.
- Calls into the Wayland surface and client are left out: sendWindowIdToClient, forceVisible, isPopup, processId, mapped, changeSize and windowPropertyMap only forward to the surface.
- onSurfaceMappedChanged (compositorwindow.cpp:128-134) is left out. It emits the window's own `mappedChanged` signal when the surface is mapped or unmapped; `Effect` has no entry for that signal, and the mapped state lives in the surface.
- postEvent is left out. It only translates an event to a key and sends the key to the client.
- checkIsAllowedToStay is left out. It reads `/proc` on the host.
- Compositor.CompositorWindow.SetParentWinId: the write-back of `parentWindowId` to the surface is not modelled, because the surface is outside this model.
- Connecting surfaceDestroyed to deleteLater is left out. It is a connection to the event loop.
- The qDebug output is left out.
- Compositor.CompositorWindow.Event: `delete this` is modelled as the ghost flag `destroyed`; memory is not modelled, and the base class's handling of the event is the parameter `baseHandled`.
- The internals of QVariant's conversions and of `WindowType::fromString` are not modelled. They are uninterpreted function values, so the model assumes neither the value of `WindowType::Card` nor what an unknown type name maps to.
- QVariant equality in setUserData is modelled as equality on `V`.
- The iteration order of the QVariantMap snapshot is taken as the order of the given sequence. Keys are sorted in Qt, and the lemmas that need distinct keys say so with `DistinctKeys`.
- The getters winId, parentWinId, windowType, appId, appIcon, ready, userData, keepAlive and loadingAnimationDisabled (compositorwindow.cpp:136-176, 262-270) are plain field reads. They are kept as functions without a contract of their own.
- The destructor (compositorwindow.cpp:61-64) only logs and is left out.
- Qt delivers these signals synchronously, and the model does not capture two consequences of that. First, signals emitted inside the constructor's snapshot loop (compositorwindow.cpp:44-47) reach no receiver, because nothing can be connected before the constructor returns; the `readyChanged` that `SnapshotWithAppIdAndParentIsReady` counts is such an emission. Second, a slot connected to `parentWinIdChanged` or `loadingAnimationDisabledChanged` (compositorwindow.cpp:118, 122) runs before checkStatus (line 125), so it can observe or call into a window whose readiness is not yet settled; the log records the emission, but every public method requires `Valid()`, so such a re-entrant call is outside the model.
