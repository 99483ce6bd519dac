# Playback-queue coordinator of the native audio bridge

This project models, in Dafny, the playback-queue coordinator of the 3ook.com
app's native audio bridge (`services/audio-bridge.native.ts`). The coordinator
owns the queue of tracks of the book being listened to, the cursor into it
(`currentIndex`, -1 for no active track), the playback rate, the timestamp of the
last accepted "finished" signal, the single media engine (`player`) and the one
host callback (`notifyWebView`) through which it pushes `playbackState`,
`trackChanged` and `queueEnded` notifications to the web page.

The model has two layers:

- **Pure transitions** (module `Coordinator`): a `State` value holding those
  variables plus two logs — every command issued to the media engine or the audio
  session, in order, and every notification delivered to a callback, in order.
  Each handler (`doLoad`, `handleStop`, `handleSkipTo`, `handleSetRate`, the
  status listener, …) is a function from the state before to the state after, and
  its contract says exactly what the handler does to the queue, the cursor, the
  engine and the host. The pure parts of the source are functions of their own:
  the Cookie header (`Cookies`), the queue a load builds (`Queue`), and the
  status-to-state mapping (`Engine`).
- **The running object** (module `Bridge`): class `AudioBridge`, whose fields are
  the module-level variables of the source and whose methods reassign them step by
  step as the handlers do. Every method ensures that the new state is the one the
  matching transition gives, and that the invariant is kept (by `DoLoad` when
  its start index is in range).

Module `Session` strings the handlers together as a stream of actions and proves
what spans several of them: the invariant (one engine, created once; the cursor
is -1 or a valid index), debouncing across two finish signals, the silence after
unregistering, the rate carried to later tracks, and the end-to-end scenarios of
loading two tracks and letting them finish.

Inputs the source takes from the outside world are parameters: the cookie
store's answer (`CookieLookup`: failed, or its entries in order) is passed to
the load, and the wall-clock time of a status update (`Date.now()`) is passed to
the status listener. The media engine and the audio session are represented
only by the commands the coordinator issues to them.

## Model

| member | source | states |
|---|---|---|
| `Cookies.CookieHeader` | services/audio-bridge.native.ts:90-92 | The header joins `name=value` pairs with `"; "`; it is empty exactly when the store returned no cookies. |
| `Cookies.CookieHeaderRoundTrip` | services/audio-bridge.native.ts:90-92 | For a non-empty list of well-formed cookies, parsing the header gives back the same cookies in the same order. |
| `Cookies.SplitJoin` | services/audio-bridge.native.ts:92 | Splitting at `"; "` undoes `join('; ')` when no part holds a `;`. |
| `Queue.HeadersFor` | services/audio-bridge.native.ts:85-97 | Headers are undefined exactly when there is no first track, its URL is empty, the lookup failed, or it returned no cookies; otherwise they hold the non-empty cookie header. |
| `Queue.HeadersRoundTrip` | services/audio-bridge.native.ts:85-97 | Attached headers read back as exactly the cookies the store returned. |
| `Queue.BuildQueue` | services/audio-bridge.native.ts:99-105 | One entry per requested track, in order: the track's URL, the shared headers, the track's title when non-empty else the book title, the book's author and cover. |
| `Engine.MapStatus` | services/audio-bridge.native.ts:159-168 | Priority chain: not loaded is `loading`; else buffering is `buffering`; else playing is `playing`; else `paused` (each as an if-and-only-if). |
| `Coordinator.Init` | services/audio-bridge.native.ts:35-41 | The initial state: no engine, setup not done, empty queue, cursor -1, rate 1, debounce timestamp 0, no callback, empty logs; it satisfies the invariant. |
| `Coordinator.Sends` | services/audio-bridge.native.ts:137-141 | `notifyWebView?.(e)`: one delivery of `e` to the registered callback, none when there is none. |
| `Coordinator.Notify` | services/audio-bridge.native.ts:169 | Only the delivery log changes: it gains `e` for the registered callback, or nothing without one. |
| `Coordinator.PlayCommands` | services/audio-bridge.native.ts:50-59 | Four commands: replace with the track's URI and headers, set the given rate, lock screen on with the track's title, artist and artwork, play; none creates an engine. |
| `Coordinator.PlayTrack` | services/audio-bridge.native.ts:50-59 | Only the command log changes, by the track's four commands at the stored rate. |
| `Coordinator.GetOrCreatePlayer` | services/audio-bridge.native.ts:43-48 | The engine exists afterwards; once it exists, calling again changes nothing (no second engine). |
| `Coordinator.SetupPlayer` | services/audio-bridge.native.ts:61-74 | The first call configures the audio session (silent mode, background, doNotMix) and creates the engine; later calls change nothing. |
| `Coordinator.DoLoad` | services/audio-bridge.native.ts:81-112 | The queue is the one built from the message; cursor = start index, rate = message rate, debounce timestamp = 0; no notification; the start track is played at the message's rate, and an out-of-range start index issues no engine command. |
| `Coordinator.HandlePause` | services/audio-bridge.native.ts:114-116 | One pause command when the engine exists; nothing else changes. |
| `Coordinator.HandleResume` | services/audio-bridge.native.ts:118-120 | One play command when the engine exists; nothing else changes. |
| `Coordinator.HandleStop` | services/audio-bridge.native.ts:122-130 | With an engine, from any state: queue empty, cursor -1, pause / lock-screen off / detach issued, nothing notified; without one, nothing changes. |
| `Coordinator.HandleSkipTo` | services/audio-bridge.native.ts:132-142 | No engine or index outside the queue: no change at all. Otherwise cursor = index, replace / rate / lock screen / play for that entry in that order, and one `trackChanged{index, lastIndex}` with the previous cursor. |
| `Coordinator.HandleSetRate` | services/audio-bridge.native.ts:144-147 | The rate is stored, and applied at once when the engine exists; nothing else changes. |
| `Coordinator.HandleSeekTo` | services/audio-bridge.native.ts:149-151 | The position is passed to the engine when it exists; nothing else changes. |
| `Coordinator.RegisterEventListeners` | services/audio-bridge.native.ts:153-157 | The callback replaces any earlier one, the engine exists, and a status listener is attached. |
| `Coordinator.UnregisterEventListeners` | services/audio-bridge.native.ts:196-199 | The listener is removed and the callback cleared; nothing else changes. |
| `Coordinator.OnStatusUpdate` | services/audio-bridge.native.ts:157-194 | One `playbackState` first, always; a debounced or non-finish update does nothing more; an accepted finish records its time and either advances by one, plays that entry and reports `trackChanged{old+1, old}`, or issues no command and reports `queueEnded{track: cursor, position}`. |
| `Session.StepPreservesValid` | services/audio-bridge.native.ts:43-199 | Every handler keeps the invariant (at most one engine, created once; cursor -1 or a valid index), provided loads start in range. |
| `Session.RunPreservesValid` | services/audio-bridge.native.ts:43-199 | The invariant holds after any sequence of handler calls whose loads start in range. |
| `Session.LoadPositionsCursor` | services/audio-bridge.native.ts:107-111 | A load leaves the cursor valid exactly when its start index is in range or -1: the range is the caller's to respect. |
| `Session.QueueEndedNamesLastEntry` | services/audio-bridge.native.ts:177-192 | On a well-positioned queue, `queueEnded.track` is the last index (-1 only for an empty queue). |
| `Session.DuplicateFinishIgnored` | services/audio-bridge.native.ts:172-175 | A second finish within 500 ms of an accepted one changes nothing but its own `playbackState` report. |
| `Session.SpacedFinishesAccepted` | services/audio-bridge.native.ts:172-175 | Two finishes at least 500 ms apart are both accepted: each records its time and, with a callback registered on a well-positioned state, delivers its `playbackState` report and then a `trackChanged` or `queueEnded`. |
| `Session.SilencedStepSameEffect` | services/audio-bridge.native.ts:137-141 | With no callback, every handler but registration has the same effect as with one, except that nothing is delivered. |
| `Session.SilentAfterUnregister` | services/audio-bridge.native.ts:196-199 | After unregistering, no notification is delivered until a callback is registered again. |
| `Session.LoadRateOverridesEarlierRate` | services/audio-bridge.native.ts:107-111 | A rate set before a load is replaced by the load's rate, which the started track is played at. |
| `Session.SkipUsesLatestRate` | services/audio-bridge.native.ts:50-59 | A skip right after `setRate` plays its track at that rate. |
| `Session.RunKeepsRate` | services/audio-bridge.native.ts:108 | No handler but a load or `setRate` changes the stored rate, over any run of them. |
| `Session.LaterTracksPlayAtSetRate` | services/audio-bridge.native.ts:144-146 | After `setRate(r)` and any handlers short of a load or another `setRate`, the next track started by a skip or an auto-advance plays at `r`. |
| `Session.LaterLoadWins` | services/audio-bridge.native.ts:99-109 | Of two loads in a row, the later one alone decides queue, cursor, rate and debounce timestamp. |
| `Session.StopEmptiesQueue` | services/audio-bridge.native.ts:122-130 | Stop with an engine empties the queue, resets the cursor and keeps the invariant; a second stop leaves queue and cursor as they are. |
| `Session.TwoTrackScenario` | services/audio-bridge.native.ts:157-194 | Load "a","b" at 0; a finish plays "b" and reports `trackChanged{1,0}`; a later finish reports `queueEnded{1, position}` with no engine command. |
| `Session.SkipPastEndScenario` | services/audio-bridge.native.ts:132-133 | `skipTo(5)` on a two-track queue changes nothing. |
| `Bridge.AudioBridge.constructor` | services/audio-bridge.native.ts:35-41 | The fields start as the module-level variables do. |
| `Bridge.AudioBridge.GetOrCreatePlayer` | services/audio-bridge.native.ts:43-48 | The object's new state is `Coordinator.GetOrCreatePlayer` of the old; keeps the invariant. |
| `Bridge.AudioBridge.PlayTrack` | services/audio-bridge.native.ts:50-59 | Appends replace, the current rate, lock screen and play for the track, in that order; keeps the invariant. |
| `Bridge.AudioBridge.Notify` | services/audio-bridge.native.ts:169 | New state is `Coordinator.Notify` of the old: one delivery while a callback is registered; keeps the invariant. |
| `Bridge.AudioBridge.SetupPlayer` | services/audio-bridge.native.ts:63-74 | New state is `Coordinator.SetupPlayer` of the old; keeps the invariant. |
| `Bridge.AudioBridge.DoLoad` | services/audio-bridge.native.ts:81-112 | New state is `Coordinator.DoLoad` of the old; reports whether the start track could be played; keeps the invariant when it could. |
| `Bridge.AudioBridge.HandlePause` | services/audio-bridge.native.ts:114-116 | New state is `Coordinator.HandlePause` of the old; keeps the invariant. |
| `Bridge.AudioBridge.HandleResume` | services/audio-bridge.native.ts:118-120 | New state is `Coordinator.HandleResume` of the old; keeps the invariant. |
| `Bridge.AudioBridge.HandleStop` | services/audio-bridge.native.ts:122-130 | New state is `Coordinator.HandleStop` of the old; with an engine the queue is empty and the cursor -1; keeps the invariant. |
| `Bridge.AudioBridge.HandleSkipTo` | services/audio-bridge.native.ts:132-142 | New state is `Coordinator.HandleSkipTo` of the old; keeps the invariant. |
| `Bridge.AudioBridge.HandleSetRate` | services/audio-bridge.native.ts:144-147 | New state is `Coordinator.HandleSetRate` of the old; keeps the invariant. |
| `Bridge.AudioBridge.HandleSeekTo` | services/audio-bridge.native.ts:149-151 | New state is `Coordinator.HandleSeekTo` of the old; keeps the invariant. |
| `Bridge.AudioBridge.RegisterEventListeners` | services/audio-bridge.native.ts:153-157 | New state is `Coordinator.RegisterEventListeners` of the old; keeps the invariant. |
| `Bridge.AudioBridge.UnregisterEventListeners` | services/audio-bridge.native.ts:196-199 | New state is `Coordinator.UnregisterEventListeners` of the old; keeps the invariant. |
| `Bridge.AudioBridge.OnStatusUpdate` | services/audio-bridge.native.ts:157-194 | New state is `Coordinator.OnStatusUpdate` of the old; keeps the invariant. |

## Left out

- Serialisation of loads (`handleLoad`, services/audio-bridge.native.ts:76-79): each load is one atomic step applied in arrival order. The promise chain, and the `.catch` that runs a failed load a second time, are not modelled. A retried load assigns the same state again, but it may see a different cookie-store answer.
- Races between handlers and an in-flight load: the steps are atomic, so a skip or stop arriving while a load awaits the cookie store cannot interleave with it.
- `setupPlayer`'s promise memoisation and a failing `setAudioModeAsync`: setup is one step that marks setup done, issues the session configuration and creates the engine. The case where configuration is rejected and the engine is never created is not modelled.
- The cookie store and the media engine are foreign libraries. The store's answer is an input to the load (its entries in `Object.entries` order, using only each cookie's `value`). The engine is represented only by the log of commands sent to it. Its own failures (bad URL, network, decoding) and the promise `seekTo` returns are not modelled.
- The player object's identity is a flag (`player`). "One engine per process" is stated through the command log: exactly one creation command once the flag is set.
- Host callbacks are identified by a number. What a callback does with a notification (`injectJavaScript` in app/index.tsx) is not part of this model. Neither is the message parsing and `type` dispatch there.
- Several listeners at once: each registration attaches one more engine listener, and the engine calls every attached one on each update. The model gives one call of the listener (`OnStatusUpdate`). Which listeners the engine calls, and how often, is left to the engine.
- `Coordinator.HandleSkipTo`: the index is an integer. The source receives a JavaScript number, and its range check alone would also admit a fractional one, which the model does not represent.
- `Coordinator.DoLoad`: the start index is an integer. A fractional JavaScript number would be stored as the cursor just the same, and is not represented.
- Status updates with no listener attached: the action stream of `Session` lets a status update arrive before any registration or after the last `sub.remove()`, and `OnStatusUpdate` then still runs (it can advance the cursor and log play commands). In the source the engine calls no listener at that point, so such runs have no counterpart there.
- Rates and positions are reals passed through unchanged. Times are integer milliseconds.
- services/audio-bridge.web.ts (no-op stubs) and services/audio-bridge.d.ts (declarations) are not part of this model.
