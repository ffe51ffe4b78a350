# Kando's wlroots and Hyprland backends, modelled in Dafny

Kando is a cross-platform pie menu. On Linux with a wlroots-based Wayland compositor,
the backend moves the pointer with the virtual-pointer protocol and plays key sequences
with the virtual-keyboard protocol. The Hyprland backend builds on that generic backend.
It adds window and pointer queries through the `hyprctl` command-line tool. It also adds
shortcut registration through the native global-shortcuts module, while it reports
that it cannot bind shortcuts itself.

The project has four modules:

- `BackendTypes` (`types.dfy`): the failure wrappers, `Shortcut`, `BackendInfo`, `WMInfo`,
  and the JSON values that `hyprctl -j` prints.
- `Environment` (`environment.dfy`): class `Host`, the world outside the backends. It
  holds the native modules, `setTimeout` and `child_process.exec`. Every call a backend
  makes goes into the host's `trace`, in order. These are `Wait(ms)`, `Key(code, down)`,
  `PointerMotion`, `Bind`, `Unbind`, `UnbindAll` and `Exec(command, outcome)`. The host
  chooses what each call returns: whether a native call throws, and how a process ends.
  The ghost history `replies` records every native outcome in call order, and each
  backend method ties the result it returns to the outcomes it adds there.
- `WLRoots` (`wlroots.dfy`): the generic backend. `KeyCodes` translates every key name
  before anything is played. `Playback` says which effects a translated sequence
  produces. `SimulateKeys` and its loop `Play` are proved to produce exactly that trace when
  every native key call returns. When one throws, they produce the playback of the events
  up to and including that call, and then stop.
  The lemmas count the key calls and the waits and place them.
- `Hyprland` (`hyprland.dfy`): `getBackendInfo`, the `hyprctl` command line, how a query
  promise settles, the JavaScript semantics of the merge in `getWMInfo` (`||`
  truthiness, reading a property of `null`), `Promise.all`, and the shortcut calls.

Both native modules (`wlroots/native` and `hyprland/native`) are one `Host` here. The
key-name table `LinuxKeyCodes` lives in a file that is not part of this model, so it is
a `map<string, int>` parameter. Console output is returned as a value instead of being
printed: `Init` returns its notice, and `MovePointer` returns the error line it would log.

## Model

| member | source | states |
|---|---|---|
| `WLRoots.KeyCodes` | src/main/backends/linux/wlroots/backend.ts:50-58 | succeeds exactly when every name is in the table, and then gives one code per event, `table[name]`, in order; otherwise it reports a name that is missing from the table and is the first such name in the sequence |
| `WLRoots.ExampleUnknownKey` | src/main/backends/linux/wlroots/backend.ts:50-55 | a one-event sequence with an unknown name is refused with that name |
| `WLRoots.SimulateKeys` | src/main/backends/linux/wlroots/backend.ts:47-71 | an unknown name fails with `UnknownKey` of the first unknown name and leaves the trace unchanged (no wait, no key call). Otherwise it adds one outcome per native key call made to the host's `replies`, the trace gains exactly the playback of the first that many events, and every call but the last returned. The call succeeds exactly when all names are known, every event was played and no call threw. Otherwise, if the names were known, it fails with `NativeFailure` of the message of the last call, which threw. The empty sequence succeeds with no effect |
| `WLRoots.Play` | src/main/backends/linux/wlroots/backend.ts:62-70 | the loop plays the events in index order. The host's `replies` gain exactly the outcomes of the native calls made, and the trace gains exactly the playback of those events. It stops right after the first call that throws, failing with that call's message. It succeeds exactly when every event was played and every call returned |
| `WLRoots.PlayEvent` | src/main/backends/linux/wlroots/backend.ts:63-69 | one iteration appends exactly `Step(key, code)`: `Wait(delay)` when the delay is positive, then one native key call, whose outcome is the result and is added to `replies` |
| `WLRoots.PlaybackKeyCalls` | src/main/backends/linux/wlroots/backend.ts:62-70 | the playback holds exactly one key call per event, and the i-th key call is `Key(codes[i], keys[i].down)` |
| `WLRoots.PlaybackWaits` | src/main/backends/linux/wlroots/backend.ts:62-67 | the number of waits equals the number of events with a positive delay, and the waited durations add up to the sum of those delays |
| `WLRoots.PlaybackAt` | src/main/backends/linux/wlroots/backend.ts:62-70 | the part that event i adds between the playback of the events before it and the events after it is `Wait(delay)` exactly when its delay is positive, then `Key(code, down)`; a zero or negative delay adds no wait |
| `WLRoots.PlaybackAppend` | src/main/backends/linux/wlroots/backend.ts:62-70 | playing two sequences one after the other is the same as playing them joined: events are neither reordered nor merged |
| `WLRoots.ExamplePlayback` | src/main/backends/linux/wlroots/backend.ts:47-71 | with the table {"a": 30, "Enter": 28}, the four-event sequence translates to [30, 30, 28, 28] and plays as Key(30, down), Wait(50), Key(30, up), Key(28, down), Wait(10), Key(28, up) |
| `WLRoots.MovePointer` | src/main/backends/linux/wlroots/backend.ts:32-38 | exactly one native `movePointer(dx, dy)` call, whose outcome is added to `replies`; there is no error result, and a native failure only produces the log line "Failed to move mouse pointer: " plus the message |
| `WLRoots.RestoreFocus` | src/main/backends/linux/wlroots/backend.ts:77 | the trace is unchanged, and the method changes no state |
| `Hyprland.Init` | src/main/backends/linux/hyprland/backend.ts:26-35 | cannot fail, makes no host call, and its only output is the informational notice |
| `Hyprland.GetBackendInfo` | src/main/backends/linux/hyprland/backend.ts:41-47 | window type `splash`, shortcuts not supported, hint "Use your hyprland.conf to bind this."; it reads no state, so no earlier shortcut call can change it |
| `Hyprland.HyprctlCommand` | src/main/backends/linux/hyprland/backend.ts:105 | the command line is the prefix `hyprctl -j ` followed by the subcommand, unchanged |
| `Hyprland.Hyprctl` | src/main/backends/linux/hyprland/backend.ts:103-114 | exactly one process launch with that command line and no native call, and the result is how that launch settles (`Settle`) |
| `Hyprland.SettleAsWritten` | src/main/backends/linux/hyprland/backend.ts:103-114 | as written, the promise never settles exactly when the output is not JSON, and it rejects exactly when the process failed |
| `Hyprland.Settle` | src/main/backends/linux/hyprland/backend.ts:104-112 | corrected: it fulfils exactly when the process succeeded and its output parsed, and then with the parsed value; a process failure rejects with its message and output that is not JSON rejects with `MalformedOutput` |
| `Hyprland.MalformedOutputNeverSettles` | src/main/backends/linux/hyprland/backend.ts:111 | on output that is not JSON the written promise stays pending where the corrected one rejects; on every other outcome the two agree |
| `Hyprland.Merge` | src/main/backends/linux/hyprland/backend.ts:64-69 | succeeds exactly when neither reply is `null`; otherwise it fails with the TypeError of the first property read (`initialTitle`, else `x`). `windowName` is `initialTitle` when that is truthy and `''` otherwise, and `appName` is the same with `initialClass`, so neither is ever undefined, null or another falsy value; `pointerX` and `pointerY` are exactly `cursorpos.x` and `cursorpos.y`, with no default |
| `Hyprland.MergeStringFields` | src/main/backends/linux/hyprland/backend.ts:65-66 | a string `initialTitle` becomes the window name unchanged, including the empty string, and a missing one becomes `''`; the same holds for `initialClass` and the application name |
| `Hyprland.Join` | src/main/backends/linux/hyprland/backend.ts:59-62 | `Promise.all` of two settled queries fulfils exactly when both fulfil, with both values; otherwise it rejects with an error of a failed query, and with the single one when only one failed |
| `Hyprland.WMInfoOf` | src/main/backends/linux/hyprland/backend.ts:57-70 | succeeds exactly when both queries succeed with non-null replies. When both queries succeed, the result is their `Merge`, a failure included. A failure of one query fails the whole call with that query's error, so no partial record is returned. When both fail, the error is that of the query that settled first |
| `Hyprland.WMInfoOrderIrrelevant` | src/main/backends/linux/hyprland/backend.ts:59-69 | whether `getWMInfo` succeeds, what it returns, and any single failure do not depend on which query settles first; only when both fail does the order choose the reported error |
| `Hyprland.JoinAsWritten` | src/main/backends/linux/hyprland/backend.ts:59-62 | `Promise.all` over two promises that may stay pending: it fulfils exactly when both fulfil, with both values, and it stays pending exactly when one is pending and neither rejects. Otherwise it rejects with an error of a rejected promise |
| `Hyprland.JoinAgrees` | src/main/backends/linux/hyprland/backend.ts:59-62 | on two promises that both settle, `JoinAsWritten` settles as `Join` says |
| `Hyprland.WMInfoAsWritten` | src/main/backends/linux/hyprland/backend.ts:57-114 | as written, `getWMInfo` stays pending exactly when one reply is not JSON and neither process failed |
| `Hyprland.WMInfoAsWrittenAgrees` | src/main/backends/linux/hyprland/backend.ts:57-70 | when both replies are JSON or a process failure, the written `getWMInfo` settles as the corrected `WMInfoOf` |
| `Hyprland.GetWMInfoHangs` | src/main/backends/linux/hyprland/backend.ts:111 | a window reply that is not JSON with a valid pointer reply: the written `getWMInfo` never settles, where the corrected one fails with `MalformedOutput` |
| `Hyprland.ExampleWMInfo` | src/main/backends/linux/hyprland/backend.ts:57-70 | the replies {"initialTitle": "Terminal", "initialClass": "kitty"} and {"x": 120, "y": 340} give windowName "Terminal", appName "kitty", pointerX 120 and pointerY 340 |
| `Hyprland.GetWMInfo` | src/main/backends/linux/hyprland/backend.ts:57-70 | launches `hyprctl -j activewindow` and then `hyprctl -j cursorpos`, nothing else and no native call, and returns `WMInfoOf` of how the two settled, in one settling order or the other |
| `Hyprland.BindShortcut` | src/main/backends/linux/hyprland/backend.ts:78-80 | appends exactly one native `Bind` of the same shortcut and its outcome to `replies`; the call fails exactly when that native call threw, with its message |
| `Hyprland.UnbindShortcut` | src/main/backends/linux/hyprland/backend.ts:87-89 | appends exactly one native `Unbind` of the same shortcut and its outcome to `replies`; the call fails exactly when that native call threw, with its message |
| `Hyprland.UnbindAllShortcuts` | src/main/backends/linux/hyprland/backend.ts:92-94 | appends exactly one native `UnbindAll` and its outcome to `replies`; the call fails exactly when that native call threw, with its message |

## Findings

| source | as written | input that shows it | evidently intended | confidence | as-written member | corrected member |
|---|---|---|---|---|---|---|
| src/main/backends/linux/hyprland/backend.ts:111 | `JSON.parse(stdout)` runs inside the `exec` callback, not inside the promise executor. Its exception escapes as an uncaught exception, and the promise returned by `hyprctl` never settles, so `getWMInfo` never completes unless the other query rejects | `hyprctl` exits with status 0 but prints text that is not JSON | a parse failure rejects the promise, so that `getWMInfo` fails with an error the caller sees | high, not executed | `Hyprland.SettleAsWritten` (with `Hyprland.MalformedOutputNeverSettles`), `Hyprland.WMInfoAsWritten` (with `Hyprland.GetWMInfoHangs`) | `Hyprland.Settle`, `Hyprland.WMInfoOf` |

`Hyprctl`, `WMInfoOf` and `GetWMInfo` use the corrected `Settle`.

## Left out

- The behaviour of the native modules on the host (Wayland virtual-pointer, virtual-keyboard and hyprland-global-shortcuts protocols): each call is an opaque trace event. Whether it throws, and with which message, is the host's choice, recorded in `replies`.
- `child_process.exec` and `JSON.parse`: a launch is an `Exec` trace event, and its outcome (a failure message, or output with its parse) is an abstract value the host chooses.
- Real time and async scheduling: a delay is a `Wait(ms)` event carrying the argument given to `setTimeout`. Node's clamping of delays above 2147483647 ms to 1 ms is not modelled.
- The concurrency of `Promise.all`: only which query settles first is modelled, and only where it matters, which is the error reported when both fail.
- `console.log` and `console.error` output: `Init` returns its notice, and `MovePointer` returns its error line.
- The contents of `LinuxKeyCodes`: the table is a parameter.
- The shortcut's activation callback: `Shortcut` carries only the id and description, because the backend only passes the shortcut on.
- JSON numbers are integers: floating-point values and `NaN` are not modelled, so `JNum(0)` is the only falsy number.
- `Property` models a JavaScript property read only for the keys the backend uses (`initialTitle`, `initialClass`, `x`, `y`). None of them is a built-in property or an array index of a string or an array.
- The abstract `getWindowType` declaration (src/main/backends/linux/wlroots/backend.ts:82): it has no body, and the Hyprland backend does not define it.
- src/main/backends/macos/native/index.ts: it belongs to the macOS backend. The two modelled backends do not use it; they import their own `./native` modules (src/main/backends/linux/wlroots/backend.ts:11, src/main/backends/linux/hyprland/backend.ts:13).
- The TypeScript types of the records are not checked at run time, so `WMInfo` holds the JavaScript values themselves: the name fields are `Json` and the pointer fields may be `undefined`.
- WLRoots.SimulateKeys: key delays and pointer deltas are JavaScript numbers, modelled as `int`. A fractional delay such as 0.5 is positive and waits (Node rounds it up to 1 ms), and a `NaN` delay does not wait; neither case is modelled. The same holds for `WLRoots.MovePointer` with fractional or `NaN` deltas.
