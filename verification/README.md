# cam command-line tool: decision logic

A Dafny model of the control logic of `cam`, libcamera's command-line camera
tool (`src/cam/main.cpp`). The model covers:

- the exit codes of option parsing;
- start-up (`init`);
- the run sequence: listing, camera session, information, capture start, hotplug monitoring and the event-loop decision;
- the liveness counter `loopUsers_` and the callbacks that act on it;
- teardown (`exec`/`cleanup`) and `main`'s exit-status mapping;
- the display name built from a camera's properties.

The camera manager, the camera session and the option parser are collaborators.
Their results are parameters: the parser's valid/empty bit and flags, the
manager's `start()` return code, the session's validity and its `start()`
return code. The event loop is modelled as `Liveness.Dispatch`. It takes a
sequence of events (capture done, camera added or removed, interrupt),
dispatches them to their callbacks in order, and stops at the first event
that requests exit.

Modules:

- `Wrappers`: the `Option` type.
- `Errno`: the Linux values of EINTR (4), ENODEV (19) and EINVAL (22), and EXIT_FAILURE (1).
- `CameraNaming`: the `cameraName` function and the Location property codes (Front 0, Back 1, External 2).
- `Liveness`: `loopUsers_` as a 32-bit unsigned counter with explicit wrap-around, the callbacks, and the loop.
- `CamApp`: `parseOptions`, `init`, `run`, `exec`, `main`.

`main` maps *any* `init` result equal to -EINTR to exit status 0. This
includes a camera-manager `start()` failure with that code, not only the
help request. `CamApp.Main` states this as the code does.

## Model

| member | source | states |
|---|---|---|
| `CameraNaming.CameraName` | src/cam/main.cpp:259-296 | Front/Back give exactly "Internal front/back camera (id)" whatever the model; otherwise a present model gives exactly "'model' (id)", overwriting "External camera "; External without a model gives "External camera (id)"; no location and no model gives "(id)"; every name ends with "(id)" |
| `CameraNaming.DecodeLocation` | src/cam/main.cpp:269-282 | only values with no case in the location switch are treated as unrecognised, and decoding loses nothing (encoding gives the raw value back) |
| `CameraNaming.NameDeterminesId` | src/cam/main.cpp:293 | for the same properties, equal names imply equal camera ids |
| `Liveness.Increment` | src/cam/main.cpp:235 | `loopUsers_++` adds one below the 32-bit maximum and wraps to 0 at it |
| `Liveness.Decrement` | src/cam/main.cpp:169 | `--loopUsers_` is the inverse of the increment and subtracts one from a non-zero counter |
| `Liveness.CaptureDone` | src/cam/main.cpp:167-171 | capture completion removes exactly one user and requests loop exit iff the counter was 1, so it reaches 0 |
| `Liveness.CameraAdded` | src/cam/main.cpp:157-160 | a camera-arrival notification changes neither the counter nor the exit request |
| `Liveness.CameraRemoved` | src/cam/main.cpp:162-165 | a camera-removal notification changes neither the counter nor the exit request |
| `Liveness.Quit` | src/cam/main.cpp:103-106 | quitting requests loop exit at any counter value and leaves the counter alone |
| `Liveness.Step` | src/cam/main.cpp:157-171 | only capture completion changes the counter; exit is requested by an interrupt, or by a completion that leaves the counter at zero, and never otherwise |
| `Liveness.Dispatch` | src/cam/main.cpp:249-250 | the loop's final state is the callbacks of the dispatched events applied in order to the entry state (`FoldN`); no exit request was pending before any dispatched event (`LiveFor`); it stops only on an exit request or when the events run out |
| `Liveness.LiveForNoEarlierExit` | src/cam/main.cpp:249-250 | if no exit was pending before any of the first n dispatches, then every intermediate state before the n-th dispatch is free of an exit request |
| `Liveness.HotplugKeepsCounter` | src/cam/main.cpp:157-165 | any number of hotplug notifications leave the loop state unchanged and never end the loop |
| `Liveness.DoneCountDecidesExit` | src/cam/main.cpp:167-171 | with n >= 1 users and no interrupt, the loop is asked to exit iff at least n completions arrive; it stops right after the n-th one with the counter at 0, and otherwise the counter is n minus the number of completions |
| `Liveness.InterruptEndsLoop` | src/cam/main.cpp:298-302 | an interrupt ends the loop as soon as it is dispatched, whatever the counter, and later events are not dispatched |
| `CamApp.ParseOptions` | src/cam/main.cpp:145-154 | -EINVAL iff the options are invalid or empty; -EINTR iff they are valid and non-empty with help set; 0 otherwise |
| `CamApp.Init` | src/cam/main.cpp:68-86 | a parse error is returned without starting the camera manager; otherwise the manager's start result is returned; init succeeds iff both succeed |
| `CamApp.RunFrom` | src/cam/main.cpp:173-257 | run as written, from any initial counter value: it returns 0 iff no error check fires; an error leaves the counter untouched and neither enters the loop nor stops the session; on success the counter is the initial value plus (capture) plus (monitor), modulo 2^32, and the loop is entered iff that is non-zero |
| `CamApp.Run` | src/cam/main.cpp:173-257 | error order: invalid session gives -EINVAL before info or capture; info/controls/properties without a camera gives -EINVAL ahead of capture; capture without a camera gives -ENODEV; a failed start returns its code unchanged with the counter at 0. Information is shown iff it was asked for with a valid session, and start is called iff capture was asked for with a valid session. On success the counter is (capture) + (monitor), the loop is entered iff that is non-zero, and stop is called iff capture was set |
| `CamApp.Exec` | src/cam/main.cpp:93-101 | exec returns run's result; the camera-manager stop (cleanup) is the last collaborator call and happens exactly once, after whichever of session start, loop and session stop run made, whatever run returned |
| `CamApp.Main` | src/cam/main.cpp:304-321 | exit status is 0 or EXIT_FAILURE; help exits 0 and invalid or empty options exit EXIT_FAILURE, neither calling any collaborator; a manager start failure exits after only that call, mapping -EINTR to 0; otherwise the manager start comes first and its stop last, and the status is 0 iff run got past every error check; the manager is stopped iff it started successfully, and after the loop and session stop |
| `CamApp.CaptureOnlyEndsAtDone` | src/cam/main.cpp:223-250 | a capture-only run's loop ends at the capture's completion with the counter back at 0 |
| `CamApp.MonitorOutlivesCapture` | src/cam/main.cpp:235-250 | with capture and monitoring, one completion leaves the counter at 1 and the loop running |
| `CamApp.MonitorOnlyWaitsForInterrupt` | src/cam/main.cpp:238-250 | with monitoring only, hotplug events keep the counter at 1 and never end the loop |
| `CamApp.IndeterminateCounterEntersLoop` | src/cam/main.cpp:52-61 | with a leftover counter value of 1, `--list` enters the loop and a capture-only loop survives its completion; starting from 0, neither happens |

## Findings

| source | as written | input that shows it | evidently intended | confidence | as-written member | corrected member |
|---|---|---|---|---|---|---|
| src/cam/main.cpp:52-61 | `loopUsers_` is a `std::atomic_uint` member that the constructor never initialises. Before C++20 its default constructor is trivial, and `CamApp app` in `main` has automatic storage, so the counter starts indeterminate | `cam --list` with a leftover counter value of 1 enters the event loop with no source that will ever decrement it. `cam --camera X --capture=N` with the same leftover keeps waiting after the capture completes | the counter starts at 0, which the "loop entered iff non-zero" decision relies on | medium (depends on the language standard used to build; not executed) | `CamApp.IndeterminateCounterEntersLoop` | `CamApp.Run` |

`CamApp.RunFrom` is the run sequence with the counter's starting value as a
parameter. `CamApp.Run` starts it from 0, and the rest of the model uses `Run`.

## Left out

- The signal handler body and `sigaction` installation (src/cam/main.cpp:298-302, 313-315): these run in the OS signal context. An interrupt is modelled as the `Interrupt` event, which calls `Quit`.
- `CamApp::instance` and the `app_` singleton (src/cam/main.cpp:56-66): they only exist so the signal handler can reach the application.
- The option registrations and parser grammar (src/cam/main.cpp:110-145): these are library calls. A parse result is given as a valid bit, an empty bit and the flags.
- All console output, including the `--list` loop over cameras (src/cam/main.cpp:178-186). Listing is recorded only as the `listed` flag.
- Internals of the camera manager, camera session and event loop: device enumeration, buffers, counting frames to a requested capture count, the loop's exit code, and the atomicity of the counter. Capture completions are inputs. Their source files are not part of this model.
- `Liveness.Dispatch`: it does not model an exit requested before the loop is entered. Whether `exec` would then return at once depends on the event loop, which is not part of this model.
