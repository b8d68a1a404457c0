# Presence agent: session orchestrator and presence engine

A Dafny model of the two sequential cores of the presence agent's HTTP server
(`agent/internal/api/server.go`) and of its presence engine
(`agent/internal/behavior/engine.go`).

**Session orchestrator.** The server keeps one global status record (`state` is
idle, active or paused; `mode`; `userPresent`; `policyLocked`; `nextAction`;
`startedAt`), an append-only log of `{timestamp, action, meta}` entries and an
optional cancellation function for the running engine. Each handler's work
under the mutex is one atomic transition. The transitions are written twice.
`Orchestrator` states them as pure functions on a `Session` value, with their
guards, error replies and effects. `Api.Server` is a class with the same
fields, and each handler method changes them the way the Go handler does. Each
method is proved to make the transition `Orchestrator` defines. The
cancellation function appears only as `hasCancel`, that is, whether one is
stored. The ghost count `running` tracks the engine tasks that were launched
and never asked to stop. `Gateway` models the `cors(auth(handler))` wrapping:
the bearer-token test, the `Access-Control-Allow-Origin` choice over the
comma-separated allow-list, the preflight short-cut and the route dispatch.
`Strings` supplies Go's `TrimSpace`, `Split` and `EqualFold`.

**Presence engine.** `Engine.Tick` is one timer tick. It takes the engine-local
state (`lastX`, `lastY`, `havePos`, `pausedUntil`, where 0 means not set), the
platform's answers for the tick (`None` when there is no platform, as in cloud
mode), the clock in milliseconds and the two `rand.Intn(201)` draws. It returns
the new state, the events emitted and the platform calls made. The platform's
shape is the `Platform` interface of `agent/internal/system/platform.go`: a
`Call` is `CursorPos`, `SimulateMove`, `SimulateKey` or `PreventSleep`. `Run`
is a loop over the ticks. Without a platform it emits `engine_start`, the tick
events and then `engine_stop`. With a platform it first enables sleep
prevention (and reports a failure as `prevent_sleep_error`), and on the way out
it makes the deferred `PreventSleep(false)` call. Cancellation is modelled as
"the run ends after its last tick".

The model follows the code where it departs from the intended behaviour. The
intended invariant is that a state other than active means no engine runs. The
code breaks this: a policy lock pauses an active session but leaves its engine
and its handle in place. A start is also meant never to lead to two concurrent
engines; see Findings. Under the invariant a locked session is never active, so
the intended rule "a locked policy always refuses a start" agrees with the
code, even though the code checks for an active session first.

## Model

| member | source | states |
|---|---|---|
| Orchestrator.LogAction | agent/internal/api/server.go:311-320 | exactly one entry is appended at the tail with the given time and action; earlier entries are unchanged; a nil meta becomes the empty map; nothing else changes |
| Orchestrator.StartSession | agent/internal/api/server.go:128-170 | a non-POST request gets 405 and an undecodable payload gets 400, and neither changes anything; an active session gets AlreadyActive (the active check comes before the lock check); otherwise a locked policy gets PolicyLocked; every failure leaves state, log and handle unchanged; success sets state active, the mode, `startedAt = now` and "simulate in 5s", keeps `policyLocked` and `userPresent`, stores a handle, launches one engine and appends exactly one `session_start` entry with meta {mode}; the invariant is preserved |
| Orchestrator.StopSession | agent/internal/api/server.go:172-191 | a POST always succeeds: state becomes idle, `nextAction` becomes "", the handle is cleared and the stored engine (if any) is asked to stop; mode, `startedAt` and `policyLocked` are kept; one `session_stop` entry is always appended; the invariant is preserved |
| Orchestrator.SetPolicyLock | agent/internal/api/server.go:193-219 | rejects a non-POST request or bad payload without any change; otherwise sets `policyLocked`, forces state paused only when locking, never touches the handle or a running engine, and appends `policy_locked` or `policy_unlocked` to match; the invariant is preserved |
| Orchestrator.StopIdempotent | agent/internal/api/server.go:178-188 | a second stop leaves status, handle and engines as the first one left them; the only change is one more `session_stop` entry |
| Orchestrator.InvAlways | agent/internal/api/server.go:146-216 | after any sequence of start, stop and lock requests, active implies a stored handle, a locked policy implies not active, and a stored handle implies a launched engine |
| Orchestrator.OrphanedEngineAfterRelock | agent/internal/api/server.go:157-213 | as written: after start, lock, unlock, start there are two engines; after a stop the session is idle with no handle stored, yet one engine still runs |
| Orchestrator.StartSessionCancellingStale | agent/internal/api/server.go:157-158 | the corrected start gives the same reply, status, log and handle as the start as written, and cancels a stale handle, so "one engine exactly when a handle is stored" is preserved |
| Orchestrator.CorrectedAtMostOneEngine | agent/internal/api/server.go:157-187 | with the corrected start, any request sequence keeps at most one engine running, and only while its handle is stored |
| Gateway.OriginListed | agent/internal/api/server.go:286-291 | the loop over the allow-list succeeds exactly when some trimmed entry equals the origin, ignoring case |
| Gateway.AllowedOrigin | agent/internal/api/server.go:281-296 | with a non-blank allow-list, the origin is echoed exactly when it is listed, and otherwise no header is set; with no list, a present origin is echoed and an absent one gets "*" |
| Gateway.Handle | agent/internal/api/server.go:86-90 | status and logs return the current record and log on any method and change nothing; start, stop and policy requests get exactly the outcome of `Orchestrator.StartSession`, `Orchestrator.StopSession` and `Orchestrator.SetPolicyLock`; the invariant is preserved |
| Gateway.Serve | agent/internal/api/server.go:261-309 | the origin header is chosen on every path; OPTIONS gets 204 and an unauthorized request gets 401, and in both cases the handler is not called and nothing changes; an authorized request gets exactly its handler's outcome |
| Gateway.Authorized | agent/internal/api/server.go:263-272 | with no token configured every request passes; with a token, a request passes exactly when its header is the seven characters "Bearer " followed by the token and nothing else |
| Gateway.TokenNeedsBearerHeader | agent/internal/api/server.go:263-272 | with a token configured, a request is let in exactly when its header is "Bearer " followed by the token |
| Gateway.BlankTokenIsOpen | agent/internal/api/server.go:75 | a token made only of white space is trimmed to "", so every request is let in |
| Strings.TrimSpace | agent/internal/api/server.go:285-287 | the result is the slice of the input between its leading and its trailing white space, and it neither starts nor ends with white space |
| Strings.TrimSpaceEmpty | agent/internal/api/server.go:285 | trimming leaves nothing exactly when the input is all white space, so a blank allow-list counts as no list |
| Strings.TrimSpaceIdempotent | agent/internal/api/server.go:287 | trimming a trimmed string changes nothing |
| Strings.Split | agent/internal/api/server.go:286 | the allow-list is cut at every comma into at least one piece, and no piece contains a comma |
| Strings.JoinSplit | agent/internal/api/server.go:286 | joining the allow-list's pieces with commas gives back the list |
| Strings.SplitJoin | agent/internal/api/server.go:286 | splitting a comma-join of comma-free pieces gives back those pieces |
| Strings.EqualFold | agent/internal/api/server.go:287 | two strings are equal up to case exactly when lower-casing both gives the same string; equal strings always match |
| Orchestrator.StateNamesDistinct | agent/internal/api/server.go:29 | the `state` strings "idle", "active" and "paused" are distinct, so the reported string determines the state |
| Api.Server.constructor | agent/internal/api/server.go:73-82 | stores the trimmed token; state idle with zero values, empty log, no handle, no engine |
| Api.Server.Snapshot | agent/internal/api/server.go:322-326 | returns the current status record |
| Api.Server.HandleStatus | agent/internal/api/server.go:122-126 | replies 200 with the current status record |
| Api.Server.HandleLogs | agent/internal/api/server.go:221-230 | replies 200 with the whole log in append order |
| Api.Server.LogAction | agent/internal/api/server.go:311-320 | the fields change as `Orchestrator.LogAction` says |
| Api.Server.HandleStartSession | agent/internal/api/server.go:128-170 | the fields and reply are those of `Orchestrator.StartSession`; the invariant is kept |
| Api.Server.HandleStopSession | agent/internal/api/server.go:172-191 | the fields and reply are those of `Orchestrator.StopSession`; the invariant is kept |
| Api.Server.HandlePolicyLock | agent/internal/api/server.go:193-219 | the fields and reply are those of `Orchestrator.SetPolicyLock`; the invariant is kept |
| Api.Server.Serve | agent/internal/api/server.go:279-309 | the fields and response are those of `Gateway.Serve`; the invariant is kept |
| Engine.Dist | agent/internal/behavior/engine.go:82-90 | the distance is abs(dx) + abs(dy); it is non-negative and zero exactly when both components are zero |
| Engine.DistSignSymmetric | agent/internal/behavior/engine.go:82-90 | flipping the sign of either component leaves the distance unchanged |
| Engine.Displacement | agent/internal/behavior/engine.go:62-66 | both components lie in [-100, 100] and the pair is never (0, 0); a draw pair other than (100, 100) gives its offsets, and exactly (0, 0) becomes (20, 0) |
| Engine.DisplacementOnto | agent/internal/behavior/engine.go:62-66 | every allowed displacement comes from exactly the draws it offsets; (20, 0) also comes from (100, 100) |
| Engine.Observe | agent/internal/behavior/engine.go:46-56 | a pause fires only when a read succeeds, an earlier position exists and the distance exceeds 80; it sets the deadline to now + 15000 and emits `user_active_pause` with that deadline; a successful read always stores the position and sets `havePos`; a failed read, or no platform, changes nothing and emits nothing; the first read never pauses |
| Engine.Tick | agent/internal/behavior/engine.go:45-77 | a suppressed tick stops after the read; otherwise it emits an optional `move_error` followed by exactly one `micro_move` with the mode and the displacement, with or without a platform; it calls `SimulateMove` with that displacement, and re-reads the cursor only after a successful move; a successful re-read refreshes the position and a failed one keeps it; the deadline either stays or becomes now + 15000 |
| Engine.TickSuppression | agent/internal/behavior/engine.go:49-60 | a tick that starts inside the window, or that opens one, emits no micro move; the pause event's deadline is the one the tick stores |
| Engine.TickBounded | agent/internal/behavior/engine.go:62-77 | a tick's micro moves and `SimulateMove` calls stay within [-100, 100]² and are never (0, 0); a tick only reads the cursor and moves it; without a platform it makes no call |
| Engine.DeadlineKept | agent/internal/behavior/engine.go:49-50 | when later ticks do not fire earlier than the deadline allows, a stored deadline of at least u stays at least u |
| Engine.PauseSuppressesMoves | agent/internal/behavior/engine.go:49-60 | when tick times do not decrease, after a tick emits `user_active_pause` with deadline u, no tick before u, that tick included, emits a `micro_move` |
| Engine.TicksMovesBounded | agent/internal/behavior/engine.go:62-77 | every micro move of a tick sequence is non-zero and within [-100, 100]² |
| Engine.TicksCalls | agent/internal/behavior/engine.go:46-76 | during the ticks the platform is only asked for the cursor and for bounded non-zero moves, never for keys or for sleep prevention; without a platform it is never called |
| Engine.HeadlessTicks | agent/internal/behavior/engine.go:67-77 | without a platform every tick emits exactly its own `micro_move`, in tick order; the state stays as it was and no call is made |
| Engine.RunSpec | agent/internal/behavior/engine.go:30-43 | the event order of a run: an optional `prevent_sleep_error` (only with a platform), then `engine_start` with the mode, then the tick events, then `engine_stop` with reason "context_cancel"; with a platform the calls start with `PreventSleep(true)` and end with `PreventSleep(false)` |
| Engine.RunMovesBounded | agent/internal/behavior/engine.go:62-77 | every `micro_move` of a whole run is non-zero and within [-100, 100]² |
| Engine.RunCalls | agent/internal/behavior/engine.go:30-35 | with a platform, sleep prevention is enabled first and disabled last and never toggled in between; without a platform no call is made |
| Engine.RunActionNames | agent/internal/behavior/engine.go:30-43 | a run logs `engine_start` right after the optional `prevent_sleep_error` and logs `engine_stop` last |
| Engine.Loop | agent/internal/behavior/engine.go:39-79 | the loop's events and calls are those of the ticks, applied one after another from the fresh state |
| Engine.Run | agent/internal/behavior/engine.go:22-80 | the events and calls are exactly those of `RunSpec` |

## Findings

| source | as written | input that shows it | evidently intended | confidence | as-written member | corrected member |
|---|---|---|---|---|---|---|
| agent/internal/api/server.go:157-158 | a start overwrites `sessionCancel` without calling the function already stored there; a policy lock pauses an active session but keeps that function, so after an unlock a second start succeeds | POST start, lock `true`, lock `false`, start, stop | at most one engine runs, and only while its handle is stored; a start cancels any stale handle before storing a new one | high (not executed) | Orchestrator.OrphanedEngineAfterRelock | Orchestrator.StartSessionCancellingStale (property: Orchestrator.CorrectedAtMostOneEngine) |

`Api.Server.HandleStartSession` and `Gateway.Serve` keep the start as written,
so that the class matches the handler. `Orchestrator.Apply` with `corrected`
set runs the corrected start. The first engine of the input above is never
cancelled: it never makes its own deferred `PreventSleep(false)` call, and its
events keep reaching the log.

## Left out

- HTTP plumbing: `writeJSON`, JSON encoding, `writeEvent` SSE framing, `ListenAndServe`, TLS, `Shutdown`, the mux set-up and `/health`. Each request arrives already decoded. Its body's decoding result comes as an `Option` for the start payload and for the lock payload. The reply is a `Reply` value with its HTTP code.
- `handleStream`: it is driven by a ticker and by the connection's lifetime. It sends one `Snapshot` before its loop and one more every 2 s. Only that read (`Api.Server.Snapshot`) is modelled.
- Concurrency: the goroutine launch, `sync.Mutex` and `context` cancellation are not modelled. A handler's mutex section together with its `logAction` call is one atomic method, and interleavings are not modelled. An engine task appears only as the ghost count `running`.
- The engine events do not go into the server's log. The model keeps the engine's events as their own typed sequence, each with its action name, instead of passing them through the `emit` callback (`logAction`). `intToStr` and the RFC3339 formatting of the pause deadline are not modelled, so `dx`, `dy` and the deadline stay integers.
- Order between events and platform calls: a tick or a run returns its events and its calls as two separate sequences, so the model does not say how they interleave. For example, `engine_stop` is emitted before the deferred `PreventSleep(false)` call (engine.go:34, 42), and a `move_error` follows the `SimulateMove` that failed (engine.go:68-69). The order within each sequence is modelled.
- The clock: `time.Now` becomes a `now` parameter in milliseconds, with 0 standing for Go's zero time. When a request or a tick reads the clock more than once (`startedAt` and the log timestamp; the deadline and the suppression test), the model uses one instant.
- The 500 ms ticker: tick times are inputs. The suppression-window lemma assumes they do not decrease.
- `rand.Intn(201)`: its results are the inputs `r1`, `r2` of type `Draw` (0 to 200).
- The start payload's `randomness`, `idleThresholdSeconds` and `maxDurationMinutes`: the handler decodes them and never reads them.
- `SimulateKey`: part of the platform interface, but no core code calls it. `Engine.TicksCalls` proves the ticks never call it.
- `agent/internal/system/platform_windows.go` and `platform_stub.go` (Win32 calls, OS selection), `agent/cmd/apc-agent/main.go` (environment and signals) and `web/src/*` (the browser UI) are not part of this model. The `APC_ALLOWED_ORIGINS` value that `cors` reads on each request is the `allowList` parameter.
- Strings.EqualFold: folds ASCII letters only, not the full Unicode simple case folding of Go's `strings.EqualFold`.
- Engine.Dist: integers are unbounded, so a 64-bit overflow of `x-lastX` or of the negation is not modelled. Cursor coordinates are screen coordinates, far from that range.
