# Shell Racing Legends BLE control session, modelled in Dafny

This project models the command and telemetry core of the car controller in
`main.py`. The core is the code between the key handlers and the Bluetooth
Low Energy link:

- **Codec** (`codec.dfy`): the 8-byte control command
  `[mode & 0xFF, fwd, rev, left, right, lights, turbo, donut]`, the decoding of
  status notifications by length (1 byte is battery, 8 bytes are the echoed
  fields, any other length is lowercase hex), and the throttle/steering labels.
- **ControlState** (`control_state.dfy`): the mutable record that the
  controller and the key handlers share, as a class.
- **ControlRateLimiter** (`rate_limiter.dfy`): admits a payload when it differs
  from the last admitted one, or when 100 ms have passed since that admission.
  Only an admission records the payload and the time. Lemmas cover whole runs
  of offers.
- **UI queue** (`events.dfy`): the `asyncio.Queue` of `(kind, data)` events as a
  closed datatype. `_queue_ui` drops an event silently when the queue is full.
- **BleController** (`ble_controller.dfy`): connection start-up and teardown,
  subscription bookkeeping, notification dedup, `send_control` behind the
  limiter, the `_write_pending` drain, `request_battery` and an idempotent `stop`.
- **Key input** (`input.dfy`): the key-state slice of `PygameApp`.
  - Throttle and steering come from the held keys; when both keys of an axis
    are held, the last one pressed wins.
  - The toggle keys and the mode toggle 1 ↔ 2.
  - The gamepad-slot wrap `(id ± 1) % count`.
- **Scenarios** (`scenarios.dfy`): short runs on concrete objects. Each
  postcondition states what a caller observes, for example that stopping twice
  gives exactly one disconnect.

Modelling choices:

- Time is an integer number of milliseconds passed to each call, in place of
  `time.monotonic()`. The limiter interval is 100 ms.
- Each GATT call's outcome is a parameter:
  - `LinkResult`: `Done`, or `Failed(reason)`, which stands for the exception
    text.
  - `ReadResult`: `ReadOk(data)` or `ReadFailed(reason)`.
- The client is reduced to whether one is attached (`hasClient`). The requests
  sent to it are kept in order in `requests`, so "nothing is written" can be
  stated directly.
- The asyncio lock, event and tasks become plain sequential calls.
  - `run` is split into `Run`, which goes up to the wait on the stop event, and
    `FinishRun`, which runs once the event is set.
  - A handler that would `create_task` returns the scheduled coroutine as a
    `Task` value.

Behaviour of `main.py` the model keeps:

- The status dedup compares `payload.hex()` strings (main.py:338-339).
  `Codec.HexInjective` shows that this is the same as comparing the bytes.
- The battery value is `int(payload[0])`, any byte from 0 to 255
  (main.py:352, 366). No range check is made.
- The controller never posts the `shutdown` tuple. Only `PygameApp.run` posts
  it (main.py:525), for its own consumer, so `Events.Event` has no such case.
- `_write_pending` writes without consulting the rate limiter
  (main.py:389-407).
- `_last_status_hex` starts as `""` (main.py:280), so an empty first status
  notification, whose hex is `""`, is dropped (`Scenarios.EmptyFirstStatus`).
- `_read_battery` sets `state.battery_pct` but not `_last_battery`
  (main.py:360-368). A first notification equal to the value read is therefore
  announced again (`Scenarios.ReadThenSameNotification`).
- A disconnect that raises when the client context closes is reported as a
  connection error before `disconnected` (main.py:286, 294-303;
  `Ble.BleController.FinishRun`, `Scenarios.FailedDisconnect`).

## Model

| member | source | states |
|---|---|---|
| `Codec.BuildControlPayload` | main.py:191-203 | exactly 8 bytes; byte 0 is `mode & 0xFF` (and equals `mode` when it fits a byte); bytes 1-7 are 0 or 1; forward iff throttle > 0, reverse iff throttle < 0, left iff steering < 0, right iff steering > 0, and each toggle byte is its flag; forward/reverse and left/right are never both set |
| `Codec.PayloadIdentifiesControls` | main.py:191-203 | two states give byte-identical payloads iff they agree on mode mod 256, on the signs of throttle and steering, and on the three toggles |
| `Codec.Hex` | main.py:222 | `bytes.hex()`: two characters per byte, all lowercase hex digits |
| `Codec.UnhexHex` | main.py:222 | reading the hex back yields the original bytes |
| `Codec.HexInjective` | main.py:222 | hex strings are equal iff the byte strings are equal |
| `Codec.DecodeStatusPayload` | main.py:206-222 | `length` is always the input length; length 1 gives the battery byte, length 8 gives the eight fields in payload order, any other length gives the hex string |
| `Codec.DecodeInjective` | main.py:206-222 | different notifications never decode to the same record |
| `Codec.DecodeBuiltPayload` | main.py:191-222 | decoding a built command yields the 8-field record, with mode `mode & 0xFF` and each flag as encoded |
| `Codec.ThrottleLabel` | main.py:225-230 | "Forward" iff > 0, "Reverse" iff < 0, "Stopped" iff 0 |
| `Codec.SteeringLabel` | main.py:233-238 | "Left" iff < 0, "Right" iff > 0, "Straight" iff 0 |
| `ControlStateModel.ControlState.constructor` | main.py:176-188 | the dataclass defaults: mode 1, throttle and steering 0, toggles off, no battery, empty payload, status and hex |
| `RateLimit.ControlRateLimiter.constructor` | main.py:242-245 | no payload recorded, time 0, the given interval |
| `RateLimit.ControlRateLimiter.ShouldSend` | main.py:247-254 | true iff the payload differs from the recorded one (always on the first call) or `now - lastTime >= minInterval`; on true it records the payload and `now`, on false the state is unchanged |
| `RateLimit.Admitted` | main.py:247-254 | a run admits at most as many offers as it was given, each of them one of the offers; an offer whose payload differs from the one the limiter holds is admitted, as the last admission |
| `RateLimit.FinalIsLastAdmitted` | main.py:247-254 | after any run of offers the limiter holds the last admitted payload and its time |
| `RateLimit.DroppedOffersRepeat` | main.py:247-254 | a dropped offer always repeats the last admitted payload within the interval: a change is never dropped |
| `RateLimit.RepeatsAreSpaced` | main.py:247-254 | two consecutive admissions of the same payload are at least `minInterval` apart, so an unchanged payload is never sent faster than the ceiling |
| `Events.PutAllDeliversPrefix` | main.py:428-432 | putting a batch keeps FIFO order and drops only a tail of it; nothing is dropped when the queue is unbounded or has room; a bounded queue never exceeds its size |
| `Events.FullDropsAll` | main.py:428-432 | a full queue drops every event put on it |
| `Events.PutAllAppend` | main.py:428-432 | putting two batches in turn is putting their concatenation |
| `Events.EventQueue.constructor` | main.py:444 | an empty queue of the given `maxsize` (<= 0 is unbounded) |
| `Events.EventQueue.PutNowait` | main.py:430 | appends the event iff the queue is not full, and keeps the size bound |
| `Ble.BleController.constructor` | main.py:257-280 | no client, no subscriptions, not stopped, nothing pending or sent, no battery or status seen, a fresh 100 ms limiter |
| `Ble.BleController.QueueUi` | main.py:428-432 | the event is appended, or silently dropped when the queue is full |
| `Ble.BleController.Run` | main.py:283-296 | a failed connect queues the greeting, the connection error and `disconnected`, and leaves no client; a successful one leaves the client attached with exactly the subscriptions that succeeded, and queues and requests what `OnConnected` states |
| `Ble.BleController.OnConnected` | main.py:286-291 | `connected`, the subscription warnings, the pending payload's write (`_send_pending`) and the battery read, in that order; pending is emptied |
| `Ble.BleController.FinishRun` | main.py:286-303 | disconnect; if the disconnect fails, queue `Connection error: <reason>` first; then unsubscribe whatever is still active, drop the client and queue one `disconnected` |
| `Ble.BleController.Teardown` | main.py:297-303 | the `finally` block: no client and no subscriptions afterwards, exactly one `disconnected` queued |
| `Ble.BleController.EnableNotifications` | main.py:305-315 | subscribes to status, then battery; each flag is set iff its subscription succeeded; each failure queues one warning and does not stop the other |
| `Ble.BleController.DisableNotifications` | main.py:317-334 | both flags are false afterwards whatever `stop_notify` does; only the active subscriptions are unsubscribed; without a client nothing is requested |
| `Ble.BleController.StatusHandler` | main.py:336-345 | a notification with the same hex as the last one changes nothing and queues nothing; otherwise the hex, the decoded status and the state's hex are updated and exactly one `status` event is queued |
| `Ble.BleController.BatteryHandler` | main.py:348-357 | an empty payload or a repeated first byte is ignored; otherwise `_last_battery` and the state's battery become that byte and one `battery` event is queued |
| `Ble.BleController.ReadBattery` | main.py:360-368 | one read; a failure queues a warning; non-empty data sets the battery to its first byte and queues it; `_last_battery` is untouched |
| `Ble.BleController.SendControl` | main.py:370-386 | nothing happens when stopped or without a client; otherwise the limiter records before the write; only an admitted payload is written; `last_payload`, `_last_sent_payload` and a `payload` event follow only a successful write; a failure queues one error |
| `Ble.BleController.WritePending` | main.py:389-407 | with a client, the pending payload is taken and written once; success records it and queues `payload`; failure queues one error and stops; pending is empty afterwards |
| `Ble.BleController.RequestBattery` | main.py:409-415 | nothing once stopped; without a client only the "queued" message; otherwise exactly `_read_battery` |
| `Ble.BleController.Stop` | main.py:421-426 | marks the session stopped; the first call unsubscribes the active subscriptions; a second call changes nothing |
| `Input.ThrottleFromKeys` | main.py:688-697 | in {-1, 0, 1}; 1 iff `w` is held and either `s` is not or `w` was pressed last; -1 iff `s` is held and either `w` is not or `w` was not pressed last |
| `Input.SteeringFromKeys` | main.py:704-713 | in {-1, 0, 1}; -1 iff `a` is held and either `d` is not or `a` was pressed last; 1 iff `d` is held and either `a` is not or `a` was not pressed last |
| `Input.ToggledMode` | main.py:734 | the result is 1 or 2 and differs from the mode; 2 iff the mode was 1 |
| `Input.ToggledModeInvolution` | main.py:734 | on modes 1 and 2, toggling twice returns the mode |
| `Input.NextSlot` | main.py:658-665 | in `[0, count)` when there are joysticks, unchanged otherwise |
| `Input.PrevSlot` | main.py:666-673 | in `[0, count)` when there are joysticks, unchanged otherwise |
| `Input.SlotRoundTrip` | main.py:656-673 | `+` then `-` (and `-` then `+`) returns to a valid slot |
| `Input.KeyInput.constructor` | main.py:447-454 | not running, no keys held, no last keys |
| `Input.KeyInput.StartMainLoop` | main.py:531-538 | running, with throttle and steering reset to 0 |
| `Input.KeyInput.UpdateThrottleFromKeys` | main.py:688-702 | the throttle becomes `ThrottleFromKeys` of the held keys; returns true iff it changed; the message becomes its label only on a change |
| `Input.KeyInput.UpdateSteeringFromKeys` | main.py:704-718 | the steering becomes `SteeringFromKeys` of the held keys; returns true iff it changed; the message becomes its label only on a change |
| `Input.KeyInput.HandleKeyDown` | main.py:637-654 | ignored unless running; pressing `w`/`s` always leaves the throttle at 1/-1, and `a`/`d` the steering at -1/1 (last pressed wins); a change schedules the new state's payload; a toggle key acts once until released. The message becomes the changed axis's label or the toggle's message. The other axis's value, held keys and last key, and the toggle keys when an axis key is pressed, are unchanged |
| `Input.KeyInput.HandleKeyUp` | main.py:675-686 | releasing a held axis key re-resolves that axis from the keys still held; on a change it sets the message to the axis's label and schedules the payload; the other axis is unchanged; a toggle key is forgotten |
| `Input.KeyInput.HandleTogglePress` | main.py:720-741 | `l`/`t`/`o` flip their flag and `m` toggles the mode, each scheduling the new payload; `b` schedules a battery request; `q` schedules shutdown |
| `Scenarios.LimiterSchedule` | main.py:247-254 | with P admitted at t0: P at t0+50 is refused, P at t0+150 is admitted, a different Q at t0+10 is admitted |
| `Scenarios.SubscriptionPartialFailure` | main.py:283-315 | status subscription fails, battery succeeds: connected, status off, battery on, and the warning is queued |
| `Scenarios.DuplicateStatus` | main.py:336-345 | two identical status notifications give one `status` event |
| `Scenarios.EmptyFirstStatus` | main.py:336-340 | an empty first status notification is dropped |
| `Scenarios.FullQueueDropsStatus` | main.py:428-432 | with a full queue, a new status is recorded but its event is dropped |
| `Scenarios.ConnectedSession` | main.py:283-292 | a successful start-up queues the greeting and `connected` and issues the connect, both subscriptions and the battery read |
| `Scenarios.IdenticalStateTwice` | main.py:370-386 | the same payload twice within 50 ms: one write, one `payload` event |
| `Scenarios.FailedWriteNotRetried` | main.py:373-386 | a failed write queues one error, leaves `last_payload` empty, and the same payload 50 ms later is not written again |
| `Scenarios.StopTwice` | main.py:409-426 | stop twice, then send and request the battery: nothing is written or read, and ending the run with a clean disconnect queues exactly one `disconnected` and no error |
| `Scenarios.FailedDisconnect` | main.py:286-303 | a disconnect that fails at the end of a run queues `Connection error: <reason>`, then exactly one `disconnected` |
| `Scenarios.LastPressedWins` | main.py:637-718 | `w` then `s` gives reverse; releasing `s` gives forward; releasing `w` stops; each change schedules the matching payload |
| `Scenarios.ReadThenSameNotification` | main.py:348-368 | the initial read does not seed the battery dedup, so an equal first notification queues a second `battery` event |

## Left out

- Device discovery and selection (main.py:47-164): Tk windows, a scanner thread,
  `BleakScanner`, `sys.exit`. This is user interface and I/O.
- Pygame rendering, event pumping and the 60 Hz main loop (main.py:506-564,
  790-841). Only the state reset at the start of `mainloop` is modelled.
- Gamepad input (main.py:465-505, 566-635): floating-point axis thresholds and
  joystick calls. The slot arithmetic of `+`/`-` is modelled by
  `Input.NextSlot`/`Input.PrevSlot`. The joystick count query and
  `_init_gamepad` are not.
- `PygameApp.shutdown`, `ui_consumer`, `_handle_ui_message` and the `shutdown`
  sentinel (main.py:515-528, 743-788): task orchestration and presentation.
- asyncio concurrency. The lock, the stop event, task creation and cancellation
  are not modelled; calls are sequential. A `stop` racing a write or a connect
  is not covered.
- The GATT calls themselves. Their outcomes are parameters, and exception text
  is the `reason` string.
- `time.monotonic()` and the float `min_interval`: replaced by integer
  milliseconds.
- `parse_args`, `main` and `run` (main.py:843-868): command line.
- Ble.BleController.WritePending: one link outcome answers every write of a
  drain. Since nothing refills `_pending_payload`, the loop writes at most once.
- Ble.BleController.DisableNotifications: `stop_notify` failures are swallowed
  and the flags are cleared in `finally`, so the outcome is not a parameter.
- Ble.BleController.Run: a start-up step that raises after the connect is not
  modelled, because every such step catches its own exceptions.
