/**
 * End-to-end runs of the session on concrete objects: each method drives the
 * controller, limiter or key handlers through a short sequence of calls and
 * states in its postcondition what the caller observes afterwards.
 */
module Scenarios {
  import opened Wrappers
  import opened Codec
  import opened Events
  import opened RateLimit
  import opened ControlStateModel
  import opened Ble
  import opened Input

  /**
   * The limiter's schedule with the controller's 100 ms interval: after `p`
   * is admitted at `t0`, `p` again at `t0 + 50` is refused, `p` at `t0 + 150`
   * is admitted, and a different `q` at `t0 + 10` is admitted at once.
   */
  method LimiterSchedule(p: seq<Byte>, q: seq<Byte>, t0: int)
    returns (first: bool, repeatSoon: bool, repeatLater: bool, changedSoon: bool)
    requires p != q
    ensures first && !repeatSoon && repeatLater && changedSoon
  {
    var a := new ControlRateLimiter(MinIntervalMs);
    first := a.ShouldSend(p, t0);
    repeatSoon := a.ShouldSend(p, t0 + 50);
    var b := new ControlRateLimiter(MinIntervalMs);
    var admitted := b.ShouldSend(p, t0);
    repeatLater := b.ShouldSend(p, t0 + 150);
    var c := new ControlRateLimiter(MinIntervalMs);
    admitted := c.ShouldSend(p, t0);
    changedSoon := c.ShouldSend(q, t0 + 10);
  }

  /**
   * A session whose status subscription fails while the battery one succeeds
   * stays connected with only the battery capability, and queues the warning.
   */
  method SubscriptionPartialFailure(reason: string, level: Byte)
    returns (connected: bool, statusOn: bool, batteryOn: bool, events: seq<Event>)
    ensures connected && !statusOn && batteryOn
    ensures events == [Message("Connecting to " + "car" + "..."), Connected,
                       Warn("Status notify failed: " + reason), Battery(level)]
  {
    var state := new ControlState();
    var queue := new EventQueue(0);
    var session := new BleController("car", state, queue);
    session.Run(Done, Failed(reason), Done, Done, ReadOk([level]));
    var startup := SessionEvents(None, Failed(reason), Done, Done, ReadOk([level]));
    assert startup == [Connected, Warn("Status notify failed: " + reason), Battery(level)];
    PutAllDeliversPrefix([], 0, [Message("Connecting to " + "car" + "...")] + startup);
    connected, statusOn, batteryOn := session.hasClient, session.statusNotify, session.batteryNotify;
    events := queue.items;
  }

  /** Two identical status notifications in a row give one `status` event. */
  method DuplicateStatus(data: seq<Byte>) returns (events: seq<Event>, decoded: Option<Telemetry>)
    requires data != []
    ensures events == [Status]
    ensures decoded == Some(DecodeStatusPayload(data))
  {
    var state := new ControlState();
    var queue := new EventQueue(0);
    var session := new BleController("car", state, queue);
    session.StatusHandler(data);
    session.StatusHandler(data);
    events := queue.items;
    decoded := state.lastStatus;
  }

  /**
   * An empty first status notification is dropped: its hex is the empty
   * string the session starts with.
   */
  method EmptyFirstStatus() returns (events: seq<Event>, decoded: Option<Telemetry>)
    ensures events == [] && decoded == None
  {
    var state := new ControlState();
    var queue := new EventQueue(0);
    var session := new BleController("car", state, queue);
    session.StatusHandler([]);
    events := queue.items;
    decoded := state.lastStatus;
  }

  /**
   * A bounded queue that is full drops the `status` event silently while the
   * state still takes the new telemetry.
   */
  method FullQueueDropsStatus(a: seq<Byte>, b: seq<Byte>) returns (events: seq<Event>, decoded: Option<Telemetry>)
    requires a != [] && a != b
    ensures events == [Status]
    ensures decoded == Some(DecodeStatusPayload(b))
  {
    var state := new ControlState();
    var queue := new EventQueue(1);
    var session := new BleController("car", state, queue);
    session.StatusHandler(a);
    HexInjective(a, b);
    session.StatusHandler(b);
    events := queue.items;
    decoded := state.lastStatus;
  }

  /** Opens a session on an unbounded queue whose start-up succeeds and whose battery read returns nothing. */
  method ConnectedSession() returns (session: BleController)
    ensures fresh(session) && fresh(session.state) && fresh(session.uiQueue) && fresh(session.rateLimiter)
    ensures session.Valid() && session.hasClient && !session.stopped
    ensures session.statusNotify && session.batteryNotify
    ensures session.uiQueue.maxsize == 0 && session.rateLimiter.minInterval == MinIntervalMs
    ensures session.rateLimiter.State() == Initial
    ensures session.uiQueue.items == [Message("Connecting to " + "car" + "..."), Connected]
    ensures session.requests == [Connect("car"), StartNotify(StatusCharacteristicUuid),
                                 StartNotify(BatteryCharacteristicUuid), Read(BatteryCharacteristicUuid)]
    ensures session.state.lastPayload == [] && session.state.batteryPct == None
  {
    var state := new ControlState();
    var queue := new EventQueue(0);
    session := new BleController("car", state, queue);
    session.Run(Done, Done, Done, Done, ReadOk([]));
    var startup := SessionEvents(None, Done, Done, Done, ReadOk([]));
    assert startup == [Connected];
    PutAllDeliversPrefix([], 0, [Message("Connecting to " + "car" + "...")] + startup);
  }

  /** The same payload submitted twice within 50 ms is written once and reported once. */
  method IdenticalStateTwice(t0: int) returns (writes: nat, payloadEvents: nat)
    ensures writes == 1 && payloadEvents == 1
  {
    var session := ConnectedSession();
    var p := session.state.Payload();
    session.SendControl(p, t0, Done);
    session.SendControl(p, t0 + 50, Done);
    writes := multiset(session.requests)[Write(ControlCharacteristicUuid, p)];
    payloadEvents := multiset(session.uiQueue.items)[PayloadSent(p)];
  }

  /**
   * A failed write is reported once and not retried: the limiter already
   * recorded the payload, so the same payload 50 ms later is not written, and
   * the state's last payload is untouched.
   */
  method FailedWriteNotRetried(t0: int, reason: string)
    returns (writes: nat, events: seq<Event>, lastPayload: seq<Byte>)
    ensures writes == 1 && lastPayload == []
    ensures events == [Message("Connecting to " + "car" + "..."), Connected, Error("ERROR sending command: " + reason)]
  {
    var session := ConnectedSession();
    var p := session.state.Payload();
    session.SendControl(p, t0, Failed(reason));
    session.SendControl(p, t0 + 50, Done);
    writes := multiset(session.requests)[Write(ControlCharacteristicUuid, p)];
    events := session.uiQueue.items;
    lastPayload := session.state.lastPayload;
  }

  /**
   * Stopping twice: the first `stop` unsubscribes, the second changes
   * nothing, later commands write and read nothing, and ending the run
   * reports exactly one disconnect and no error.
   */
  method StopTwice(t: int, level: Byte) returns (requests: seq<LinkRequest>, events: seq<Event>, battery: Option<int>)
    ensures requests == [Connect("car"), StartNotify(StatusCharacteristicUuid),
                         StartNotify(BatteryCharacteristicUuid), Read(BatteryCharacteristicUuid),
                         StopNotify(StatusCharacteristicUuid), StopNotify(BatteryCharacteristicUuid), Disconnect]
    ensures events == [Message("Connecting to " + "car" + "..."), Connected, Disconnected]
    ensures battery == None
  {
    var session := ConnectedSession();
    session.Stop();
    session.Stop();
    session.SendControl(session.state.Payload(), t, Done);
    session.RequestBattery(ReadOk([level]));
    session.FinishRun(Done);
    requests := session.requests;
    events := session.uiQueue.items;
    battery := session.state.batteryPct;
  }

  /**
   * A disconnect that fails when the run ends is reported as a connection
   * error, followed by the one `disconnected` of the `finally` block.
   */
  method FailedDisconnect(reason: string) returns (requests: seq<LinkRequest>, events: seq<Event>)
    ensures requests == [Connect("car"), StartNotify(StatusCharacteristicUuid),
                         StartNotify(BatteryCharacteristicUuid), Read(BatteryCharacteristicUuid),
                         Disconnect, StopNotify(StatusCharacteristicUuid), StopNotify(BatteryCharacteristicUuid)]
    ensures events == [Message("Connecting to " + "car" + "..."), Connected,
                       Error("Connection error: " + reason), Disconnected]
  {
    var session := ConnectedSession();
    var before := session.uiQueue.items;
    session.FinishRun(Failed(reason));
    PutAllDeliversPrefix(before, 0, DisconnectEvents(Failed(reason)));
    requests := session.requests;
    events := session.uiQueue.items;
  }

  /**
   * Holding `w` then `s` reverses (the last pressed wins); releasing `s`
   * goes forward again; releasing `w` stops. Each change schedules the
   * payload of the new state.
   */
  method LastPressedWins() returns (both: int, afterS: int, afterW: int, tasks: seq<Task>)
    ensures both == -1 && afterS == 1 && afterW == 0
    ensures tasks == [SendControl(BuildControlPayload(1, 1, 0, false, false, false)),
                      SendControl(BuildControlPayload(1, -1, 0, false, false, false)),
                      SendControl(BuildControlPayload(1, 1, 0, false, false, false)),
                      SendControl(BuildControlPayload(1, 0, 0, false, false, false))]
  {
    var state := new ControlState();
    var keys := new KeyInput(state);
    keys.StartMainLoop();
    assert "w" in ThrottleKeys && "s" in ThrottleKeys;
    var t0 := keys.HandleKeyDown("w");
    assert state.throttle == 1 && state.steering == 0 && state.mode == 1;
    assert t0 == SendControl(BuildControlPayload(1, 1, 0, false, false, false));
    var t1 := keys.HandleKeyDown("s");
    assert keys.throttleKeysDown == {"w", "s"} && keys.lastThrottleKey == Some("s");
    assert t1 == SendControl(BuildControlPayload(1, -1, 0, false, false, false));
    both := state.throttle;
    var t2 := keys.HandleKeyUp("s");
    assert keys.throttleKeysDown == {"w"};
    afterS := state.throttle;
    var t3 := keys.HandleKeyUp("w");
    assert keys.throttleKeysDown == {};
    afterW := state.throttle;
    tasks := [t0, t1, t2, t3];
  }

  /**
   * The initial battery read sets the state's battery value but not the
   * handler's last value, so a first notification of the same level is
   * announced again.
   */
  method ReadThenSameNotification(level: Byte) returns (batteryEvents: nat, battery: Option<int>)
    ensures batteryEvents == 2 && battery == Some(level)
  {
    var state := new ControlState();
    var queue := new EventQueue(0);
    var session := new BleController("car", state, queue);
    session.Run(Done, Done, Done, Done, ReadOk([level]));
    var startup := SessionEvents(None, Done, Done, Done, ReadOk([level]));
    assert startup == [Connected, Battery(level)];
    PutAllDeliversPrefix([], 0, [Message("Connecting to " + "car" + "...")] + startup);
    session.BatteryHandler([level]);
    assert queue.items == [Message("Connecting to " + "car" + "..."), Connected, Battery(level), Battery(level)];
    batteryEvents := multiset(queue.items)[Battery(level)];
    battery := state.batteryPct;
  }
}
