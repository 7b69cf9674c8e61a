/**
 * `BleController`: the session that owns the link to the car. The BLE client
 * is reduced to whether one is attached (`hasClient`) and to the requests
 * issued to it (`requests`); each GATT call's outcome is a parameter. The
 * asyncio lock and tasks become plain sequential method calls.
 */
module Ble {
  import opened Wrappers
  import opened Codec
  import opened Events
  import opened RateLimit
  import opened ControlStateModel

  const ControlCharacteristicUuid := "0000fff1-0000-1000-8000-00805f9b34fb"
  const StatusCharacteristicUuid := "0000fff2-0000-1000-8000-00805f9b34fb"
  const BatteryCharacteristicUuid := "00002a19-0000-1000-8000-00805f9b34fb"

  /** Outcome of a link call that returns nothing: it completed, or raised `reason`. */
  datatype LinkResult = Done | Failed(reason: string)

  /** Outcome of `read_gatt_char`. */
  datatype ReadResult = ReadOk(data: seq<Byte>) | ReadFailed(reason: string)

  /** A request issued to the BLE client. */
  datatype LinkRequest =
    | Connect(address: string)
    | Disconnect
    | StartNotify(uuid: string)
    | StopNotify(uuid: string)
    | Write(uuid: string, payload: seq<Byte>)
    | Read(uuid: string)

  /** The warnings `_enable_notifications` queues for failed subscriptions, in order. */
  function SubscribeWarnings(status: LinkResult, battery: LinkResult): seq<Event> {
    (if status.Failed? then [Warn("Status notify failed: " + status.reason)] else [])
    + (if battery.Failed? then [Warn("Battery notify failed: " + battery.reason)] else [])
  }

  /** The events `_read_battery` queues. */
  function ReadEvents(read: ReadResult): seq<Event> {
    match read
    case ReadFailed(reason) => [Warn("Initial battery read failed: " + reason)]
    case ReadOk(data) => if data == [] then [] else [Battery(data[0])]
  }

  /** The event queued after writing `payload` to the control characteristic. */
  function WriteEvent(payload: seq<Byte>, write: LinkResult): Event {
    if write.Done? then PayloadSent(payload) else Error("ERROR sending command: " + write.reason)
  }

  /** The event of draining a pending payload, if there is one. */
  function PendingEvents(pending: Option<seq<Byte>>, write: LinkResult): seq<Event> {
    if pending.Some? then [WriteEvent(pending.value, write)] else []
  }

  /** The events of a connected session's start-up, in order. */
  function SessionEvents(pending: Option<seq<Byte>>, statusSub: LinkResult, batterySub: LinkResult,
                         pendingWrite: LinkResult, read: ReadResult): seq<Event> {
    [Connected] + SubscribeWarnings(statusSub, batterySub) + PendingEvents(pending, pendingWrite) + ReadEvents(read)
  }

  /** The link requests of a connected session's start-up, in order. */
  function SessionRequests(pending: Option<seq<Byte>>): seq<LinkRequest> {
    [StartNotify(StatusCharacteristicUuid), StartNotify(BatteryCharacteristicUuid)]
    + (if pending.Some? then [Write(ControlCharacteristicUuid, pending.value)] else [])
    + [Read(BatteryCharacteristicUuid)]
  }

  /**
   * The events of leaving the client context: a failed disconnect is reported
   * as a connection error before the `finally` block's `disconnected`.
   */
  function DisconnectEvents(disconnect: LinkResult): seq<Event> {
    (if disconnect.Failed? then [Error("Connection error: " + disconnect.reason)] else []) + [Disconnected]
  }

  /** The unsubscribe requests `_disable_notifications` issues for the active subscriptions. */
  function StopRequests(statusOn: bool, batteryOn: bool): seq<LinkRequest> {
    (if statusOn then [StopNotify(StatusCharacteristicUuid)] else [])
    + (if batteryOn then [StopNotify(BatteryCharacteristicUuid)] else [])
  }

  class BleController {
    const address: string
    const state: ControlState
    const uiQueue: EventQueue
    const rateLimiter: ControlRateLimiter
    /** `_client is not None`. */
    var hasClient: bool
    var statusNotify: bool
    var batteryNotify: bool
    var pendingPayload: Option<seq<Byte>>
    var lastSentPayload: Option<seq<Byte>>
    var stopped: bool
    var lastBattery: Option<int>
    var lastStatusHex: string
    /** Every request issued to the BLE client, oldest first. */
    var requests: seq<LinkRequest>

    /** The queue respects its bound, and a subscription is only active on a client. */
    ghost predicate Valid()
      reads this, uiQueue
    {
      uiQueue.Valid() && (statusNotify || batteryNotify ==> hasClient)
    }

    constructor (address: string, state: ControlState, uiQueue: EventQueue)
      requires uiQueue.Valid()
      ensures Valid()
      ensures this.address == address && this.state == state && this.uiQueue == uiQueue
      ensures fresh(rateLimiter) && rateLimiter.State() == Initial
      ensures rateLimiter.minInterval == MinIntervalMs
      ensures !hasClient && !statusNotify && !batteryNotify && !stopped
      ensures pendingPayload == None && lastSentPayload == None
      ensures lastBattery == None && lastStatusHex == "" && requests == []
    {
      this.address := address;
      this.state := state;
      this.uiQueue := uiQueue;
      rateLimiter := new ControlRateLimiter(MinIntervalMs);
      hasClient, statusNotify, batteryNotify, stopped := false, false, false, false;
      pendingPayload, lastSentPayload := None, None;
      lastBattery, lastStatusHex := None, "";
      requests := [];
    }

    /** `_queue_ui`: put the event, silently dropping it when the queue is full. */
    method QueueUi(e: Event)
      requires Valid()
      modifies uiQueue`items
      ensures Valid()
      ensures uiQueue.items == Put(old(uiQueue.items), uiQueue.maxsize, e)
    {
      var accepted := uiQueue.PutNowait(e);
    }

    /**
     * `run` up to its wait on the stop event. A failed connect is reported and
     * the `finally` block runs at once; otherwise the session goes on as
     * `OnConnected` says.
     */
    method Run(connect: LinkResult, statusSub: LinkResult, batterySub: LinkResult,
               pendingWrite: LinkResult, read: ReadResult)
      requires Valid() && !hasClient
      modifies this`hasClient, this`statusNotify, this`batteryNotify, this`pendingPayload,
               this`lastSentPayload, this`requests, state`lastPayload, state`batteryPct, uiQueue`items
      ensures Valid()
      ensures hasClient == connect.Done?
      ensures statusNotify == (connect.Done? && statusSub.Done?)
      ensures batteryNotify == (connect.Done? && batterySub.Done?)
      ensures connect.Failed? ==>
        && requests == old(requests) + [Connect(address)]
        && uiQueue.items == PutAll(old(uiQueue.items), uiQueue.maxsize,
             [Message("Connecting to " + address + "..."), Error("Connection error: " + connect.reason), Disconnected])
        && pendingPayload == old(pendingPayload) && lastSentPayload == old(lastSentPayload)
        && state.lastPayload == old(state.lastPayload) && state.batteryPct == old(state.batteryPct)
      ensures connect.Done? ==>
        var pending := old(pendingPayload);
        && pendingPayload == None
        && requests == old(requests) + [Connect(address)] + SessionRequests(pending)
        && uiQueue.items == PutAll(old(uiQueue.items), uiQueue.maxsize,
             [Message("Connecting to " + address + "...")]
             + SessionEvents(pending, statusSub, batterySub, pendingWrite, read))
        && lastSentPayload == (if pending.Some? && pendingWrite.Done? then pending else old(lastSentPayload))
        && state.lastPayload == (if pending.Some? && pendingWrite.Done? then pending.value else old(state.lastPayload))
        && state.batteryPct == (if read.ReadOk? && read.data != [] then Some(read.data[0]) else old(state.batteryPct))
    {
      var q0 := uiQueue.items;
      var m := uiQueue.maxsize;
      var greeting := Message("Connecting to " + address + "...");
      QueueUi(greeting);
      var q1 := uiQueue.items;
      assert q1 == PutAll(q0, m, [greeting]);
      requests := requests + [Connect(address)];
      if connect.Failed? {
        var failure := Error("Connection error: " + connect.reason);
        QueueUi(failure);
        var q2 := uiQueue.items;
        assert q2 == PutAll(q1, m, [failure]);
        Teardown();
        assert uiQueue.items == PutAll(q2, m, [Disconnected]);
        PutAllAppend(q0, m, [greeting], [failure]);
        PutAllAppend(q0, m, [greeting] + [failure], [Disconnected]);
        assert [greeting] + [failure] + [Disconnected] == [greeting, failure, Disconnected];
      } else {
        OnConnected(statusSub, batterySub, pendingWrite, read);
        PutAllAppend(q0, m, [greeting], SessionEvents(old(pendingPayload), statusSub, batterySub, pendingWrite, read));
      }
    }

    /**
     * The body of `run`'s client context: record the client, announce it,
     * subscribe, send any pending payload (`_send_pending`) and read the
     * battery once.
     */
    method OnConnected(statusSub: LinkResult, batterySub: LinkResult, pendingWrite: LinkResult, read: ReadResult)
      requires Valid() && !hasClient
      modifies this`hasClient, this`statusNotify, this`batteryNotify, this`pendingPayload,
               this`lastSentPayload, this`requests, state`lastPayload, state`batteryPct, uiQueue`items
      ensures Valid()
      ensures hasClient && statusNotify == statusSub.Done? && batteryNotify == batterySub.Done?
      ensures var pending := old(pendingPayload);
        && pendingPayload == None
        && requests == old(requests) + SessionRequests(pending)
        && uiQueue.items == PutAll(old(uiQueue.items), uiQueue.maxsize,
             SessionEvents(pending, statusSub, batterySub, pendingWrite, read))
        && lastSentPayload == (if pending.Some? && pendingWrite.Done? then pending else old(lastSentPayload))
        && state.lastPayload == (if pending.Some? && pendingWrite.Done? then pending.value else old(state.lastPayload))
        && state.batteryPct == (if read.ReadOk? && read.data != [] then Some(read.data[0]) else old(state.batteryPct))
    {
      var q0 := uiQueue.items;
      var m := uiQueue.maxsize;
      var pending := pendingPayload;
      hasClient := true;
      QueueUi(Connected);
      assert uiQueue.items == PutAll(q0, m, [Connected]);
      EnableNotifications(statusSub, batterySub);
      var warnings := SubscribeWarnings(statusSub, batterySub);
      PutAllAppend(q0, m, [Connected], warnings);
      var q2 := uiQueue.items;
      var pendingEvents := PendingEvents(pending, pendingWrite);
      if pendingPayload.Some? && hasClient {
        WritePending(pendingWrite);
      }
      assert uiQueue.items == PutAll(q2, m, pendingEvents);
      PutAllAppend(q0, m, [Connected] + warnings, pendingEvents);
      ReadBattery(read);
      PutAllAppend(q0, m, [Connected] + warnings + pendingEvents, ReadEvents(read));
    }

    /**
     * The rest of `run` once the stop event is set: leave the client context
     * (the disconnect, whose failure the `except` clause reports), then `finally`.
     */
    method FinishRun(disconnect: LinkResult)
      requires Valid() && hasClient
      modifies this`hasClient, this`statusNotify, this`batteryNotify, this`requests, uiQueue`items
      ensures Valid()
      ensures !hasClient && !statusNotify && !batteryNotify
      ensures requests == old(requests) + [Disconnect] + StopRequests(old(statusNotify), old(batteryNotify))
      ensures uiQueue.items == PutAll(old(uiQueue.items), uiQueue.maxsize, DisconnectEvents(disconnect))
    {
      var q0 := uiQueue.items;
      var m := uiQueue.maxsize;
      requests := requests + [Disconnect];
      if disconnect.Failed? {
        var failure := Error("Connection error: " + disconnect.reason);
        QueueUi(failure);
        var q1 := uiQueue.items;
        assert q1 == PutAll(q0, m, [failure]);
        Teardown();
        assert uiQueue.items == PutAll(q1, m, [Disconnected]);
        PutAllAppend(q0, m, [failure], [Disconnected]);
      } else {
        Teardown();
        assert uiQueue.items == PutAll(q0, m, [Disconnected]);
      }
    }

    /** The `finally` block of `run`: unsubscribe, drop the client, report the disconnect. */
    method Teardown()
      requires Valid()
      modifies this`hasClient, this`statusNotify, this`batteryNotify, this`requests, uiQueue`items
      ensures Valid()
      ensures !hasClient && !statusNotify && !batteryNotify
      ensures requests == old(requests) + StopRequests(old(statusNotify), old(batteryNotify))
      ensures uiQueue.items == Put(old(uiQueue.items), uiQueue.maxsize, Disconnected)
    {
      DisableNotifications();
      hasClient := false;
      QueueUi(Disconnected);
    }

    /** `_enable_notifications`: subscribe to status, then battery; a failure is only a warning. */
    method EnableNotifications(statusSub: LinkResult, batterySub: LinkResult)
      requires Valid() && hasClient
      modifies this`statusNotify, this`batteryNotify, this`requests, uiQueue`items
      ensures Valid()
      ensures requests == old(requests) + [StartNotify(StatusCharacteristicUuid), StartNotify(BatteryCharacteristicUuid)]
      ensures statusNotify == (statusSub.Done? || old(statusNotify))
      ensures batteryNotify == (batterySub.Done? || old(batteryNotify))
      ensures uiQueue.items == PutAll(old(uiQueue.items), uiQueue.maxsize, SubscribeWarnings(statusSub, batterySub))
    {
      var q0 := uiQueue.items;
      var m := uiQueue.maxsize;
      requests := requests + [StartNotify(StatusCharacteristicUuid)];
      var first: seq<Event> := [];
      if statusSub.Done? {
        statusNotify := true;
      } else {
        first := [Warn("Status notify failed: " + statusSub.reason)];
        QueueUi(first[0]);
      }
      assert uiQueue.items == PutAll(q0, m, first);
      var q1 := uiQueue.items;
      requests := requests + [StartNotify(BatteryCharacteristicUuid)];
      var second: seq<Event> := [];
      if batterySub.Done? {
        batteryNotify := true;
      } else {
        second := [Warn("Battery notify failed: " + batterySub.reason)];
        QueueUi(second[0]);
      }
      assert uiQueue.items == PutAll(q1, m, second);
      PutAllAppend(q0, m, first, second);
    }

    /**
     * `_disable_notifications`: with a client, unsubscribe each active
     * subscription; the flag is cleared whether or not `stop_notify` raises.
     */
    method DisableNotifications()
      requires Valid()
      modifies this`statusNotify, this`batteryNotify, this`requests
      ensures Valid()
      ensures !statusNotify && !batteryNotify
      ensures old(hasClient) ==> requests == old(requests) + StopRequests(old(statusNotify), old(batteryNotify))
      ensures !old(hasClient) ==> requests == old(requests)
    {
      if !hasClient {
        return;
      }
      if statusNotify {
        requests := requests + [StopNotify(StatusCharacteristicUuid)];
        statusNotify := false;
      }
      if batteryNotify {
        requests := requests + [StopNotify(BatteryCharacteristicUuid)];
        batteryNotify := false;
      }
    }

    /**
     * `_status_handler`: a notification whose hex equals the last one seen is
     * ignored; any other is decoded into the state and announced once.
     */
    method StatusHandler(data: seq<Byte>)
      requires Valid()
      modifies this`lastStatusHex, state`lastStatus, state`lastStatusHex, uiQueue`items
      ensures Valid()
      ensures lastStatusHex == Hex(data)
      ensures Hex(data) == old(lastStatusHex) ==>
        && lastStatusHex == old(lastStatusHex)
        && state.lastStatus == old(state.lastStatus) && state.lastStatusHex == old(state.lastStatusHex)
        && uiQueue.items == old(uiQueue.items)
      ensures Hex(data) != old(lastStatusHex) ==>
        && lastStatusHex == Hex(data)
        && state.lastStatus == Some(DecodeStatusPayload(data)) && state.lastStatusHex == Hex(data)
        && uiQueue.items == Put(old(uiQueue.items), uiQueue.maxsize, Status)
    {
      var hexData := Hex(data);
      if hexData == lastStatusHex {
        return;
      }
      lastStatusHex := hexData;
      state.lastStatus := Some(DecodeStatusPayload(data));
      state.lastStatusHex := hexData;
      QueueUi(Status);
    }

    /**
     * `_battery_handler`: an empty notification, or one whose first byte
     * equals the last battery value seen, is ignored; otherwise the value is
     * recorded and announced once.
     */
    method BatteryHandler(data: seq<Byte>)
      requires Valid()
      modifies this`lastBattery, state`batteryPct, uiQueue`items
      ensures Valid()
      ensures data != [] ==> lastBattery == Some(data[0])
      ensures data == [] || old(lastBattery) == Some(data[0]) ==>
        && lastBattery == old(lastBattery) && state.batteryPct == old(state.batteryPct)
        && uiQueue.items == old(uiQueue.items)
      ensures data != [] && old(lastBattery) != Some(data[0]) ==>
        && lastBattery == Some(data[0]) && state.batteryPct == Some(data[0])
        && uiQueue.items == Put(old(uiQueue.items), uiQueue.maxsize, Battery(data[0]))
    {
      if data == [] {
        return;
      }
      var val := data[0];
      if lastBattery == Some(val) {
        return;
      }
      lastBattery := Some(val);
      state.batteryPct := Some(val);
      QueueUi(Battery(val));
    }

    /** `_read_battery`: one read; its first byte, if any, becomes the battery value. */
    method ReadBattery(read: ReadResult)
      requires Valid() && hasClient
      modifies this`requests, state`batteryPct, uiQueue`items
      ensures Valid()
      ensures requests == old(requests) + [Read(BatteryCharacteristicUuid)]
      ensures state.batteryPct == if read.ReadOk? && read.data != [] then Some(read.data[0]) else old(state.batteryPct)
      ensures uiQueue.items == PutAll(old(uiQueue.items), uiQueue.maxsize, ReadEvents(read))
    {
      requests := requests + [Read(BatteryCharacteristicUuid)];
      if read.ReadFailed? {
        QueueUi(Warn("Initial battery read failed: " + read.reason));
        return;
      }
      if read.data != [] {
        state.batteryPct := Some(read.data[0]);
        QueueUi(Battery(read.data[0]));
      }
    }

    /**
     * `send_control`: nothing when stopped or without a client; otherwise the
     * limiter decides, recording the payload before the write, so a failed
     * write still counts as sent for rate limiting. The state's last payload
     * and the `payload` event follow only a successful write.
     */
    method SendControl(payload: seq<Byte>, now: int, write: LinkResult)
      requires Valid()
      modifies rateLimiter, this`lastSentPayload, this`requests, state`lastPayload, uiQueue`items
      ensures Valid()
      ensures var gated := old(stopped) || !old(hasClient);
        var before := old(rateLimiter.State());
        var admitted := !gated && Admits(before, rateLimiter.minInterval, payload, now);
        && rateLimiter.State() == (if gated then before else Step(before, rateLimiter.minInterval, payload, now))
        && requests == old(requests) + (if admitted then [Write(ControlCharacteristicUuid, payload)] else [])
        && lastSentPayload == (if admitted && write.Done? then Some(payload) else old(lastSentPayload))
        && state.lastPayload == (if admitted && write.Done? then payload else old(state.lastPayload))
        && uiQueue.items == (if admitted then Put(old(uiQueue.items), uiQueue.maxsize, WriteEvent(payload, write))
                             else old(uiQueue.items))
    {
      if stopped || !hasClient {
        return;
      }
      var ok := rateLimiter.ShouldSend(payload, now);
      if !ok {
        return;
      }
      requests := requests + [Write(ControlCharacteristicUuid, payload)];
      if write.Done? {
        lastSentPayload := Some(payload);
        state.lastPayload := payload;
        QueueUi(PayloadSent(payload));
      } else {
        QueueUi(Error("ERROR sending command: " + write.reason));
      }
    }

    /**
     * `_write_pending`: drain `pendingPayload`, taking it before each write and
     * stopping at the first failed write. `write` is the link's answer to the
     * writes of this drain.
     */
    method WritePending(write: LinkResult)
      requires Valid()
      modifies this`pendingPayload, this`lastSentPayload, this`requests, state`lastPayload, uiQueue`items
      ensures Valid()
      ensures var drained := old(hasClient) && old(pendingPayload).Some?;
        && pendingPayload == (if drained then None else old(pendingPayload))
        && requests == old(requests) + (if drained then [Write(ControlCharacteristicUuid, old(pendingPayload).value)] else [])
        && lastSentPayload == (if drained && write.Done? then old(pendingPayload) else old(lastSentPayload))
        && state.lastPayload == (if drained && write.Done? then old(pendingPayload).value else old(state.lastPayload))
        && uiQueue.items == (if drained then Put(old(uiQueue.items), uiQueue.maxsize, WriteEvent(old(pendingPayload).value, write))
                             else old(uiQueue.items))
    {
      if !hasClient {
        return;
      }
      while pendingPayload.Some? && hasClient
        invariant Valid() && hasClient
        invariant pendingPayload == old(pendingPayload) ==>
          && requests == old(requests) && lastSentPayload == old(lastSentPayload)
          && state.lastPayload == old(state.lastPayload) && uiQueue.items == old(uiQueue.items)
        invariant pendingPayload != old(pendingPayload) ==>
          && pendingPayload == None && old(pendingPayload).Some? && write.Done?
          && requests == old(requests) + [Write(ControlCharacteristicUuid, old(pendingPayload).value)]
          && lastSentPayload == old(pendingPayload) && state.lastPayload == old(pendingPayload).value
          && uiQueue.items == Put(old(uiQueue.items), uiQueue.maxsize, PayloadSent(old(pendingPayload).value))
        decreases if pendingPayload.Some? then 1 else 0
      {
        var payload := pendingPayload.value;
        pendingPayload := None;
        requests := requests + [Write(ControlCharacteristicUuid, payload)];
        if write.Failed? {
          QueueUi(Error("ERROR sending command: " + write.reason));
          break;
        }
        lastSentPayload := Some(payload);
        state.lastPayload := payload;
        QueueUi(PayloadSent(payload));
      }
    }

    /** `request_battery`: nothing once stopped; a note without a client; otherwise a read. */
    method RequestBattery(read: ReadResult)
      requires Valid()
      modifies this`requests, state`batteryPct, uiQueue`items
      ensures Valid()
      ensures stopped ==>
        requests == old(requests) && state.batteryPct == old(state.batteryPct) && uiQueue.items == old(uiQueue.items)
      ensures !stopped && !hasClient ==>
        && requests == old(requests) && state.batteryPct == old(state.batteryPct)
        && uiQueue.items == Put(old(uiQueue.items), uiQueue.maxsize, Message("Battery read queued; waiting for connection"))
      ensures !stopped && hasClient ==>
        && requests == old(requests) + [Read(BatteryCharacteristicUuid)]
        && state.batteryPct == (if read.ReadOk? && read.data != [] then Some(read.data[0]) else old(state.batteryPct))
        && uiQueue.items == PutAll(old(uiQueue.items), uiQueue.maxsize, ReadEvents(read))
    {
      if stopped {
        return;
      }
      if !hasClient {
        QueueUi(Message("Battery read queued; waiting for connection"));
        return;
      }
      ReadBattery(read);
    }

    /**
     * `stop`: idempotent. The first call marks the session stopped (which also
     * releases `run`'s wait) and unsubscribes; later calls change nothing.
     */
    method Stop()
      requires Valid()
      modifies this`stopped, this`statusNotify, this`batteryNotify, this`requests
      ensures Valid()
      ensures stopped
      ensures old(stopped) ==>
        requests == old(requests) && statusNotify == old(statusNotify) && batteryNotify == old(batteryNotify)
      ensures !old(stopped) ==> !statusNotify && !batteryNotify
      ensures !old(stopped) && old(hasClient) ==>
        requests == old(requests) + StopRequests(old(statusNotify), old(batteryNotify))
      ensures !old(hasClient) ==> requests == old(requests)
    {
      if stopped {
        return;
      }
      stopped := true;
      DisableNotifications();
    }
  }
}
