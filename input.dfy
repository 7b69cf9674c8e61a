/**
 * The key-handling slice of `PygameApp`: which held keys give which throttle
 * and steering, the toggle keys, and the gamepad-slot wrap. Scheduling a
 * coroutine with `loop.create_task` is returned as a `Task` value.
 */
module Input {
  import opened Wrappers
  import opened Codec
  import opened ControlStateModel

  /** The coroutine a key handler schedules, if any. */
  datatype Task = NoTask | SendControl(payload: seq<Byte>) | RequestBattery | Shutdown

  const ThrottleKeys: set<string> := {"w", "s"}
  const SteeringKeys: set<string> := {"a", "d"}
  const ToggleKeys: set<string> := {"l", "t", "o", "m", "b", "q"}

  /**
   * `_update_throttle_from_keys`'s new value: `w` forward, `s` reverse, and
   * with both held the last pressed one wins.
   */
  function ThrottleFromKeys(down: set<string>, last: Option<string>): (r: int)
    ensures r == 0 || r == 1 || r == -1
    ensures r == 1 <==> "w" in down && ("s" !in down || last == Some("w"))
    ensures r == -1 <==> "s" in down && ("w" !in down || last != Some("w"))
  {
    if "w" in down && "s" in down then (if last == Some("w") then 1 else -1)
    else if "w" in down then 1
    else if "s" in down then -1
    else 0
  }

  /**
   * `_update_steering_from_keys`'s new value: `a` left, `d` right, and with
   * both held the last pressed one wins.
   */
  function SteeringFromKeys(down: set<string>, last: Option<string>): (r: int)
    ensures r == 0 || r == 1 || r == -1
    ensures r == -1 <==> "a" in down && ("d" !in down || last == Some("a"))
    ensures r == 1 <==> "d" in down && ("a" !in down || last != Some("a"))
  {
    if "a" in down && "d" in down then (if last == Some("a") then -1 else 1)
    else if "a" in down then -1
    else if "d" in down then 1
    else 0
  }

  /** The `m` key's mode toggle: mode 1 becomes 2, anything else becomes 1. */
  function ToggledMode(mode: int): (r: int)
    ensures r == 1 || r == 2
    ensures r != mode
    ensures r == 2 <==> mode == 1
  {
    if mode == 1 then 2 else 1
  }

  /** On the two real modes the toggle is an involution that always changes the mode. */
  lemma ToggledModeInvolution(mode: int)
    requires mode == 1 || mode == 2
    ensures ToggledMode(mode) != mode && ToggledMode(ToggledMode(mode)) == mode
  {
  }

  /** `+`: the next gamepad slot, wrapping modulo the number of joysticks (unchanged with none). */
  function NextSlot(id: int, count: int): (r: int)
    ensures count > 0 ==> 0 <= r < count
    ensures count <= 0 ==> r == id
  {
    if count > 0 then (id + 1) % count else id
  }

  /** `-`: the previous gamepad slot, wrapping modulo the number of joysticks (unchanged with none). */
  function PrevSlot(id: int, count: int): (r: int)
    ensures count > 0 ==> 0 <= r < count
    ensures count <= 0 ==> r == id
  {
    if count > 0 then (id - 1) % count else id
  }

  /** Euclidean `%` of a value within one period of the range `[0, count)`. */
  lemma ModNear(x: int, count: int)
    requires 0 < count && -count <= x <= count
    ensures x % count == if x < 0 then x + count else if x == count then 0 else x
  {
  }

  /** `+` and `-` undo each other on a valid slot. */
  lemma SlotRoundTrip(id: int, count: int)
    requires 0 <= id < count
    ensures PrevSlot(NextSlot(id, count), count) == id
    ensures NextSlot(PrevSlot(id, count), count) == id
  {
    ModNear(id + 1, count);
    ModNear(id - 1, count);
    ModNear(NextSlot(id, count) - 1, count);
    ModNear(PrevSlot(id, count) + 1, count);
  }

  /** The key-state fields of `PygameApp` and the control state it shares with the controller. */
  class KeyInput {
    const state: ControlState
    var running: bool
    var throttleKeysDown: set<string>
    var steeringKeysDown: set<string>
    var toggleKeysDown: set<string>
    var lastThrottleKey: Option<string>
    var lastSteeringKey: Option<string>

    /** Only the keys of each group are ever held in it. */
    ghost predicate Valid()
      reads this
    {
      throttleKeysDown <= ThrottleKeys && steeringKeysDown <= SteeringKeys && toggleKeysDown <= ToggleKeys
    }

    constructor (state: ControlState)
      ensures Valid() && this.state == state && !running
      ensures throttleKeysDown == {} && steeringKeysDown == {} && toggleKeysDown == {}
      ensures lastThrottleKey == None && lastSteeringKey == None
    {
      this.state := state;
      running := false;
      throttleKeysDown, steeringKeysDown, toggleKeysDown := {}, {}, {};
      lastThrottleKey, lastSteeringKey := None, None;
    }

    /** The start of `mainloop`: running, with throttle and steering reset. */
    method StartMainLoop()
      modifies this`running, state`throttle, state`steering
      ensures running && state.throttle == 0 && state.steering == 0
    {
      running := true;
      state.steering := 0;
      state.throttle := 0;
    }

    /** `_update_throttle_from_keys`: reports whether the throttle changed. */
    method UpdateThrottleFromKeys() returns (changed: bool)
      modifies state`throttle, state`message
      ensures state.throttle == ThrottleFromKeys(throttleKeysDown, lastThrottleKey)
      ensures changed <==> state.throttle != old(state.throttle)
      ensures state.message == if changed then ThrottleLabel(state.throttle) else old(state.message)
    {
      var previous := state.throttle;
      var newValue := 0;
      if "w" in throttleKeysDown && "s" in throttleKeysDown {
        newValue := if lastThrottleKey == Some("w") then 1 else -1;
      } else if "w" in throttleKeysDown {
        newValue := 1;
      } else if "s" in throttleKeysDown {
        newValue := -1;
      }
      if newValue != previous {
        state.throttle := newValue;
        state.message := ThrottleLabel(newValue);
        return true;
      }
      return false;
    }

    /** `_update_steering_from_keys`: reports whether the steering changed. */
    method UpdateSteeringFromKeys() returns (changed: bool)
      modifies state`steering, state`message
      ensures state.steering == SteeringFromKeys(steeringKeysDown, lastSteeringKey)
      ensures changed <==> state.steering != old(state.steering)
      ensures state.message == if changed then SteeringLabel(state.steering) else old(state.message)
    {
      var previous := state.steering;
      var newValue := 0;
      if "a" in steeringKeysDown && "d" in steeringKeysDown {
        newValue := if lastSteeringKey == Some("a") then -1 else 1;
      } else if "a" in steeringKeysDown {
        newValue := -1;
      } else if "d" in steeringKeysDown {
        newValue := 1;
      }
      if newValue != previous {
        state.steering := newValue;
        state.message := SteeringLabel(newValue);
        return true;
      }
      return false;
    }

    /** The throttle branch of `handle_keydown`: hold the key, remember it as the last one, re-resolve. */
    method PressThrottleKey(key: string) returns (task: Task)
      requires Valid() && key in ThrottleKeys
      modifies this`throttleKeysDown, this`lastThrottleKey, state`throttle, state`message
      ensures Valid()
      ensures throttleKeysDown == old(throttleKeysDown) + {key} && lastThrottleKey == Some(key)
      ensures state.throttle == (if key == "w" then 1 else -1)
      ensures task == (if state.throttle != old(state.throttle) then SendControl(state.Payload()) else NoTask)
      ensures state.message == (if state.throttle != old(state.throttle) then ThrottleLabel(state.throttle) else old(state.message))
    {
      task := NoTask;
      throttleKeysDown := throttleKeysDown + {key};
      lastThrottleKey := Some(key);
      var changed := UpdateThrottleFromKeys();
      if changed {
        task := SendControl(state.Payload());
      }
    }

    /** The steering branch of `handle_keydown`: hold the key, remember it as the last one, re-resolve. */
    method PressSteeringKey(key: string) returns (task: Task)
      requires Valid() && key in SteeringKeys
      modifies this`steeringKeysDown, this`lastSteeringKey, state`steering, state`message
      ensures Valid()
      ensures steeringKeysDown == old(steeringKeysDown) + {key} && lastSteeringKey == Some(key)
      ensures state.steering == (if key == "a" then -1 else 1)
      ensures task == (if state.steering != old(state.steering) then SendControl(state.Payload()) else NoTask)
      ensures state.message == (if state.steering != old(state.steering) then SteeringLabel(state.steering) else old(state.message))
    {
      task := NoTask;
      steeringKeysDown := steeringKeysDown + {key};
      lastSteeringKey := Some(key);
      var changed := UpdateSteeringFromKeys();
      if changed {
        task := SendControl(state.Payload());
      }
    }

    /**
     * The keyboard part of `handle_keydown` (slot switching is `NextSlot` and
     * `PrevSlot`). The key just pressed wins: `w` always leaves the throttle
     * forward, `s` reverse, `a` the steering left and `d` right.
     */
    method HandleKeyDown(key: string) returns (task: Task)
      requires Valid()
      modifies this`throttleKeysDown, this`steeringKeysDown, this`toggleKeysDown,
               this`lastThrottleKey, this`lastSteeringKey,
               state`throttle, state`steering, state`lights, state`turbo, state`donut, state`mode, state`message
      ensures Valid()
      ensures !running || (key !in ThrottleKeys && key !in SteeringKeys && key !in ToggleKeys) ==>
        && task == NoTask && unchanged(this) && unchanged(state)
      ensures running && key in ThrottleKeys ==>
        && throttleKeysDown == old(throttleKeysDown) + {key} && lastThrottleKey == Some(key)
        && state.throttle == (if key == "w" then 1 else -1)
        && task == (if state.throttle != old(state.throttle) then SendControl(state.Payload()) else NoTask)
        && state.message == (if state.throttle != old(state.throttle) then ThrottleLabel(state.throttle) else old(state.message))
        && steeringKeysDown == old(steeringKeysDown) && toggleKeysDown == old(toggleKeysDown)
        && lastSteeringKey == old(lastSteeringKey)
        && state.steering == old(state.steering) && state.mode == old(state.mode)
        && state.lights == old(state.lights) && state.turbo == old(state.turbo) && state.donut == old(state.donut)
      ensures running && key in SteeringKeys ==>
        && steeringKeysDown == old(steeringKeysDown) + {key} && lastSteeringKey == Some(key)
        && state.steering == (if key == "a" then -1 else 1)
        && task == (if state.steering != old(state.steering) then SendControl(state.Payload()) else NoTask)
        && state.message == (if state.steering != old(state.steering) then SteeringLabel(state.steering) else old(state.message))
        && throttleKeysDown == old(throttleKeysDown) && toggleKeysDown == old(toggleKeysDown)
        && lastThrottleKey == old(lastThrottleKey)
        && state.throttle == old(state.throttle) && state.mode == old(state.mode)
        && state.lights == old(state.lights) && state.turbo == old(state.turbo) && state.donut == old(state.donut)
      ensures running && key in ToggleKeys && key in old(toggleKeysDown) ==>
        task == NoTask && unchanged(this) && unchanged(state)
      ensures running && key in ToggleKeys && key !in old(toggleKeysDown) ==>
        && toggleKeysDown == old(toggleKeysDown) + {key}
        && throttleKeysDown == old(throttleKeysDown) && steeringKeysDown == old(steeringKeysDown)
        && lastThrottleKey == old(lastThrottleKey) && lastSteeringKey == old(lastSteeringKey)
        && state.throttle == old(state.throttle) && state.steering == old(state.steering)
        && ToggleEffect(key, old(state.mode), old(state.lights), old(state.turbo), old(state.donut),
                        state.mode, state.lights, state.turbo, state.donut)
        && task == ToggleTask(key, state.Payload())
        && state.message == ToggleMessage(key, state.mode, state.lights, state.turbo, state.donut, old(state.message))
    {
      task := NoTask;
      if !running {
        return;
      }
      if key in ThrottleKeys {
        task := PressThrottleKey(key);
      } else if key in SteeringKeys {
        task := PressSteeringKey(key);
      } else if key in ToggleKeys {
        if key !in toggleKeysDown {
          toggleKeysDown := toggleKeysDown + {key};
          task := HandleTogglePress(key);
        }
      }
    }

    /**
     * `handle_keyup`: releasing a held throttle or steering key re-resolves
     * that axis from the keys still held; a toggle key is forgotten.
     */
    method HandleKeyUp(key: string) returns (task: Task)
      requires Valid()
      modifies this`throttleKeysDown, this`steeringKeysDown, this`toggleKeysDown,
               state`throttle, state`steering, state`message
      ensures Valid()
      ensures toggleKeysDown == old(toggleKeysDown) - {key}
      ensures key in old(throttleKeysDown) ==>
        && throttleKeysDown == old(throttleKeysDown) - {key} && steeringKeysDown == old(steeringKeysDown)
        && state.throttle == ThrottleFromKeys(throttleKeysDown, lastThrottleKey)
        && state.steering == old(state.steering)
        && task == (if state.throttle != old(state.throttle) then SendControl(state.Payload()) else NoTask)
        && state.message == (if state.throttle != old(state.throttle) then ThrottleLabel(state.throttle) else old(state.message))
      ensures key !in old(throttleKeysDown) && key in old(steeringKeysDown) ==>
        && steeringKeysDown == old(steeringKeysDown) - {key} && throttleKeysDown == old(throttleKeysDown)
        && state.steering == SteeringFromKeys(steeringKeysDown, lastSteeringKey)
        && state.throttle == old(state.throttle)
        && task == (if state.steering != old(state.steering) then SendControl(state.Payload()) else NoTask)
        && state.message == (if state.steering != old(state.steering) then SteeringLabel(state.steering) else old(state.message))
      ensures key !in old(throttleKeysDown) && key !in old(steeringKeysDown) ==>
        && throttleKeysDown == old(throttleKeysDown) && steeringKeysDown == old(steeringKeysDown)
        && task == NoTask && unchanged(state)
    {
      task := NoTask;
      if key in throttleKeysDown {
        throttleKeysDown := throttleKeysDown - {key};
        var changed := UpdateThrottleFromKeys();
        if changed {
          task := SendControl(state.Payload());
        }
      } else if key in steeringKeysDown {
        steeringKeysDown := steeringKeysDown - {key};
        var changed := UpdateSteeringFromKeys();
        if changed {
          task := SendControl(state.Payload());
        }
      }
      if key in toggleKeysDown {
        toggleKeysDown := toggleKeysDown - {key};
      }
    }

    /** `_handle_toggle_press`: flip a toggle or the mode and send, or schedule a battery read or shutdown. */
    method HandleTogglePress(key: string) returns (task: Task)
      modifies state`lights, state`turbo, state`donut, state`mode, state`message
      ensures ToggleEffect(key, old(state.mode), old(state.lights), old(state.turbo), old(state.donut),
                           state.mode, state.lights, state.turbo, state.donut)
      ensures task == ToggleTask(key, state.Payload())
      ensures state.message == ToggleMessage(key, state.mode, state.lights, state.turbo, state.donut, old(state.message))
    {
      task := NoTask;
      if key == "l" {
        state.lights := !state.lights;
        state.message := if state.lights then "Lights ON" else "Lights OFF";
        task := SendControl(state.Payload());
      } else if key == "t" {
        state.turbo := !state.turbo;
        state.message := if state.turbo then "Turbo ON" else "Turbo OFF";
        task := SendControl(state.Payload());
      } else if key == "o" {
        state.donut := !state.donut;
        state.message := if state.donut then "Donut ON" else "Donut OFF";
        task := SendControl(state.Payload());
      } else if key == "m" {
        state.mode := ToggledMode(state.mode);
        state.message := if state.mode == 2 then "Mode set to 2" else "Mode set to 1";
        task := SendControl(state.Payload());
      } else if key == "b" {
        state.message := "Battery refresh requested";
        task := RequestBattery;
      } else if key == "q" {
        task := Shutdown;
      }
    }
  }

  /**
   * How a toggle key changes the mode and the three flags: `l`, `t`, `o` flip
   * one flag, `m` toggles the mode, every other key leaves all four alone.
   */
  ghost predicate ToggleEffect(key: string, mode: int, lights: bool, turbo: bool, donut: bool,
                               mode': int, lights': bool, turbo': bool, donut': bool)
  {
    && mode' == (if key == "m" then ToggledMode(mode) else mode)
    && lights' == (if key == "l" then !lights else lights)
    && turbo' == (if key == "t" then !turbo else turbo)
    && donut' == (if key == "o" then !donut else donut)
  }

  /** The task a toggle key schedules, given the payload of the updated state. */
  function ToggleTask(key: string, payload: seq<Byte>): Task {
    if key in {"l", "t", "o", "m"} then SendControl(payload)
    else if key == "b" then RequestBattery
    else if key == "q" then Shutdown
    else NoTask
  }

  /** The status line a toggle key leaves, given the updated state. */
  function ToggleMessage(key: string, mode: int, lights: bool, turbo: bool, donut: bool, previous: string): string {
    if key == "l" then (if lights then "Lights ON" else "Lights OFF")
    else if key == "t" then (if turbo then "Turbo ON" else "Turbo OFF")
    else if key == "o" then (if donut then "Donut ON" else "Donut OFF")
    else if key == "m" then (if mode == 2 then "Mode set to 2" else "Mode set to 1")
    else if key == "b" then "Battery refresh requested"
    else previous
  }
}
