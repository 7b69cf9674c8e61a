/**
 * `ControlRateLimiter`: admits a payload when it differs from the last
 * admitted one or when at least `minInterval` has elapsed since that
 * admission; only an admission records the payload and the time.
 * Time is an integer number of milliseconds supplied by the caller in place
 * of `time.monotonic()`.
 */
module RateLimit {
  import opened Wrappers
  import opened Codec

  /** The controller's limiter interval, 0.1 s. */
  const MinIntervalMs := 100

  /** What the limiter remembers: the last admitted payload and its time. */
  datatype LimiterState = LimiterState(lastPayload: Option<seq<Byte>>, lastTime: int)

  /** A fresh limiter: no payload yet, time 0. */
  const Initial := LimiterState(None, 0)

  /** The admission rule of `should_send`. */
  predicate Admits(s: LimiterState, minInterval: int, payload: seq<Byte>, now: int) {
    s.lastPayload != Some(payload) || now - s.lastTime >= minInterval
  }

  /** The limiter's state after offering `payload` at `now`. */
  function Step(s: LimiterState, minInterval: int, payload: seq<Byte>, now: int): LimiterState
  {
    if Admits(s, minInterval, payload, now) then LimiterState(Some(payload), now) else s
  }

  class ControlRateLimiter {
    var lastPayload: Option<seq<Byte>>
    var lastTime: int
    const minInterval: int

    function State(): LimiterState
      reads this
    {
      LimiterState(lastPayload, lastTime)
    }

    constructor (minInterval: int)
      ensures State() == Initial && this.minInterval == minInterval
    {
      lastPayload := None;
      lastTime := 0;
      this.minInterval := minInterval;
    }

    /** `should_send(payload)` at time `now`. */
    method ShouldSend(payload: seq<Byte>, now: int) returns (ok: bool)
      modifies this
      ensures ok <==> old(lastPayload) != Some(payload) || now - old(lastTime) >= minInterval
      ensures ok ==> lastPayload == Some(payload) && lastTime == now
      ensures !ok ==> lastPayload == old(lastPayload) && lastTime == old(lastTime)
      ensures State() == Step(old(State()), minInterval, payload, now)
    {
      if lastPayload != Some(payload) || now - lastTime >= minInterval {
        lastPayload := Some(payload);
        lastTime := now;
        ok := true;
      } else {
        ok := false;
      }
    }
  }

  // ---------------------------------------------------------------------------
  // Runs of offers

  /** One call of `should_send`: the candidate payload and the time of the call. */
  datatype Offer = Offer(payload: seq<Byte>, time: int)

  /** The limiter's state after a run of offers. */
  function Final(s: LimiterState, minInterval: int, offers: seq<Offer>): LimiterState
  {
    if offers == [] then s
    else
      var last := offers[|offers| - 1];
      Step(Final(s, minInterval, offers[..|offers| - 1]), minInterval, last.payload, last.time)
  }

  /** The offers a run admits, in order: never more than were offered, and each one was offered. */
  function Admitted(s: LimiterState, minInterval: int, offers: seq<Offer>): (adm: seq<Offer>)
    ensures |adm| <= |offers|
    ensures forall i :: 0 <= i < |adm| ==> adm[i] in offers
    ensures offers != [] && Final(s, minInterval, offers[..|offers| - 1]).lastPayload != Some(offers[|offers| - 1].payload)
            ==> adm != [] && adm[|adm| - 1] == offers[|offers| - 1]
  {
    if offers == [] then []
    else
      var prefix := offers[..|offers| - 1];
      var last := offers[|offers| - 1];
      if Admits(Final(s, minInterval, prefix), minInterval, last.payload, last.time)
      then Admitted(s, minInterval, prefix) + [last]
      else Admitted(s, minInterval, prefix)
  }

  /** After a run, the limiter holds the last admitted offer (or its start state). */
  lemma {:induction false} FinalIsLastAdmitted(s: LimiterState, minInterval: int, offers: seq<Offer>)
    ensures var adm := Admitted(s, minInterval, offers);
      Final(s, minInterval, offers) ==
        if adm == [] then s
        else LimiterState(Some(adm[|adm| - 1].payload), adm[|adm| - 1].time)
  {
    if offers != [] {
      FinalIsLastAdmitted(s, minInterval, offers[..|offers| - 1]);
    }
  }

  /**
   * A payload is never dropped when it differs from what the limiter last
   * admitted: every offer the run drops repeats the payload admitted last
   * before it, less than `minInterval` after that admission.
   */
  lemma {:induction false} DroppedOffersRepeat(s: LimiterState, minInterval: int, offers: seq<Offer>)
    requires offers != []
    ensures var prefix := offers[..|offers| - 1];
      var last := offers[|offers| - 1];
      var before := Admitted(s, minInterval, prefix);
      Admitted(s, minInterval, offers) == before ==>
        if before == [] then s.lastPayload == Some(last.payload) && last.time - s.lastTime < minInterval
        else before[|before| - 1].payload == last.payload
             && last.time - before[|before| - 1].time < minInterval
  {
    FinalIsLastAdmitted(s, minInterval, offers[..|offers| - 1]);
  }

  /**
   * Unchanged payloads are never admitted faster than the interval: two
   * consecutive admissions of the same payload are at least `minInterval`
   * apart, and so is the first admission from the start state's record.
   */
  lemma {:induction false} RepeatsAreSpaced(s: LimiterState, minInterval: int, offers: seq<Offer>)
    ensures var adm := Admitted(s, minInterval, offers);
      && (adm != [] && s.lastPayload == Some(adm[0].payload) ==> adm[0].time - s.lastTime >= minInterval)
      && forall k :: 0 <= k < |adm| - 1 && adm[k].payload == adm[k + 1].payload ==>
           adm[k + 1].time - adm[k].time >= minInterval
  {
    if offers != [] {
      var prefix := offers[..|offers| - 1];
      var last := offers[|offers| - 1];
      RepeatsAreSpaced(s, minInterval, prefix);
      FinalIsLastAdmitted(s, minInterval, prefix);
      var before := Admitted(s, minInterval, prefix);
      var adm := Admitted(s, minInterval, offers);
      if adm != before {
        assert adm == before + [last];
        forall k | 0 <= k < |adm| - 1 && adm[k].payload == adm[k + 1].payload
          ensures adm[k + 1].time - adm[k].time >= minInterval
        {
          if k < |before| - 1 {
            assert adm[k] == before[k] && adm[k + 1] == before[k + 1];
          } else {
            assert adm[k] == before[|before| - 1] && adm[k + 1] == last;
          }
        }
      }
    }
  }
}
