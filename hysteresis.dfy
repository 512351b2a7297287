/**
 * The debounce (hysteresis) logic of backend/ApiSensors.js, as pure step functions.
 *
 * `Health` gathers what the three Detect methods of a Sensor change: eight counters, four latches and
 * the `error` record.  `FailureStep`, `WarningStep` and `OkStep` compute one call of
 * DetectEngineFailure, DetectEngineWarning and DetectEngineOk; the Sensor class proves its methods
 * against them.  The latest reading is an `Option<Reading>`: `None` stands for the initial
 * `lastReadValues = []`, on which every JavaScript comparison (with `undefined`) is false.
 */
module Hysteresis {
  import opened Wrappers

  /** The four values of `lastReadValues` the engine uses. */
  datatype Reading = Reading(temp: real, velX: real, velY: real, velZ: real)

  /** A sensor's four thresholds (vibValueFailure, vibValueWarning, tempValueFailure, tempValueWarning). */
  datatype Limits = Limits(vibFailure: real, vibWarning: real, tempFailure: real, tempWarning: real)

  /** The sensor's `error` object: its port and cmtk, and the cause and date of the last transition. */
  datatype ErrorRecord = ErrorRecord(port: string, cmtk: string, failure: Option<string>, date: Option<string>)

  datatype Health = Health(
    vibErrorCount: nat, tempErrorCount: nat,
    vibWarningCount: nat, tempWarningCount: nat,
    vibHealthyCount: nat, tempHealthyCount: nat,
    vibNoFailureCount: nat, tempNoFailureCount: nat,
    vibWarning: bool, tempWarning: bool, vibFailure: bool, tempFailure: bool,
    error: ErrorRecord)

  const VibrationError := "Vibration Error"
  const TemperatureError := "Temperature Error"
  const VibrationWarning := "Vibration Warning"
  const TemperatureWarning := "Temperature Warning"

  /** Entering a bad state: ANY axis at or above the limit. */
  predicate AnyAxisAtLeast(r: Option<Reading>, limit: real) {
    r.Some? && (r.value.velX >= limit || r.value.velY >= limit || r.value.velZ >= limit)
  }

  /** Counting towards recovery: ALL axes below the limit. */
  predicate AllAxesBelow(r: Option<Reading>, limit: real) {
    r.Some? && r.value.velX < limit && r.value.velY < limit && r.value.velZ < limit
  }

  predicate TempAtLeast(r: Option<Reading>, limit: real) {
    r.Some? && r.value.temp >= limit
  }

  predicate TempBelow(r: Option<Reading>, limit: real) {
    r.Some? && r.value.temp < limit
  }

  /** The source's `(count + 1) * condition`: one more when the condition holds, 0 otherwise. */
  function Bump(count: nat, holds: bool): nat {
    if holds then count + 1 else 0
  }

  /** Records a newly raised cause and its timestamp in the error record. */
  function Raise(h: Health, cause: string, now: string): Health {
    h.(error := h.error.(failure := Some(cause), date := Some(now)))
  }

  /** A recovery clears the cause and the timestamp of the error record. */
  function Cleared(h: Health): Health {
    h.(error := h.error.(failure := None, date := None))
  }

  /** The warning depth is half the failure depth: `count >= countToBeFail / 2` in real division. */
  predicate WarningDepthReached(count: nat, countToBeFail: int) {
    2 * count >= countToBeFail
  }

  /** The first half of DetectEngineFailure: both failure counters bumped. */
  function FailureCounts(h: Health, r: Option<Reading>, lim: Limits): Health {
    h.(vibErrorCount := Bump(h.vibErrorCount, AnyAxisAtLeast(r, lim.vibFailure)),
       tempErrorCount := Bump(h.tempErrorCount, TempAtLeast(r, lim.tempFailure)))
  }

  /** The first half of DetectEngineWarning: both warning counters bumped. */
  function WarningCounts(h: Health, r: Option<Reading>, lim: Limits): Health {
    h.(vibWarningCount := Bump(h.vibWarningCount, AnyAxisAtLeast(r, lim.vibWarning)),
       tempWarningCount := Bump(h.tempWarningCount, TempAtLeast(r, lim.tempWarning)))
  }

  /**
   * DetectEngineFailure: bumps both failure counters, then latches at most one failure, vibration
   * first; the boolean is true exactly when a latch went from false to true.
   */
  function FailureStep(h: Health, r: Option<Reading>, lim: Limits, countToBeFail: int, now: string): (res: (Health, bool))
    // each counter counts consecutive bad samples and resets otherwise
    ensures res.0.vibErrorCount == (if AnyAxisAtLeast(r, lim.vibFailure) then h.vibErrorCount + 1 else 0)
    ensures res.0.tempErrorCount == (if TempAtLeast(r, lim.tempFailure) then h.tempErrorCount + 1 else 0)
    // a latch is newly set only at the failure depth, vibration taking precedence over temperature
    ensures (!h.vibFailure && res.0.vibFailure) <==> (res.0.vibErrorCount >= countToBeFail && !h.vibFailure)
    ensures (!h.tempFailure && res.0.tempFailure) <==>
              (res.0.tempErrorCount >= countToBeFail && !h.tempFailure
               && !(res.0.vibErrorCount >= countToBeFail && !h.vibFailure))
    ensures !((!h.vibFailure && res.0.vibFailure) && (!h.tempFailure && res.0.tempFailure))
    ensures res.1 <==> ((!h.vibFailure && res.0.vibFailure) || (!h.tempFailure && res.0.tempFailure))
    // no latch is cleared and the warning side is untouched
    ensures h.vibFailure ==> res.0.vibFailure
    ensures h.tempFailure ==> res.0.tempFailure
    ensures res.0.vibWarning == h.vibWarning && res.0.tempWarning == h.tempWarning
    ensures res.0.vibWarningCount == h.vibWarningCount && res.0.tempWarningCount == h.tempWarningCount
    ensures res.0.vibHealthyCount == h.vibHealthyCount && res.0.tempHealthyCount == h.tempHealthyCount
    ensures res.0.vibNoFailureCount == h.vibNoFailureCount && res.0.tempNoFailureCount == h.tempNoFailureCount
    // the error record names the raised failure, and changes only when one is raised
    ensures res.1 ==> res.0.error.date == Some(now)
    ensures res.1 ==> res.0.error.failure ==
                        Some(if !h.vibFailure && res.0.vibFailure then VibrationError else TemperatureError)
    ensures !res.1 ==> res.0.error == h.error
    ensures res.0.error.port == h.error.port && res.0.error.cmtk == h.error.cmtk
  {
    var h1 := FailureCounts(h, r, lim);
    if h1.vibErrorCount >= countToBeFail && !h1.vibFailure then
      (Raise(h1.(vibFailure := true), VibrationError, now), true)
    else if h1.tempErrorCount >= countToBeFail && !h1.tempFailure then
      (Raise(h1.(tempFailure := true), TemperatureError, now), true)
    else
      (h1, false)
  }

  /**
   * DetectEngineWarning: the same pattern against the warning limits, latching at half the failure
   * depth; the failure latches and counters are never touched.
   */
  function WarningStep(h: Health, r: Option<Reading>, lim: Limits, countToBeFail: int, now: string): (res: (Health, bool))
    ensures res.0.vibWarningCount == (if AnyAxisAtLeast(r, lim.vibWarning) then h.vibWarningCount + 1 else 0)
    ensures res.0.tempWarningCount == (if TempAtLeast(r, lim.tempWarning) then h.tempWarningCount + 1 else 0)
    ensures (!h.vibWarning && res.0.vibWarning) <==>
              (WarningDepthReached(res.0.vibWarningCount, countToBeFail) && !h.vibWarning)
    ensures (!h.tempWarning && res.0.tempWarning) <==>
              (WarningDepthReached(res.0.tempWarningCount, countToBeFail) && !h.tempWarning
               && !(WarningDepthReached(res.0.vibWarningCount, countToBeFail) && !h.vibWarning))
    ensures !((!h.vibWarning && res.0.vibWarning) && (!h.tempWarning && res.0.tempWarning))
    ensures res.1 <==> ((!h.vibWarning && res.0.vibWarning) || (!h.tempWarning && res.0.tempWarning))
    ensures h.vibWarning ==> res.0.vibWarning
    ensures h.tempWarning ==> res.0.tempWarning
    ensures res.0.vibFailure == h.vibFailure && res.0.tempFailure == h.tempFailure
    ensures res.0.vibErrorCount == h.vibErrorCount && res.0.tempErrorCount == h.tempErrorCount
    ensures res.0.vibHealthyCount == h.vibHealthyCount && res.0.tempHealthyCount == h.tempHealthyCount
    ensures res.0.vibNoFailureCount == h.vibNoFailureCount && res.0.tempNoFailureCount == h.tempNoFailureCount
    ensures res.1 ==> res.0.error.date == Some(now)
    ensures res.1 ==> res.0.error.failure ==
                        Some(if !h.vibWarning && res.0.vibWarning then VibrationWarning else TemperatureWarning)
    ensures !res.1 ==> res.0.error == h.error
    ensures res.0.error.port == h.error.port && res.0.error.cmtk == h.error.cmtk
  {
    var h1 := WarningCounts(h, r, lim);
    if WarningDepthReached(h1.vibWarningCount, countToBeFail) && !h1.vibWarning then
      (Raise(h1.(vibWarning := true), VibrationWarning, now), true)
    else if WarningDepthReached(h1.tempWarningCount, countToBeFail) && !h1.tempWarning then
      (Raise(h1.(tempWarning := true), TemperatureWarning, now), true)
    else
      (h1, false)
  }

  /**
   * The four recovery counters after the first update of DetectEngineOk (one per track, before any
   * `updateStatus` call): healthy = below the warning limit, no-failure = below the failure limit,
   * on ALL axes for vibration.
   */
  function FirstVibHealthy(h: Health, r: Option<Reading>, lim: Limits): nat {
    Bump(h.vibHealthyCount, AllAxesBelow(r, lim.vibWarning))
  }
  function FirstTempHealthy(h: Health, r: Option<Reading>, lim: Limits): nat {
    Bump(h.tempHealthyCount, TempBelow(r, lim.tempWarning))
  }
  function FirstVibNoFailure(h: Health, r: Option<Reading>, lim: Limits): nat {
    Bump(h.vibNoFailureCount, AllAxesBelow(r, lim.vibFailure))
  }
  function FirstTempNoFailure(h: Health, r: Option<Reading>, lim: Limits): nat {
    Bump(h.tempNoFailureCount, TempBelow(r, lim.tempFailure))
  }

  /** The state after the first update of DetectEngineOk, before any `updateStatus` call. */
  function FirstUpdate(h: Health, r: Option<Reading>, lim: Limits): Health {
    h.(vibHealthyCount := FirstVibHealthy(h, r, lim),
       tempHealthyCount := FirstTempHealthy(h, r, lim),
       vibNoFailureCount := FirstVibNoFailure(h, r, lim),
       tempNoFailureCount := FirstTempNoFailure(h, r, lim))
  }

  /** The four recovery tracks of DetectEngineOk: a counter and the latch it can clear. */
  datatype Track = VibHealthy | TempHealthy | VibNoFailure | TempNoFailure

  function TrackCount(h: Health, t: Track): nat {
    match t
    case VibHealthy => h.vibHealthyCount
    case TempHealthy => h.tempHealthyCount
    case VibNoFailure => h.vibNoFailureCount
    case TempNoFailure => h.tempNoFailureCount
  }

  function TrackLatch(h: Health, t: Track): bool {
    match t
    case VibHealthy => h.vibWarning
    case TempHealthy => h.tempWarning
    case VibNoFailure => h.vibFailure
    case TempNoFailure => h.tempFailure
  }

  /** `h` with the counter and the latch of track `t` replaced. */
  function WithTrack(h: Health, t: Track, count: nat, latch: bool): Health {
    match t
    case VibHealthy => h.(vibHealthyCount := count, vibWarning := latch)
    case TempHealthy => h.(tempHealthyCount := count, tempWarning := latch)
    case VibNoFailure => h.(vibNoFailureCount := count, vibFailure := latch)
    case TempNoFailure => h.(tempNoFailureCount := count, tempFailure := latch)
  }

  /**
   * The `updateStatus` closure of DetectEngineOk on one track: its counter gets a second
   * `(count + 1) * latch`, and a set latch whose counter reaches the depth is cleared together with
   * the cause and date of the error record; every other track and field is left as it was.
   */
  function UpdateStatus(h: Health, t: Track, countThreshold: int): (res: (Health, bool))
    ensures TrackCount(res.0, t) == (if TrackLatch(h, t) then TrackCount(h, t) + 1 else 0)
    ensures res.1 <==> TrackLatch(h, t) && TrackCount(h, t) + 1 >= countThreshold
    ensures TrackLatch(res.0, t) == (TrackLatch(h, t) && !res.1)
    ensures res.1 ==> res.0.error == h.error.(failure := None, date := None)
    ensures !res.1 ==> res.0.error == h.error
    ensures forall u :: u != t ==> TrackCount(res.0, u) == TrackCount(h, u) && TrackLatch(res.0, u) == TrackLatch(h, u)
    ensures res.0.vibErrorCount == h.vibErrorCount && res.0.tempErrorCount == h.tempErrorCount
    ensures res.0.vibWarningCount == h.vibWarningCount && res.0.tempWarningCount == h.tempWarningCount
  {
    var latch := TrackLatch(h, t);
    var count := Bump(TrackCount(h, t), latch);
    var cleared := count >= countThreshold && latch;
    (WithTrack(if cleared then Cleared(h) else h, t, count, latch && !cleared), cleared)
  }

  /**
   * DetectEngineOk: after the first update of all four recovery counters, `updateStatus` runs on the
   * tracks vibWarning, tempWarning, vibFailure, tempFailure in that order, each time giving its
   * counter a second `(count + 1) * latch`; the first track whose latch is set and whose counter
   * reaches `countToBeHealth` clears that latch and the error record, and stops the call.
   */
  function OkStep(h: Health, r: Option<Reading>, lim: Limits, countToBeHealth: int): (res: (Health, bool))
    // no latch is ever set, and at most one is cleared
    ensures res.0.vibWarning ==> h.vibWarning
    ensures res.0.tempWarning ==> h.tempWarning
    ensures res.0.vibFailure ==> h.vibFailure
    ensures res.0.tempFailure ==> h.tempFailure
    ensures res.1 <==> ((h.vibWarning && !res.0.vibWarning) || (h.tempWarning && !res.0.tempWarning)
                        || (h.vibFailure && !res.0.vibFailure) || (h.tempFailure && !res.0.tempFailure))
    // which latch is cleared: the first in the order whose doubled counter reaches the depth
    ensures (h.vibWarning && !res.0.vibWarning) <==>
              (h.vibWarning && FirstVibHealthy(h, r, lim) + 1 >= countToBeHealth)
    ensures (h.tempWarning && !res.0.tempWarning) <==>
              (!(h.vibWarning && FirstVibHealthy(h, r, lim) + 1 >= countToBeHealth)
               && h.tempWarning && FirstTempHealthy(h, r, lim) + 1 >= countToBeHealth)
    ensures (h.vibFailure && !res.0.vibFailure) <==>
              (!(h.vibWarning && FirstVibHealthy(h, r, lim) + 1 >= countToBeHealth)
               && !(h.tempWarning && FirstTempHealthy(h, r, lim) + 1 >= countToBeHealth)
               && h.vibFailure && FirstVibNoFailure(h, r, lim) + 1 >= countToBeHealth)
    ensures (h.tempFailure && !res.0.tempFailure) <==>
              (!(h.vibWarning && FirstVibHealthy(h, r, lim) + 1 >= countToBeHealth)
               && !(h.tempWarning && FirstTempHealthy(h, r, lim) + 1 >= countToBeHealth)
               && !(h.vibFailure && FirstVibNoFailure(h, r, lim) + 1 >= countToBeHealth)
               && h.tempFailure && FirstTempNoFailure(h, r, lim) + 1 >= countToBeHealth)
    // the first track always runs: a clean reading advances a latched track by two, and an
    // unlatched track ends at zero
    ensures res.0.vibHealthyCount == (if h.vibWarning then FirstVibHealthy(h, r, lim) + 1 else 0)
    ensures h.vibWarning && AllAxesBelow(r, lim.vibWarning) ==> res.0.vibHealthyCount == h.vibHealthyCount + 2
    // a later track is updated a second time only when no earlier latch was cleared
    ensures res.0.tempHealthyCount ==
              if h.vibWarning && !res.0.vibWarning then FirstTempHealthy(h, r, lim)
              else if h.tempWarning then FirstTempHealthy(h, r, lim) + 1 else 0
    ensures res.0.vibNoFailureCount ==
              if (h.vibWarning && !res.0.vibWarning) || (h.tempWarning && !res.0.tempWarning)
              then FirstVibNoFailure(h, r, lim)
              else if h.vibFailure then FirstVibNoFailure(h, r, lim) + 1 else 0
    ensures res.0.tempNoFailureCount ==
              if res.1 && !(h.tempFailure && !res.0.tempFailure) then FirstTempNoFailure(h, r, lim)
              else if h.tempFailure then FirstTempNoFailure(h, r, lim) + 1 else 0
    // the error record is cleared exactly when a latch is cleared
    ensures res.1 ==> res.0.error.failure.None? && res.0.error.date.None?
    ensures !res.1 ==> res.0.error == h.error
    ensures res.0.error.port == h.error.port && res.0.error.cmtk == h.error.cmtk
    // the entering side is untouched
    ensures res.0.vibErrorCount == h.vibErrorCount && res.0.tempErrorCount == h.tempErrorCount
    ensures res.0.vibWarningCount == h.vibWarningCount && res.0.tempWarningCount == h.tempWarningCount
  {
    var h1 := FirstUpdate(h, r, lim);
    var (h2, c2) := UpdateStatus(h1, VibHealthy, countToBeHealth);
    if c2 then (h2, true)
    else
      var (h3, c3) := UpdateStatus(h2, TempHealthy, countToBeHealth);
      if c3 then (h3, true)
      else
        var (h4, c4) := UpdateStatus(h3, VibNoFailure, countToBeHealth);
        if c4 then (h4, true)
        else UpdateStatus(h4, TempNoFailure, countToBeHealth)
  }

  /**
   * One port in one monitoring tick: DetectEngineFailure, DetectEngineWarning, DetectEngineOk in
   * that order; the boolean is DetectEngineFailure's result, the only one the tick logs.
   */
  function PortTick(h: Health, r: Option<Reading>, lim: Limits, countToBeFail: int, countToBeHealth: int, now: string)
    : (res: (Health, bool))
    // a tick reports exactly the failures it newly latched (a latch that recovers within the same
    // tick needs a recovery depth of at most 1)
    ensures res.1 ==> (!h.vibFailure && FailureStep(h, r, lim, countToBeFail, now).0.vibFailure)
                      || (!h.tempFailure && FailureStep(h, r, lim, countToBeFail, now).0.tempFailure)
    ensures countToBeFail >= 1 && countToBeHealth >= 2 ==>
              (res.1 <==> (!h.vibFailure && res.0.vibFailure) || (!h.tempFailure && res.0.tempFailure))
    // a failure latch never goes from set to clear and back to set within one tick
    ensures res.0.vibFailure ==> h.vibFailure || res.1
    ensures res.0.tempFailure ==> h.tempFailure || res.1
  {
    var (h1, raised) := FailureStep(h, r, lim, countToBeFail, now);
    var (h2, _) := WarningStep(h1, r, lim, countToBeFail, now);
    var (h3, _) := OkStep(h2, r, lim, countToBeHealth);
    (h3, raised)
  }

  /** The health of a port after one tick per reading of `rs`, in order. */
  function Run(h: Health, rs: seq<Option<Reading>>, lim: Limits, countToBeFail: int, countToBeHealth: int, now: string)
    : Health
    decreases |rs|
  {
    if rs == [] then h
    else PortTick(Run(h, rs[..|rs| - 1], lim, countToBeFail, countToBeHealth, now), rs[|rs| - 1],
                  lim, countToBeFail, countToBeHealth, now).0
  }

  /** The number of readings at the end of `rs` that are bad on some vibration axis. */
  function TrailingVibFailures(rs: seq<Option<Reading>>, lim: Limits): (n: nat)
    ensures n <= |rs|
    decreases |rs|
  {
    if rs == [] || !AnyAxisAtLeast(rs[|rs| - 1], lim.vibFailure) then 0
    else TrailingVibFailures(rs[..|rs| - 1], lim) + 1
  }

  /**
   * The vibration error counter is the length of the trailing run of bad readings (continued from
   * the starting count when every reading was bad): any good reading resets it.
   */
  lemma {:induction false} VibErrorCountIsTrailingRun(h: Health, rs: seq<Option<Reading>>, lim: Limits,
                                                      countToBeFail: int, countToBeHealth: int, now: string)
    ensures Run(h, rs, lim, countToBeFail, countToBeHealth, now).vibErrorCount ==
              if TrailingVibFailures(rs, lim) == |rs| then h.vibErrorCount + |rs| else TrailingVibFailures(rs, lim)
    decreases |rs|
  {
    if rs != [] {
      VibErrorCountIsTrailingRun(h, rs[..|rs| - 1], lim, countToBeFail, countToBeHealth, now);
    }
  }

  /**
   * From a port with no vibration failure and a zero error counter, consecutive bad vibration
   * readings latch the failure exactly at the `countToBeFail`-th reading, and it stays latched while
   * the readings stay bad (recovery needs at least two healthy counts).
   */
  lemma {:induction false} VibFailureLatchesAtDepth(h: Health, rs: seq<Option<Reading>>, lim: Limits,
                                                    countToBeFail: int, countToBeHealth: int, now: string)
    requires countToBeFail >= 1 && countToBeHealth >= 2
    requires !h.vibFailure && h.vibErrorCount == 0
    requires forall i :: 0 <= i < |rs| ==> AnyAxisAtLeast(rs[i], lim.vibFailure)
    ensures Run(h, rs, lim, countToBeFail, countToBeHealth, now).vibErrorCount == |rs|
    ensures Run(h, rs, lim, countToBeFail, countToBeHealth, now).vibFailure <==> |rs| >= countToBeFail
    decreases |rs|
  {
    if rs != [] {
      var prefix := rs[..|rs| - 1];
      VibFailureLatchesAtDepth(h, prefix, lim, countToBeFail, countToBeHealth, now);
      var before := Run(h, prefix, lim, countToBeFail, countToBeHealth, now);
      var r := rs[|rs| - 1];
      assert AnyAxisAtLeast(r, lim.vibFailure);
      var (h1, _) := FailureStep(before, r, lim, countToBeFail, now);
      var (h2, _) := WarningStep(h1, r, lim, countToBeFail, now);
      assert FirstVibNoFailure(h2, r, lim) == 0;
    }
  }

  /** Healthy on every track: below both limits on all axes and in temperature. */
  predicate Clean(r: Option<Reading>, lim: Limits) {
    AllAxesBelow(r, lim.vibWarning) && AllAxesBelow(r, lim.vibFailure)
    && TempBelow(r, lim.tempWarning) && TempBelow(r, lim.tempFailure)
  }

  /**
   * A latched vibration failure, with no warning latched, heals after clean readings: every clean
   * reading advances the no-failure counter by two, so the latch clears as soon as the starting count
   * plus twice the number of readings reaches `countToBeHealth`, i.e. after half the recovery depth.
   */
  lemma {:induction false} VibFailureHeals(h: Health, rs: seq<Option<Reading>>, lim: Limits,
                                           countToBeFail: int, countToBeHealth: int, now: string)
    requires countToBeFail >= 1
    requires h.vibFailure && !h.vibWarning && !h.tempWarning && h.vibNoFailureCount < countToBeHealth
    requires forall i :: 0 <= i < |rs| ==> Clean(rs[i], lim)
    ensures !Run(h, rs, lim, countToBeFail, countToBeHealth, now).vibWarning
    ensures !Run(h, rs, lim, countToBeFail, countToBeHealth, now).tempWarning
    ensures Run(h, rs, lim, countToBeFail, countToBeHealth, now).vibFailure <==>
              h.vibNoFailureCount + 2 * |rs| < countToBeHealth
    ensures Run(h, rs, lim, countToBeFail, countToBeHealth, now).vibFailure ==>
              Run(h, rs, lim, countToBeFail, countToBeHealth, now).vibNoFailureCount == h.vibNoFailureCount + 2 * |rs|
    decreases |rs|
  {
    if rs != [] {
      var prefix := rs[..|rs| - 1];
      VibFailureHeals(h, prefix, lim, countToBeFail, countToBeHealth, now);
      var before := Run(h, prefix, lim, countToBeFail, countToBeHealth, now);
      var r := rs[|rs| - 1];
      assert Clean(r, lim);
      var (h1, _) := FailureStep(before, r, lim, countToBeFail, now);
      var (h2, _) := WarningStep(h1, r, lim, countToBeFail, now);
      assert !h2.vibWarning && !h2.tempWarning;
    }
  }

  /**
   * A latched temperature failure, with no warning and no vibration failure latched, heals after
   * clean readings: the no-failure counter advances by two per reading, so the latch clears as soon as
   * the starting count plus twice the number of readings reaches `countToBeHealth`.
   */
  lemma {:induction false} TempFailureHeals(h: Health, rs: seq<Option<Reading>>, lim: Limits,
                                            countToBeFail: int, countToBeHealth: int, now: string)
    requires countToBeFail >= 1
    requires h.tempFailure && !h.vibWarning && !h.tempWarning && !h.vibFailure
    requires h.tempNoFailureCount < countToBeHealth
    requires forall i :: 0 <= i < |rs| ==> Clean(rs[i], lim)
    ensures !Run(h, rs, lim, countToBeFail, countToBeHealth, now).vibWarning
    ensures !Run(h, rs, lim, countToBeFail, countToBeHealth, now).tempWarning
    ensures !Run(h, rs, lim, countToBeFail, countToBeHealth, now).vibFailure
    ensures Run(h, rs, lim, countToBeFail, countToBeHealth, now).tempFailure <==>
              h.tempNoFailureCount + 2 * |rs| < countToBeHealth
    ensures Run(h, rs, lim, countToBeFail, countToBeHealth, now).tempFailure ==>
              Run(h, rs, lim, countToBeFail, countToBeHealth, now).tempNoFailureCount == h.tempNoFailureCount + 2 * |rs|
    decreases |rs|
  {
    if rs != [] {
      var prefix := rs[..|rs| - 1];
      TempFailureHeals(h, prefix, lim, countToBeFail, countToBeHealth, now);
      var before := Run(h, prefix, lim, countToBeFail, countToBeHealth, now);
      var r := rs[|rs| - 1];
      assert Clean(r, lim);
      var (h1, _) := FailureStep(before, r, lim, countToBeFail, now);
      var (h2, _) := WarningStep(h1, r, lim, countToBeFail, now);
      assert !h2.vibWarning && !h2.tempWarning && !h2.vibFailure;
    }
  }

  function Max0(x: int): nat {
    if x > 0 then x else 0
  }

  /** How many latches are set. */
  function LatchCount(h: Health): nat {
    (if h.vibWarning then 1 else 0) + (if h.tempWarning then 1 else 0)
    + (if h.vibFailure then 1 else 0) + (if h.tempFailure then 1 else 0)
  }

  /** How far a latched track's counter is from clearing on a clean reading (0 for a clear latch). */
  function Shortfall(h: Health, t: Track, countToBeHealth: int): nat {
    if TrackLatch(h, t) then Max0(countToBeHealth - 2 - TrackCount(h, t)) else 0
  }

  function MaxShortfall(h: Health, countToBeHealth: int): nat {
    var a := Shortfall(h, VibHealthy, countToBeHealth);
    var b := Shortfall(h, TempHealthy, countToBeHealth);
    var c := Shortfall(h, VibNoFailure, countToBeHealth);
    var d := Shortfall(h, TempNoFailure, countToBeHealth);
    var ab := if a >= b then a else b;
    var cd := if c >= d then c else d;
    if ab >= cd then ab else cd
  }

  /**
   * The number of clean readings after which a port has no latch left: one per latch (at most one
   * clears per call), plus the calls the slowest latched counter needs at two counts per call.  It
   * is zero exactly when nothing is latched, and never more than four plus half the recovery depth.
   */
  function HealingBound(h: Health, countToBeHealth: int): (n: nat)
    ensures n == 0 <==> !h.vibWarning && !h.tempWarning && !h.vibFailure && !h.tempFailure
    ensures n <= 4 + (Max0(countToBeHealth - 2) + 1) / 2
  {
    LatchCount(h) + (MaxShortfall(h, countToBeHealth) + 1) / 2
  }

  /**
   * What a clean reading does to track `t` in a call of DetectEngineOk that `cleared` some latch or
   * not: a latch stays set only with a higher counter, and when no latch cleared every latched
   * counter advanced by two without reaching the depth.
   */
  predicate TrackAdvanced(h: Health, h': Health, t: Track, cleared: bool, countToBeHealth: int) {
    && (TrackLatch(h', t) ==> TrackLatch(h, t) && TrackCount(h', t) >= TrackCount(h, t) + 1)
    && (!cleared && TrackLatch(h, t) ==>
          TrackLatch(h', t) && TrackCount(h', t) == TrackCount(h, t) + 2 && TrackCount(h', t) < countToBeHealth)
  }

  /** DetectEngineOk on a clean reading advances every track, and clears exactly one latch or none. */
  lemma OkStepOnClean(h: Health, r: Option<Reading>, lim: Limits, countToBeHealth: int)
    requires Clean(r, lim)
    ensures var (h', cleared) := OkStep(h, r, lim, countToBeHealth);
      && TrackAdvanced(h, h', VibHealthy, cleared, countToBeHealth)
      && TrackAdvanced(h, h', TempHealthy, cleared, countToBeHealth)
      && TrackAdvanced(h, h', VibNoFailure, cleared, countToBeHealth)
      && TrackAdvanced(h, h', TempNoFailure, cleared, countToBeHealth)
      && LatchCount(h') + (if cleared then 1 else 0) == LatchCount(h)
  {
    forall t: Track
      ensures TrackAdvanced(h, OkStep(h, r, lim, countToBeHealth).0, t, OkStep(h, r, lim, countToBeHealth).1,
                            countToBeHealth)
    {
      OkTrackOnClean(h, r, lim, countToBeHealth, t);
    }
  }

  /** OkStepOnClean for one track. */
  lemma OkTrackOnClean(h: Health, r: Option<Reading>, lim: Limits, countToBeHealth: int, t: Track)
    requires Clean(r, lim)
    ensures var (h', cleared) := OkStep(h, r, lim, countToBeHealth);
      TrackAdvanced(h, h', t, cleared, countToBeHealth)
  {
    match t
    case VibHealthy =>
      assert FirstVibHealthy(h, r, lim) == h.vibHealthyCount + 1;
    case TempHealthy =>
      assert FirstTempHealthy(h, r, lim) == h.tempHealthyCount + 1;
    case VibNoFailure =>
      assert FirstVibNoFailure(h, r, lim) == h.vibNoFailureCount + 1;
    case TempNoFailure =>
      assert FirstTempNoFailure(h, r, lim) == h.tempNoFailureCount + 1;
  }

  /** When every track advanced, the healing bound of a port with a latch set falls by at least one. */
  lemma BoundFalls(h: Health, h': Health, cleared: bool, countToBeHealth: int)
    requires TrackAdvanced(h, h', VibHealthy, cleared, countToBeHealth)
    requires TrackAdvanced(h, h', TempHealthy, cleared, countToBeHealth)
    requires TrackAdvanced(h, h', VibNoFailure, cleared, countToBeHealth)
    requires TrackAdvanced(h, h', TempNoFailure, cleared, countToBeHealth)
    requires LatchCount(h') + (if cleared then 1 else 0) == LatchCount(h)
    ensures HealingBound(h, countToBeHealth) > 0 ==> HealingBound(h', countToBeHealth) < HealingBound(h, countToBeHealth)
  {
    var cth := countToBeHealth;
    forall t: Track
      ensures Shortfall(h', t, cth) <= Shortfall(h, t, cth)
      ensures !cleared && TrackLatch(h, t) ==>
                Shortfall(h, t, cth) >= 1 && Shortfall(h', t, cth) == Max0(Shortfall(h, t, cth) - 2)
    {
      assert TrackAdvanced(h, h', t, cleared, cth) by {
        match t
        case VibHealthy =>
        case TempHealthy =>
        case VibNoFailure =>
        case TempNoFailure =>
      }
      ShortfallFalls(h, h', t, cleared, cth);
    }
    if !cleared && LatchCount(h) > 0 {
      assert MaxShortfall(h', cth) == Max0(MaxShortfall(h, cth) - 2) by {
        assert h'.vibWarning == h.vibWarning && h'.tempWarning == h.tempWarning;
        assert h'.vibFailure == h.vibFailure && h'.tempFailure == h.tempFailure;
      }
    }
  }

  /** A track that advanced is no further from clearing, and two steps nearer when no latch cleared. */
  lemma ShortfallFalls(h: Health, h': Health, t: Track, cleared: bool, countToBeHealth: int)
    requires TrackAdvanced(h, h', t, cleared, countToBeHealth)
    ensures Shortfall(h', t, countToBeHealth) <= Shortfall(h, t, countToBeHealth)
    ensures !cleared && TrackLatch(h, t) ==>
              Shortfall(h, t, countToBeHealth) >= 1 &&
              Shortfall(h', t, countToBeHealth) == Max0(Shortfall(h, t, countToBeHealth) - 2)
  {
  }

  /**
   * One tick on a clean reading never sets a latch, and while some latch is set it brings the
   * healing bound down by at least one: either a latch clears and every other latched counter
   * advances, or none clears and every latched counter advances by two.
   */
  lemma CleanTickHeals(h: Health, r: Option<Reading>, lim: Limits, countToBeFail: int, countToBeHealth: int,
                       now: string)
    requires countToBeFail >= 1 && Clean(r, lim)
    ensures var h' := PortTick(h, r, lim, countToBeFail, countToBeHealth, now).0;
      && (h'.vibWarning ==> h.vibWarning) && (h'.tempWarning ==> h.tempWarning)
      && (h'.vibFailure ==> h.vibFailure) && (h'.tempFailure ==> h.tempFailure)
      && (HealingBound(h, countToBeHealth) > 0 ==> HealingBound(h', countToBeHealth) < HealingBound(h, countToBeHealth))
  {
    var h2 := WarningStep(FailureStep(h, r, lim, countToBeFail, now).0, r, lim, countToBeFail, now).0;
    CleanKeepsCounts(h, r, lim, countToBeFail, now);
    SameCountsSameBound(h, h2, countToBeHealth);
    var (h3, cleared) := OkStep(h2, r, lim, countToBeHealth);
    OkStepOnClean(h2, r, lim, countToBeHealth);
    BoundFalls(h2, h3, cleared, countToBeHealth);
  }

  /** The healing bound depends only on the latches and the recovery counters. */
  lemma SameCountsSameBound(h: Health, h2: Health, countToBeHealth: int)
    requires h2.vibWarning == h.vibWarning && h2.tempWarning == h.tempWarning
    requires h2.vibFailure == h.vibFailure && h2.tempFailure == h.tempFailure
    requires h2.vibHealthyCount == h.vibHealthyCount && h2.tempHealthyCount == h.tempHealthyCount
    requires h2.vibNoFailureCount == h.vibNoFailureCount && h2.tempNoFailureCount == h.tempNoFailureCount
    ensures HealingBound(h2, countToBeHealth) == HealingBound(h, countToBeHealth)
  {
    assert MaxShortfall(h2, countToBeHealth) == MaxShortfall(h, countToBeHealth);
  }

  /** On a clean reading, the failure and warning passes leave every latch and recovery counter alone. */
  lemma CleanKeepsCounts(h: Health, r: Option<Reading>, lim: Limits, countToBeFail: int, now: string)
    requires countToBeFail >= 1 && Clean(r, lim)
    ensures var h2 := WarningStep(FailureStep(h, r, lim, countToBeFail, now).0, r, lim, countToBeFail, now).0;
      && h2.vibWarning == h.vibWarning && h2.tempWarning == h.tempWarning
      && h2.vibFailure == h.vibFailure && h2.tempFailure == h.tempFailure
      && h2.vibHealthyCount == h.vibHealthyCount && h2.tempHealthyCount == h.tempHealthyCount
      && h2.vibNoFailureCount == h.vibNoFailureCount && h2.tempNoFailureCount == h.tempNoFailureCount
  {
  }

  /**
   * With a failure depth of at least 1, every latch heals on clean readings, from ANY state: after
   * `HealingBound(h)` clean readings (at most four plus half the recovery depth) no warning and no
   * failure is latched.  The bound is the number of readings still to go: it falls by one per
   * reading until it reaches zero.
   */
  lemma {:induction false} AllLatchesHeal(h: Health, rs: seq<Option<Reading>>, lim: Limits,
                                          countToBeFail: int, countToBeHealth: int, now: string)
    requires countToBeFail >= 1
    requires forall i :: 0 <= i < |rs| ==> Clean(rs[i], lim)
    ensures HealingBound(Run(h, rs, lim, countToBeFail, countToBeHealth, now), countToBeHealth)
              <= Max0(HealingBound(h, countToBeHealth) - |rs|)
    ensures |rs| >= HealingBound(h, countToBeHealth) ==>
              var h' := Run(h, rs, lim, countToBeFail, countToBeHealth, now);
              !h'.vibWarning && !h'.tempWarning && !h'.vibFailure && !h'.tempFailure
    ensures |rs| >= 4 + (Max0(countToBeHealth - 2) + 1) / 2 ==>
              var h' := Run(h, rs, lim, countToBeFail, countToBeHealth, now);
              !h'.vibWarning && !h'.tempWarning && !h'.vibFailure && !h'.tempFailure
    decreases |rs|
  {
    if rs != [] {
      var prefix := rs[..|rs| - 1];
      AllLatchesHeal(h, prefix, lim, countToBeFail, countToBeHealth, now);
      var before := Run(h, prefix, lim, countToBeFail, countToBeHealth, now);
      assert Clean(rs[|rs| - 1], lim);
      CleanTickHeals(before, rs[|rs| - 1], lim, countToBeFail, countToBeHealth, now);
    }
  }

  /**
   * A recovery counter as the source holds it, a JavaScript number: `vibNoFailureCount` and
   * `tempNoFailureCount` are declared without an initial value, so they start as `undefined`, and
   * `undefined + 1` is NaN.
   */
  datatype JsCount = Num(n: nat) | NaN

  /** `(count + 1) * flag` on a JavaScript number: NaN stays NaN. */
  function JsBump(c: JsCount, holds: bool): (r: JsCount)
    ensures r.NaN? <==> c.NaN?
    ensures c.Num? ==> r.n == (if holds then c.n + 1 else 0)
  {
    match c
    case NaN => NaN
    case Num(n) => Num(Bump(n, holds))
  }

  /** `count >= depth`: every comparison with NaN is false. */
  predicate JsAtLeast(c: JsCount, depth: int) {
    c.Num? && c.n >= depth
  }

  /**
   * One DetectEngineOk pass over a failure track (its no-failure counter and failure latch) as the
   * source runs it, on a JavaScript counter: the first update with the reading, then `updateStatus`.
   * The boolean result is the latch afterwards.  On a number it agrees with the track of `OkStep`
   * when no earlier track clears in the same call (`FailureTracksAgree`); on NaN the counter stays
   * NaN and the latch never clears.
   */
  function FailureTrackAsWritten(c: JsCount, latched: bool, good: bool, countToBeHealth: int): (res: (JsCount, bool))
    ensures c.NaN? ==> res.0.NaN? && res.1 == latched
    ensures c.Num? ==> res.0 == Num(Bump(Bump(c.n, good), latched))
    ensures c.Num? ==> res.1 == (latched && Bump(Bump(c.n, good), latched) < countToBeHealth)
  {
    var c1 := JsBump(JsBump(c, good), latched);
    (c1, latched && !JsAtLeast(c1, countToBeHealth))
  }

  /**
   * On numeric counters, the failure tracks as written are the failure tracks of `OkStep`, as long as
   * no track before them clears in the same call (a clearance ends the call before their second
   * update).
   */
  lemma FailureTracksAgree(h: Health, r: Option<Reading>, lim: Limits, countToBeHealth: int)
    ensures var res := OkStep(h, r, lim, countToBeHealth).0;
            !(h.vibWarning && !res.vibWarning) && !(h.tempWarning && !res.tempWarning) ==>
              FailureTrackAsWritten(Num(h.vibNoFailureCount), h.vibFailure, AllAxesBelow(r, lim.vibFailure),
                                    countToBeHealth)
              == (Num(res.vibNoFailureCount), res.vibFailure)
    ensures var res := OkStep(h, r, lim, countToBeHealth).0;
            !(h.vibWarning && !res.vibWarning) && !(h.tempWarning && !res.tempWarning)
            && !(h.vibFailure && !res.vibFailure) ==>
              FailureTrackAsWritten(Num(h.tempNoFailureCount), h.tempFailure, TempBelow(r, lim.tempFailure),
                                    countToBeHealth)
              == (Num(res.tempNoFailureCount), res.tempFailure)
  {
  }

  /** The failure track after one pass per reading quality in `goods`. */
  function RunTrackAsWritten(c: JsCount, latched: bool, goods: seq<bool>, countToBeHealth: int): (JsCount, bool)
    decreases |goods|
  {
    if goods == [] then (c, latched)
    else
      var (c1, l1) := RunTrackAsWritten(c, latched, goods[..|goods| - 1], countToBeHealth);
      FailureTrackAsWritten(c1, l1, goods[|goods| - 1], countToBeHealth)
  }

  /**
   * As the source is written, a failure latch never heals: starting from the uninitialised counter,
   * no sequence of readings, however healthy, clears it.
   */
  lemma {:induction false} AsWrittenFailureNeverHeals(goods: seq<bool>, countToBeHealth: int)
    ensures RunTrackAsWritten(NaN, true, goods, countToBeHealth) == (NaN, true)
    decreases |goods|
  {
    if goods != [] {
      AsWrittenFailureNeverHeals(goods[..|goods| - 1], countToBeHealth);
    }
  }
}
