/**
 * The Sensor class of backend/ApiSensors.js: one IO-Link port of a CMTK gateway, with its
 * thresholds, the debounce counters and latches of the engine, its error record and two history
 * queues used to adapt the thresholds.
 *
 * The static `countToBeFail`/`countToBeHealth` shared by every sensor are the fields of one
 * `Settings` object that the detection methods read.  Each Detect method is proved against the pure
 * step function of the Hysteresis module; the queue methods are proved against the Queue class.
 */
module ApiSensors {
  import opened Wrappers
  import opened Queues
  import opened Hysteresis
  import opened Thresholds

  /** The two hysteresis depths shared by every sensor (the class's static fields). */
  class Settings {
    var countToBeFail: int
    var countToBeHealth: int

    constructor()
      ensures countToBeFail == 10 && countToBeHealth == 20
    {
      countToBeFail := 10;
      countToBeHealth := 20;
    }

    /** SetCountToFail: replaces the failure depth and returns it. */
    method SetCountToFail(secondsToFail: int) returns (r: int)
      modifies this
      ensures countToBeFail == secondsToFail && r == secondsToFail
      ensures countToBeHealth == old(countToBeHealth)
    {
      countToBeFail := secondsToFail;
      r := countToBeFail;
    }

    /** SetCountToHealth: replaces the recovery depth and returns it. */
    method SetCountToHealth(secondsToHealth: int) returns (r: int)
      modifies this
      ensures countToBeHealth == secondsToHealth && r == secondsToHealth
      ensures countToBeFail == old(countToBeFail)
    {
      countToBeHealth := secondsToHealth;
      r := countToBeHealth;
    }
  }

  /** The vibration magnitude stored in the speeds history: the Euclidean norm of the three axes. */
  function Magnitude(r: Reading, sqrt: real -> real): real {
    sqrt(r.velX * r.velX + r.velY * r.velY + r.velZ * r.velZ)
  }

  class Sensor {
    var name: string
    const cmtkPort: string
    var vibValueFailure: real
    var tempValueFailure: real
    var vibValueWarning: real
    var tempValueWarning: real
    /** `None` until the first MQTT message arrives (the source's empty array). */
    var lastReadValues: Option<Reading>
    var tempErrorCount: nat
    var tempWarningCount: nat
    var vibErrorCount: nat
    var vibWarningCount: nat
    var tempHealthyCount: nat
    var vibHealthyCount: nat
    var tempNoFailureCount: nat
    var vibNoFailureCount: nat
    var tempWarning: bool
    var vibWarning: bool
    var tempFailure: bool
    var vibFailure: bool
    var error: ErrorRecord
    const speedsHistoryQueue: Queue<real>
    const temperatureHistoryQueue: Queue<real>

    /** The two history queues are distinct, well formed and of the default capacity. */
    ghost predicate Valid()
      reads speedsHistoryQueue, temperatureHistoryQueue
    {
      && speedsHistoryQueue != temperatureHistoryQueue
      && speedsHistoryQueue.Valid() && temperatureHistoryQueue.Valid()
      && speedsHistoryQueue.size == DefaultSize && temperatureHistoryQueue.size == DefaultSize
    }

    /**
     * Between two MQTT messages neither queue is full, and each holds its values in arrival order from
     * index 0: a message that fills a queue also empties it, and nothing ever reads them.
     */
    ghost predicate Resting()
      reads speedsHistoryQueue, temperatureHistoryQueue
    {
      && !speedsHistoryQueue.isFull && speedsHistoryQueue.queue == speedsHistoryQueue.items
      && !temperatureHistoryQueue.isFull && temperatureHistoryQueue.queue == temperatureHistoryQueue.items
    }

    /** The part of the state the detection engine works on. */
    function Snapshot(): Health
      reads this
    {
      Health(vibErrorCount, tempErrorCount, vibWarningCount, tempWarningCount,
             vibHealthyCount, tempHealthyCount, vibNoFailureCount, tempNoFailureCount,
             vibWarning, tempWarning, vibFailure, tempFailure, error)
    }

    function CurrentLimits(): Limits
      reads this
    {
      Limits(vibValueFailure, vibValueWarning, tempValueFailure, tempValueWarning)
    }

    /**
     * A sensor for port `name` of gateway `cmtk`: the default limits, no reading yet, every counter
     * at zero (see the Findings of the README for `tempNoFailureCount`/`vibNoFailureCount`), no
     * latch, an error record naming the port and gateway, and two empty history queues.
     */
    constructor(name: string, cmtkPort: string, cmtk: string)
      ensures Valid() && Resting() && fresh(speedsHistoryQueue) && fresh(temperatureHistoryQueue)
      ensures this.name == name && this.cmtkPort == cmtkPort
      ensures CurrentLimits() == Limits(4.0, 2.0, 20.0, 10.0)
      ensures lastReadValues.None?
      ensures Snapshot() == Health(0, 0, 0, 0, 0, 0, 0, 0, false, false, false, false,
                                   ErrorRecord(name, cmtk, None, None))
      ensures speedsHistoryQueue.items == [] && temperatureHistoryQueue.items == []
    {
      this.name := name;
      this.cmtkPort := cmtkPort;
      vibValueFailure := 4.0;
      tempValueFailure := 20.0;
      vibValueWarning := 2.0;
      tempValueWarning := 10.0;
      lastReadValues := None;
      tempErrorCount := 0;
      tempWarningCount := 0;
      vibErrorCount := 0;
      vibWarningCount := 0;
      tempHealthyCount := 0;
      vibHealthyCount := 0;
      tempNoFailureCount := 0;
      vibNoFailureCount := 0;
      tempWarning := false;
      vibWarning := false;
      tempFailure := false;
      vibFailure := false;
      error := ErrorRecord(name, cmtk, None, None);
      speedsHistoryQueue := new Queue(DefaultSize);
      temperatureHistoryQueue := new Queue(DefaultSize);
    }

    /** The counter update that opens DetectEngineFailure: one sample more, or back to zero. */
    method CountFailures()
      modifies this
      ensures Snapshot() == FailureCounts(old(Snapshot()), lastReadValues, CurrentLimits())
      ensures lastReadValues == old(lastReadValues) && CurrentLimits() == old(CurrentLimits()) && name == old(name)
    {
      var vibError := AnyAxisAtLeast(lastReadValues, vibValueFailure);
      var tempError := TempAtLeast(lastReadValues, tempValueFailure);
      vibErrorCount := Bump(vibErrorCount, vibError);
      tempErrorCount := Bump(tempErrorCount, tempError);
    }

    /** DetectEngineFailure, timestamped `now`. */
    method DetectEngineFailure(settings: Settings, now: string) returns (raised: bool)
      modifies this
      ensures (Snapshot(), raised) == FailureStep(old(Snapshot()), lastReadValues, CurrentLimits(),
                                                  settings.countToBeFail, now)
      ensures lastReadValues == old(lastReadValues) && CurrentLimits() == old(CurrentLimits()) && name == old(name)
    {
      CountFailures();
      if vibErrorCount >= settings.countToBeFail && !vibFailure {
        vibFailure := true;
        error := error.(failure := Some(VibrationError), date := Some(now));
        return true;
      }
      if tempErrorCount >= settings.countToBeFail && !tempFailure {
        tempFailure := true;
        error := error.(failure := Some(TemperatureError), date := Some(now));
        return true;
      }
      return false;
    }

    /** The counter update that opens DetectEngineWarning. */
    method CountWarnings()
      modifies this
      ensures Snapshot() == WarningCounts(old(Snapshot()), lastReadValues, CurrentLimits())
      ensures lastReadValues == old(lastReadValues) && CurrentLimits() == old(CurrentLimits()) && name == old(name)
    {
      var vibBad := AnyAxisAtLeast(lastReadValues, vibValueWarning);
      var tempBad := TempAtLeast(lastReadValues, tempValueWarning);
      vibWarningCount := Bump(vibWarningCount, vibBad);
      tempWarningCount := Bump(tempWarningCount, tempBad);
    }

    /** DetectEngineWarning, timestamped `now`. */
    method DetectEngineWarning(settings: Settings, now: string) returns (raised: bool)
      modifies this
      ensures (Snapshot(), raised) == WarningStep(old(Snapshot()), lastReadValues, CurrentLimits(),
                                                  settings.countToBeFail, now)
      ensures lastReadValues == old(lastReadValues) && CurrentLimits() == old(CurrentLimits()) && name == old(name)
    {
      CountWarnings();
      if WarningDepthReached(vibWarningCount, settings.countToBeFail) && !vibWarning {
        vibWarning := true;
        error := error.(failure := Some(VibrationWarning), date := Some(now));
        return true;
      }
      if WarningDepthReached(tempWarningCount, settings.countToBeFail) && !tempWarning {
        tempWarning := true;
        error := error.(failure := Some(TemperatureWarning), date := Some(now));
        return true;
      }
      return false;
    }

    /** `updateStatus` on the vibration warning track. */
    method UpdateVibWarningStatus(countThreshold: int) returns (cleared: bool)
      modifies this
      ensures (Snapshot(), cleared) == Hysteresis.UpdateStatus(old(Snapshot()), VibHealthy, countThreshold)
      ensures lastReadValues == old(lastReadValues) && CurrentLimits() == old(CurrentLimits()) && name == old(name)
    {
      vibHealthyCount := Bump(vibHealthyCount, vibWarning);
      cleared := vibHealthyCount >= countThreshold && vibWarning;
      if cleared {
        vibWarning := false;
        error := error.(failure := None, date := None);
      }
    }

    /** `updateStatus` on the temperature warning track. */
    method UpdateTempWarningStatus(countThreshold: int) returns (cleared: bool)
      modifies this
      ensures (Snapshot(), cleared) == Hysteresis.UpdateStatus(old(Snapshot()), TempHealthy, countThreshold)
      ensures lastReadValues == old(lastReadValues) && CurrentLimits() == old(CurrentLimits()) && name == old(name)
    {
      tempHealthyCount := Bump(tempHealthyCount, tempWarning);
      cleared := tempHealthyCount >= countThreshold && tempWarning;
      if cleared {
        tempWarning := false;
        error := error.(failure := None, date := None);
      }
    }

    /** `updateStatus` on the vibration failure track. */
    method UpdateVibFailureStatus(countThreshold: int) returns (cleared: bool)
      modifies this
      ensures (Snapshot(), cleared) == Hysteresis.UpdateStatus(old(Snapshot()), VibNoFailure, countThreshold)
      ensures lastReadValues == old(lastReadValues) && CurrentLimits() == old(CurrentLimits()) && name == old(name)
    {
      vibNoFailureCount := Bump(vibNoFailureCount, vibFailure);
      cleared := vibNoFailureCount >= countThreshold && vibFailure;
      if cleared {
        vibFailure := false;
        error := error.(failure := None, date := None);
      }
    }

    /** `updateStatus` on the temperature failure track. */
    method UpdateTempFailureStatus(countThreshold: int) returns (cleared: bool)
      modifies this
      ensures (Snapshot(), cleared) == Hysteresis.UpdateStatus(old(Snapshot()), TempNoFailure, countThreshold)
      ensures lastReadValues == old(lastReadValues) && CurrentLimits() == old(CurrentLimits()) && name == old(name)
    {
      tempNoFailureCount := Bump(tempNoFailureCount, tempFailure);
      cleared := tempNoFailureCount >= countThreshold && tempFailure;
      if cleared {
        tempFailure := false;
        error := error.(failure := None, date := None);
      }
    }

    /** The first update of the four recovery counters in DetectEngineOk. */
    method CountRecoveries()
      modifies this
      ensures Snapshot() == FirstUpdate(old(Snapshot()), lastReadValues, CurrentLimits())
      ensures lastReadValues == old(lastReadValues) && CurrentLimits() == old(CurrentLimits()) && name == old(name)
    {
      var vibHealthy := AllAxesBelow(lastReadValues, vibValueWarning);
      var vibNoFailure := AllAxesBelow(lastReadValues, vibValueFailure);
      var tempHealthy := TempBelow(lastReadValues, tempValueWarning);
      var tempNoFailure := TempBelow(lastReadValues, tempValueFailure);
      vibHealthyCount := Bump(vibHealthyCount, vibHealthy);
      tempHealthyCount := Bump(tempHealthyCount, tempHealthy);
      vibNoFailureCount := Bump(vibNoFailureCount, vibNoFailure);
      tempNoFailureCount := Bump(tempNoFailureCount, tempNoFailure);
    }

    /** DetectEngineOk: the first update of the four recovery counters, then `updateStatus` in order. */
    method DetectEngineOk(settings: Settings) returns (cleared: bool)
      modifies this
      ensures (Snapshot(), cleared) == OkStep(old(Snapshot()), lastReadValues, CurrentLimits(),
                                              settings.countToBeHealth)
      ensures lastReadValues == old(lastReadValues) && CurrentLimits() == old(CurrentLimits()) && name == old(name)
    {
      CountRecoveries();
      cleared := UpdateVibWarningStatus(settings.countToBeHealth);
      if cleared {
        return;
      }
      cleared := UpdateTempWarningStatus(settings.countToBeHealth);
      if cleared {
        return;
      }
      cleared := UpdateVibFailureStatus(settings.countToBeHealth);
      if cleared {
        return;
      }
      cleared := UpdateTempFailureStatus(settings.countToBeHealth);
    }

    /** SetName: renames the sensor (not its error record) and returns the new name. */
    method SetName(newName: string) returns (r: string)
      modifies this
      ensures name == newName && r == newName
      ensures Snapshot() == old(Snapshot()) && CurrentLimits() == old(CurrentLimits())
      ensures lastReadValues == old(lastReadValues)
    {
      name := newName;
      r := name;
    }

    /** SetVibValueFailure: replaces the vibration failure limit only. */
    method SetVibValueFailure(newVib: real) returns (r: real)
      modifies this
      ensures r == newVib && CurrentLimits() == old(CurrentLimits()).(vibFailure := newVib)
      ensures Snapshot() == old(Snapshot()) && lastReadValues == old(lastReadValues) && name == old(name)
    {
      vibValueFailure := newVib;
      r := vibValueFailure;
    }

    /** SetTempValueFailure: replaces the temperature failure limit only. */
    method SetTempValueFailure(newTemp: real) returns (r: real)
      modifies this
      ensures r == newTemp && CurrentLimits() == old(CurrentLimits()).(tempFailure := newTemp)
      ensures Snapshot() == old(Snapshot()) && lastReadValues == old(lastReadValues) && name == old(name)
    {
      tempValueFailure := newTemp;
      r := tempValueFailure;
    }

    /** SetVibValueWarning: replaces the vibration warning limit only. */
    method SetVibValueWarning(newVibWarning: real) returns (r: real)
      modifies this
      ensures r == newVibWarning && CurrentLimits() == old(CurrentLimits()).(vibWarning := newVibWarning)
      ensures Snapshot() == old(Snapshot()) && lastReadValues == old(lastReadValues) && name == old(name)
    {
      vibValueWarning := newVibWarning;
      r := vibValueWarning;
    }

    /** SetTempValueWarning: replaces the temperature warning limit only. */
    method SetTempValueWarning(newTempWarning: real) returns (r: real)
      modifies this
      ensures r == newTempWarning && CurrentLimits() == old(CurrentLimits()).(tempWarning := newTempWarning)
      ensures Snapshot() == old(Snapshot()) && lastReadValues == old(lastReadValues) && name == old(name)
    {
      tempValueWarning := newTempWarning;
      r := tempValueWarning;
    }

    /** ClearFailure: drops the two WARNING latches; the failure latches and the counters stay. */
    method ClearFailure()
      modifies this
      ensures Snapshot() == old(Snapshot()).(vibWarning := false, tempWarning := false)
      ensures CurrentLimits() == old(CurrentLimits()) && lastReadValues == old(lastReadValues) && name == old(name)
    {
      vibWarning := false;
      tempWarning := false;
    }

    /**
     * SaveValuesToHistory: appends the temperature and the vibration magnitude of the last reading to
     * their queues; a full queue rejects the value and keeps its contents.
     */
    method SaveValuesToHistory(sqrt: real -> real)
      requires Valid() && lastReadValues.Some?
      modifies speedsHistoryQueue, temperatureHistoryQueue
      ensures Valid()
      ensures temperatureHistoryQueue.items ==
                if old(temperatureHistoryQueue.isFull) then old(temperatureHistoryQueue.items)
                else old(temperatureHistoryQueue.items) + [lastReadValues.value.temp]
      ensures speedsHistoryQueue.items ==
                if old(speedsHistoryQueue.isFull) then old(speedsHistoryQueue.items)
                else old(speedsHistoryQueue.items) + [Magnitude(lastReadValues.value, sqrt)]
      ensures old(temperatureHistoryQueue.isFull) ==> temperatureHistoryQueue.queue == old(temperatureHistoryQueue.queue)
      ensures old(speedsHistoryQueue.isFull) ==> speedsHistoryQueue.queue == old(speedsHistoryQueue.queue)
      ensures old(temperatureHistoryQueue.queue == temperatureHistoryQueue.items) ==>
                temperatureHistoryQueue.queue == temperatureHistoryQueue.items
      ensures old(speedsHistoryQueue.queue == speedsHistoryQueue.items) ==>
                speedsHistoryQueue.queue == speedsHistoryQueue.items
    {
      var reading := lastReadValues.value;
      var _ := temperatureHistoryQueue.Write(reading.temp);
      var _ := speedsHistoryQueue.Write(Magnitude(reading, sqrt));
    }

    /**
     * CalculateThresholds: for each history queue that is full, the warning and failure limits of its
     * metric become the mean plus two and three standard deviations of the stored values, and the
     * queue is emptied; a queue that is not full changes nothing.
     */
    method CalculateThresholds(sqrt: real -> real)
      requires Valid() && IsSqrt(sqrt)
      modifies this, speedsHistoryQueue, temperatureHistoryQueue
      ensures Valid()
      ensures old(temperatureHistoryQueue.isFull) ==>
                && 0 < |old(temperatureHistoryQueue.queue)|
                && (tempValueWarning, tempValueFailure) == ThresholdsOf(old(temperatureHistoryQueue.queue), sqrt)
                && temperatureHistoryQueue.items == [] && temperatureHistoryQueue.queue == []
                && !temperatureHistoryQueue.isFull
      ensures !old(temperatureHistoryQueue.isFull) ==>
                && tempValueWarning == old(tempValueWarning) && tempValueFailure == old(tempValueFailure)
                && temperatureHistoryQueue.items == old(temperatureHistoryQueue.items)
                && temperatureHistoryQueue.queue == old(temperatureHistoryQueue.queue)
                && temperatureHistoryQueue.isFull == old(temperatureHistoryQueue.isFull)
      ensures old(speedsHistoryQueue.isFull) ==>
                && 0 < |old(speedsHistoryQueue.queue)|
                && (vibValueWarning, vibValueFailure) == ThresholdsOf(old(speedsHistoryQueue.queue), sqrt)
                && speedsHistoryQueue.items == [] && speedsHistoryQueue.queue == []
                && !speedsHistoryQueue.isFull
      ensures !old(speedsHistoryQueue.isFull) ==>
                && vibValueWarning == old(vibValueWarning) && vibValueFailure == old(vibValueFailure)
                && speedsHistoryQueue.items == old(speedsHistoryQueue.items)
                && speedsHistoryQueue.queue == old(speedsHistoryQueue.queue)
                && speedsHistoryQueue.isFull == old(speedsHistoryQueue.isFull)
      ensures Snapshot() == old(Snapshot()) && lastReadValues == old(lastReadValues) && name == old(name)
    {
      RecalculateTemperature(sqrt);
      RecalculateSpeeds(sqrt);
    }

    /** The temperature half of CalculateThresholds. */
    method RecalculateTemperature(sqrt: real -> real)
      requires Valid() && IsSqrt(sqrt)
      modifies this, temperatureHistoryQueue
      ensures Valid()
      ensures old(temperatureHistoryQueue.isFull) ==>
                && 0 < |old(temperatureHistoryQueue.queue)|
                && (tempValueWarning, tempValueFailure) == ThresholdsOf(old(temperatureHistoryQueue.queue), sqrt)
                && temperatureHistoryQueue.items == [] && temperatureHistoryQueue.queue == []
                && !temperatureHistoryQueue.isFull
      ensures !old(temperatureHistoryQueue.isFull) ==>
                && tempValueWarning == old(tempValueWarning) && tempValueFailure == old(tempValueFailure)
                && temperatureHistoryQueue.items == old(temperatureHistoryQueue.items)
                && temperatureHistoryQueue.queue == old(temperatureHistoryQueue.queue)
                && temperatureHistoryQueue.isFull == old(temperatureHistoryQueue.isFull)
      ensures vibValueWarning == old(vibValueWarning) && vibValueFailure == old(vibValueFailure)
      ensures Snapshot() == old(Snapshot()) && lastReadValues == old(lastReadValues) && name == old(name)
    {
      if temperatureHistoryQueue.isFull {
        var history := temperatureHistoryQueue.queue;
        var mean := Mean(history);
        var stdDev := StdDev(history, sqrt);
        tempValueWarning := FromZScore(ZScoreWarning, mean, stdDev);
        tempValueFailure := FromZScore(ZScoreFailure, mean, stdDev);
        temperatureHistoryQueue.Clear();
      }
    }

    /** The vibration half of CalculateThresholds. */
    method RecalculateSpeeds(sqrt: real -> real)
      requires Valid() && IsSqrt(sqrt)
      modifies this, speedsHistoryQueue
      ensures Valid()
      ensures old(speedsHistoryQueue.isFull) ==>
                && 0 < |old(speedsHistoryQueue.queue)|
                && (vibValueWarning, vibValueFailure) == ThresholdsOf(old(speedsHistoryQueue.queue), sqrt)
                && speedsHistoryQueue.items == [] && speedsHistoryQueue.queue == []
                && !speedsHistoryQueue.isFull
      ensures !old(speedsHistoryQueue.isFull) ==>
                && vibValueWarning == old(vibValueWarning) && vibValueFailure == old(vibValueFailure)
                && speedsHistoryQueue.items == old(speedsHistoryQueue.items)
                && speedsHistoryQueue.queue == old(speedsHistoryQueue.queue)
                && speedsHistoryQueue.isFull == old(speedsHistoryQueue.isFull)
      ensures tempValueWarning == old(tempValueWarning) && tempValueFailure == old(tempValueFailure)
      ensures Snapshot() == old(Snapshot()) && lastReadValues == old(lastReadValues) && name == old(name)
    {
      if speedsHistoryQueue.isFull {
        var history := speedsHistoryQueue.queue;
        var mean := Mean(history);
        var stdDev := StdDev(history, sqrt);
        vibValueWarning := FromZScore(ZScoreWarning, mean, stdDev);
        vibValueFailure := FromZScore(ZScoreFailure, mean, stdDev);
        speedsHistoryQueue.Clear();
      }
    }

    /**
     * The effect of one MQTT message on its port: the reading becomes `lastReadValues`, is saved to
     * the histories, and the thresholds are recalculated.  Between messages each queue holds the
     * readings since its last recalculation, and every `DefaultSize`-th reading recomputes the limits
     * of its metric from exactly those `DefaultSize` values, in arrival order.
     */
    method Ingest(r: Reading, sqrt: real -> real)
      requires Valid() && Resting() && IsSqrt(sqrt)
      modifies this, speedsHistoryQueue, temperatureHistoryQueue
      ensures Valid() && Resting()
      ensures lastReadValues == Some(r)
      ensures |old(temperatureHistoryQueue.items)| + 1 == DefaultSize ==>
                && (tempValueWarning, tempValueFailure)
                   == ThresholdsOf(old(temperatureHistoryQueue.items) + [r.temp], sqrt)
                && temperatureHistoryQueue.items == []
      ensures |old(temperatureHistoryQueue.items)| + 1 != DefaultSize ==>
                && tempValueWarning == old(tempValueWarning) && tempValueFailure == old(tempValueFailure)
                && temperatureHistoryQueue.items == old(temperatureHistoryQueue.items) + [r.temp]
      ensures |old(speedsHistoryQueue.items)| + 1 == DefaultSize ==>
                && (vibValueWarning, vibValueFailure)
                   == ThresholdsOf(old(speedsHistoryQueue.items) + [Magnitude(r, sqrt)], sqrt)
                && speedsHistoryQueue.items == []
      ensures |old(speedsHistoryQueue.items)| + 1 != DefaultSize ==>
                && vibValueWarning == old(vibValueWarning) && vibValueFailure == old(vibValueFailure)
                && speedsHistoryQueue.items == old(speedsHistoryQueue.items) + [Magnitude(r, sqrt)]
      ensures Snapshot() == old(Snapshot()) && name == old(name)
    {
      lastReadValues := Some(r);
      SaveValuesToHistory(sqrt);
      temperatureHistoryQueue.FlagsMeanCount();
      speedsHistoryQueue.FlagsMeanCount();
      CalculateThresholds(sqrt);
    }
  }
}
