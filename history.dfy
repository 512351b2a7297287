/**
 * The error log of backend/server.js: its entries, the JavaScript string order that DepureHistory
 * compares dates with, the pruning it performs, and the entry one monitoring tick logs for a port.
 */
module History {
  import opened Wrappers
  import opened Hysteresis

  /** An entry of `errorsHistory`: a copy of a sensor's error record and the area of its gateway. */
  datatype LogEntry = LogEntry(port: string, cmtk: string, failure: Option<string>, date: Option<string>,
                               area: string)

  /** `{ ...error, area }` */
  function EntryOf(e: ErrorRecord, area: string): LogEntry {
    LogEntry(e.port, e.cmtk, e.failure, e.date, area)
  }

  /**
   * The entry the log starts with.  The source writes its place as `location: "test"`, a key no
   * other entry has; the model keeps it in `area`, the one field an entry has for a place.
   */
  const SeedEntry := LogEntry("testPort", "testCmtk", Some("testFailure"), Some("2024-06-04 08:23:07"), "test")

  // ---------------------------------------------------------------------------------------------
  // JavaScript string order
  // ---------------------------------------------------------------------------------------------

  /** `a < b` on JavaScript strings: the first differing character decides, a proper prefix is less. */
  predicate LexLess(a: string, b: string)
    decreases |a|
  {
    |b| > 0 && (|a| == 0 || a[0] < b[0] || (a[0] == b[0] && LexLess(a[1..], b[1..])))
  }

  lemma {:induction false} LexIrreflexive(a: string)
    ensures !LexLess(a, a)
    decreases |a|
  {
    if |a| > 0 {
      LexIrreflexive(a[1..]);
    }
  }

  lemma {:induction false} LexTransitive(a: string, b: string, c: string)
    requires LexLess(a, b) && LexLess(b, c)
    ensures LexLess(a, c)
    decreases |a|
  {
    if |a| > 0 && a[0] == b[0] && b[0] == c[0] {
      LexTransitive(a[1..], b[1..], c[1..]);
    }
  }

  /** Two different strings are ordered one way or the other, never both. */
  lemma {:induction false} LexTotal(a: string, b: string)
    ensures a == b || LexLess(a, b) || LexLess(b, a)
    ensures !(LexLess(a, b) && LexLess(b, a))
    decreases |a|
  {
    if |a| > 0 && |b| > 0 && a[0] == b[0] {
      LexTotal(a[1..], b[1..]);
      if a[1..] == b[1..] {
        assert a == [a[0]] + a[1..] && b == [b[0]] + b[1..];
      }
    }
  }

  // ---------------------------------------------------------------------------------------------
  // DepureHistory
  // ---------------------------------------------------------------------------------------------

  /**
   * An entry dated before the cutoff.  A null date is never older: `null < "..."` converts null to 0
   * and the date string to NaN, and a comparison with NaN is false.
   */
  predicate Older(date: Option<string>, cutoff: string) {
    date.Some? && LexLess(date.value, cutoff)
  }

  /** The log with every entry older than the cutoff removed. */
  function Kept(h: seq<LogEntry>, cutoff: string): seq<LogEntry>
    decreases |h|
  {
    if h == [] then []
    else (if Older(h[0].date, cutoff) then [] else [h[0]]) + Kept(h[1..], cutoff)
  }

  /** An entry survives exactly when it was there and is not older than the cutoff. */
  lemma {:induction false} KeptMembers(h: seq<LogEntry>, cutoff: string)
    ensures forall e :: e in Kept(h, cutoff) <==> e in h && !Older(e.date, cutoff)
    decreases |h|
  {
    if h != [] {
      KeptMembers(h[1..], cutoff);
      assert h == [h[0]] + h[1..];
    }
  }

  /** Pruning works piece by piece, so the survivors keep their relative order. */
  lemma {:induction false} KeptConcat(a: seq<LogEntry>, b: seq<LogEntry>, cutoff: string)
    ensures Kept(a + b, cutoff) == Kept(a, cutoff) + Kept(b, cutoff)
    decreases |a|
  {
    if a == [] {
      assert a + b == b;
    } else {
      assert (a + b)[1..] == a[1..] + b;
      KeptConcat(a[1..], b, cutoff);
    }
  }

  /** Pruning with a cutoff at or after an earlier one removes everything the earlier one did. */
  lemma {:induction false} KeptLaterCutoff(h: seq<LogEntry>, earlier: string, later: string)
    requires !LexLess(later, earlier)
    ensures Kept(Kept(h, earlier), later) == Kept(h, later)
    decreases |h|
  {
    if h != [] {
      KeptLaterCutoff(h[1..], earlier, later);
      if Older(h[0].date, earlier) {
        LexTotal(earlier, later);
        if earlier != later {
          LexTransitive(h[0].date.value, earlier, later);
        }
      }
      KeptConcat(if Older(h[0].date, earlier) then [] else [h[0]], Kept(h[1..], earlier), later);
      assert [h[0]][1..] == [];
    }
  }

  // ---------------------------------------------------------------------------------------------
  // What one tick logs for one port
  // ---------------------------------------------------------------------------------------------

  /**
   * The entry logged for one port in one tick: the error record as DetectEngineFailure left it,
   * exactly when that call reports a new failure.
   */
  function TickLog(h: Health, r: Option<Reading>, lim: Limits, countToBeFail: int, now: string, area: string)
    : (log: seq<LogEntry>)
    ensures |log| <= 1
    ensures log != [] <==> FailureStep(h, r, lim, countToBeFail, now).1
    ensures log != [] ==>
              log[0].date == Some(now) && log[0].area == area
              && log[0].port == h.error.port && log[0].cmtk == h.error.cmtk
    ensures log != [] ==>
              ((log[0].failure == Some(VibrationError)) <==>
                 !h.vibFailure && FailureStep(h, r, lim, countToBeFail, now).0.vibFailure)
    ensures log != [] ==>
              ((log[0].failure == Some(TemperatureError)) <==>
                 !h.tempFailure && FailureStep(h, r, lim, countToBeFail, now).0.tempFailure)
  {
    var (h1, raised) := FailureStep(h, r, lim, countToBeFail, now);
    assert VibrationError[0] != TemperatureError[0];
    if raised then [EntryOf(h1.error, area)] else []
  }

  /**
   * The entry as ErrorsHandler builds it: the error record is copied only after DetectEngineWarning
   * and DetectEngineOk have run, so it shows whatever the last of the three calls wrote.
   */
  function TickLogAsWritten(h: Health, r: Option<Reading>, lim: Limits, countToBeFail: int,
                            countToBeHealth: int, now: string, area: string): (log: seq<LogEntry>)
    ensures |log| <= 1
    ensures log != [] <==> FailureStep(h, r, lim, countToBeFail, now).1
  {
    var (h3, raised) := PortTick(h, r, lim, countToBeFail, countToBeHealth, now);
    if raised then [EntryOf(h3.error, area)] else []
  }

  /**
   * A port one sample short of a vibration failure and of a temperature warning: the tick latches
   * the vibration failure, but the entry logged for it says "Temperature Warning".
   */
  lemma AsWrittenLogMislabels()
    ensures var h := Health(9, 0, 0, 4, 0, 0, 0, 0, false, false, false, false,
                            ErrorRecord("port1", "cmtk1", None, None));
            var r := Some(Reading(15.0, 5.0, 0.0, 0.0));
            var lim := Limits(4.0, 2.0, 20.0, 10.0);
            && PortTick(h, r, lim, 10, 20, "2024-06-04 08:23:07").0.vibFailure
            && TickLogAsWritten(h, r, lim, 10, 20, "2024-06-04 08:23:07", "area1")
               == [LogEntry("port1", "cmtk1", Some(TemperatureWarning), Some("2024-06-04 08:23:07"), "area1")]
            && TickLog(h, r, lim, 10, "2024-06-04 08:23:07", "area1")
               == [LogEntry("port1", "cmtk1", Some(VibrationError), Some("2024-06-04 08:23:07"), "area1")]
  {
    var h := Health(9, 0, 0, 4, 0, 0, 0, 0, false, false, false, false,
                    ErrorRecord("port1", "cmtk1", None, None));
    var r := Some(Reading(15.0, 5.0, 0.0, 0.0));
    var lim := Limits(4.0, 2.0, 20.0, 10.0);
    var now := "2024-06-04 08:23:07";
    var (h1, raised) := FailureStep(h, r, lim, 10, now);
    assert raised && h1.vibFailure && h1.vibErrorCount == 10;
    var (h2, _) := WarningStep(h1, r, lim, 10, now);
    assert h2.tempWarning && h2.error.failure == Some(TemperatureWarning);
    var (h3, cleared) := OkStep(h2, r, lim, 20);
    assert !cleared && h3.error == h2.error;
  }
}
