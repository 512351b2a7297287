/**
 * The monitoring core of backend/server.js: the gateway catalogue (`CMTKs`), the error log, the list
 * of gateways still to connect, the periodic error handler, the connection logic and the request
 * handlers that read or change sensor state.
 *
 * Timers are modelled by flags (`retryArmed` for the Try2Connect interval, `samplingArmed` for the
 * ErrorsHandler interval), the answers of a gateway's InfluxDB and MQTT services by a `GatewayReply`,
 * and the clock by the `now`/`cutoff` strings the callers pass in.
 */
module Server {
  import opened Wrappers
  import opened Hysteresis
  import opened ApiSensors
  import opened Catalogue
  import opened History
  import opened Gateway

  /** The initial ErrorsHandler period, in milliseconds. */
  const DefaultSamplingTime: real := 1000.0

  // ---------------------------------------------------------------------------------------------
  // Connecting to a gateway
  // ---------------------------------------------------------------------------------------------

  /** A connection attempt on `cmtkLabel` returns true. */
  predicate Connects(areas: seq<Area>, cmtkLabel: string, reply: GatewayReply) {
    CmtkOf(areas, cmtkLabel).Some? && ConnectOk(reply)
  }

  /** `xs` without the labels in `drop`, in order. */
  function Without(xs: seq<string>, drop: set<string>): (r: seq<string>)
    ensures forall x :: x in r <==> x in xs && x !in drop
    ensures |r| <= |xs|
    decreases |xs|
  {
    if xs == [] then []
    else (if xs[0] in drop then [] else [xs[0]]) + Without(xs[1..], drop)
  }

  lemma {:induction false} WithoutNothing(xs: seq<string>)
    ensures Without(xs, {}) == xs
    decreases |xs|
  {
    if xs != [] {
      WithoutNothing(xs[1..]);
      assert xs == [xs[0]] + xs[1..];
    }
  }

  lemma {:induction false} WithoutTwice(xs: seq<string>, a: set<string>, b: set<string>)
    ensures Without(Without(xs, a), b) == Without(xs, a + b)
    decreases |xs|
  {
    if xs != [] {
      WithoutTwice(xs[1..], a, b);
      var head := if xs[0] in a then [] else [xs[0]];
      WithoutConcat(head, Without(xs[1..], a), b);
      assert Without([xs[0]], b) == (if xs[0] in b then [] else [xs[0]]) by {
        assert [xs[0]][1..] == [];
      }
    }
  }

  lemma {:induction false} WithoutConcat(a: seq<string>, b: seq<string>, drop: set<string>)
    ensures Without(a + b, drop) == Without(a, drop) + Without(b, drop)
    decreases |a|
  {
    if a == [] {
      assert a + b == b;
    } else {
      assert (a + b)[1..] == a[1..] + b;
      WithoutConcat(a[1..], b, drop);
    }
  }

  /** The labels of `labels` whose connection attempt succeeds. */
  function ConnectedAmong(labels: seq<string>, areas: seq<Area>, reply: string -> GatewayReply): set<string> {
    set l | l in labels && Connects(areas, l, reply(l))
  }

  /** One more attempt adds its label to the successful ones exactly when it connects. */
  lemma ConnectedAmongStep(labels: seq<string>, idx: nat, areas: seq<Area>, reply: string -> GatewayReply)
    requires idx < |labels|
    ensures ConnectedAmong(labels[..idx + 1], areas, reply) ==
              ConnectedAmong(labels[..idx], areas, reply)
              + (if Connects(areas, labels[idx], reply(labels[idx])) then {labels[idx]} else {})
  {
    assert labels[..idx + 1] == labels[..idx] + [labels[idx]];
  }

  /** Before the first attempt nothing has connected and the pending list is whole. */
  lemma PendingStart(labels: seq<string>, areas: seq<Area>, reply: string -> GatewayReply)
    ensures Without(labels, ConnectedAmong(labels[..0], areas, reply)) == labels
  {
    assert ConnectedAmong(labels[..0], areas, reply) == {};
    WithoutNothing(labels);
  }

  /** The pending list after one more attempt: the label leaves it exactly when it connects. */
  lemma PendingStep(labels: seq<string>, idx: nat, areas: seq<Area>, reply: string -> GatewayReply,
                    pending: seq<string>, next: seq<string>)
    requires idx < |labels|
    requires pending == Without(labels, ConnectedAmong(labels[..idx], areas, reply))
    requires next == if Connects(areas, labels[idx], reply(labels[idx])) then Without(pending, {labels[idx]}) else pending
    ensures next == Without(labels, ConnectedAmong(labels[..idx + 1], areas, reply))
  {
    var before := ConnectedAmong(labels[..idx], areas, reply);
    ConnectedAmongStep(labels, idx, areas, reply);
    if Connects(areas, labels[idx], reply(labels[idx])) {
      WithoutTwice(labels, before, {labels[idx]});
    } else {
      assert ConnectedAmong(labels[..idx + 1], areas, reply) == before;
    }
  }

  /** After the last attempt the pending list is what Try2Connect leaves. */
  lemma PendingEnd(labels: seq<string>, areas: seq<Area>, reply: string -> GatewayReply)
    ensures Without(labels, ConnectedAmong(labels[..|labels|], areas, reply)) == StillPending(labels, areas, reply)
  {
    assert labels[..|labels|] == labels;
  }

  /** The pending list after Try2Connect's first `k` attempts on `labels`. */
  function PendingAfter(labels: seq<string>, k: nat, areas: seq<Area>, reply: string -> GatewayReply): seq<string>
    requires k <= |labels|
    decreases k
  {
    if k == 0 then labels
    else
      var pending := PendingAfter(labels, k - 1, areas, reply);
      if Connects(areas, labels[k - 1], reply(labels[k - 1])) then Without(pending, {labels[k - 1]}) else pending
  }

  /** After `k` attempts the labels that connected among the first `k` have left the list. */
  lemma {:induction false} PendingAfterDrops(labels: seq<string>, k: nat, areas: seq<Area>, reply: string -> GatewayReply)
    requires k <= |labels|
    ensures PendingAfter(labels, k, areas, reply) == Without(labels, ConnectedAmong(labels[..k], areas, reply))
    decreases k
  {
    if k == 0 {
      PendingStart(labels, areas, reply);
    } else {
      PendingAfterDrops(labels, k - 1, areas, reply);
      PendingStep(labels, k - 1, areas, reply, PendingAfter(labels, k - 1, areas, reply),
                  PendingAfter(labels, k, areas, reply));
    }
  }

  /** Once every label has had its attempt, the list is what Try2Connect leaves. */
  lemma PendingAfterAll(labels: seq<string>, areas: seq<Area>, reply: string -> GatewayReply)
    ensures PendingAfter(labels, |labels|, areas, reply) == StillPending(labels, areas, reply)
  {
    PendingAfterDrops(labels, |labels|, areas, reply);
    PendingEnd(labels, areas, reply);
  }

  /** The labels Try2Connect leaves pending: those whose attempt fails, in order. */
  function StillPending(pending: seq<string>, areas: seq<Area>, reply: string -> GatewayReply): (r: seq<string>)
    ensures forall l :: l in r <==> l in pending && !Connects(areas, l, reply(l))
    ensures r == [] && pending != [] ==> Connects(areas, pending[0], reply(pending[0]))
  {
    Without(pending, ConnectedAmong(pending, areas, reply))
  }

  /** The labels the start-up loop puts on the pending list for one gateway. */
  function FailedEntry(e: Entry, reply: string -> GatewayReply): seq<string> {
    if e.cmtk.Some? && !ConnectOk(reply(e.cmtkLabel)) then [e.cmtkLabel] else []
  }

  function FailedInArea(es: seq<Entry>, reply: string -> GatewayReply): seq<string>
    decreases |es|
  {
    if es == [] then [] else FailedInArea(es[..|es| - 1], reply) + FailedEntry(es[|es| - 1], reply)
  }

  /** The labels the start-up loop puts on the pending list, in catalogue order. */
  function FailedLabels(areas: seq<Area>, reply: string -> GatewayReply): seq<string>
    decreases |areas|
  {
    if areas == [] then []
    else FailedLabels(areas[..|areas| - 1], reply) + FailedInArea(areas[|areas| - 1].entries, reply)
  }

  /** The entry `e` holds gateway `l`, which is not null and whose connection attempt fails. */
  predicate Fails(e: Entry, l: string, reply: string -> GatewayReply) {
    e.cmtkLabel == l && e.cmtk.Some? && !ConnectOk(reply(l))
  }

  lemma {:induction false} FailedInAreaMembers(es: seq<Entry>, reply: string -> GatewayReply)
    ensures forall l :: l in FailedInArea(es, reply) <==> exists j :: 0 <= j < |es| && Fails(es[j], l, reply)
    decreases |es|
  {
    if es != [] {
      var n := |es| - 1;
      FailedInAreaMembers(es[..n], reply);
      forall l
        ensures l in FailedInArea(es, reply) <==> exists j :: 0 <= j < |es| && Fails(es[j], l, reply)
      {
        if l in FailedInArea(es[..n], reply) {
          var j :| 0 <= j < n && Fails(es[..n][j], l, reply);
          assert es[j] == es[..n][j];
        }
        if exists j :: 0 <= j < |es| && Fails(es[j], l, reply) {
          var j :| 0 <= j < |es| && Fails(es[j], l, reply);
          if j < n {
            assert es[..n][j] == es[j];
          }
        }
      }
    }
  }

  /** Some gateway of area `a` is `l`, not null, and fails to connect. */
  predicate FailsInArea(a: Area, l: string, reply: string -> GatewayReply) {
    exists j :: 0 <= j < |a.entries| && Fails(a.entries[j], l, reply)
  }

  /**
   * A label is put on the pending list at start-up exactly when its gateway is not null and the
   * connection attempt fails.
   */
  lemma {:induction false} FailedLabelsMembers(areas: seq<Area>, reply: string -> GatewayReply)
    ensures forall l :: l in FailedLabels(areas, reply) <==>
              exists i :: 0 <= i < |areas| && FailsInArea(areas[i], l, reply)
    decreases |areas|
  {
    if areas != [] {
      var n := |areas| - 1;
      var front := areas[..n];
      assert FailedLabels(areas, reply) == FailedLabels(front, reply) + FailedInArea(areas[n].entries, reply);
      FailedLabelsMembers(front, reply);
      FailedInAreaMembers(areas[n].entries, reply);
      forall l
        ensures l in FailedLabels(areas, reply) <==> exists i :: 0 <= i < |areas| && FailsInArea(areas[i], l, reply)
      {
        if l in FailedLabels(front, reply) {
          var i :| 0 <= i < n && FailsInArea(front[i], l, reply);
          assert areas[i] == front[i];
        }
        if exists i :: 0 <= i < |areas| && FailsInArea(areas[i], l, reply) {
          var i :| 0 <= i < |areas| && FailsInArea(areas[i], l, reply);
          if i < n {
            assert front[i] == areas[i];
          }
        }
      }
    }
  }

  /** The pending list before the start-up loop has looked at any area. */
  lemma LabelsStart(p0: seq<string>, areas: seq<Area>, reply: string -> GatewayReply)
    ensures p0 + FailedLabels(areas[..0], reply) == p0
  {
    assert areas[..0] == [];
  }

  /** The start-up list grows by area i's failures once its gateways are done. */
  lemma LabelsStep(p0: seq<string>, areas: seq<Area>, i: nat, reply: string -> GatewayReply)
    requires i < |areas|
    ensures p0 + (FailedLabels(areas[..i], reply) + FailedInArea(areas[i].entries, reply))
            == p0 + FailedLabels(areas[..i + 1], reply)
  {
    assert areas[..i + 1][..i] == areas[..i];
  }

  lemma LabelsEnd(p0: seq<string>, areas: seq<Area>, reply: string -> GatewayReply)
    ensures p0 + FailedLabels(areas[..|areas|], reply) == p0 + FailedLabels(areas, reply)
  {
    assert areas[..|areas|] == areas;
  }

  /** What the start-up loop has `listed` before area `es`, before it looks at the area's gateways. */
  lemma AreaStart(listed: seq<string>, es: seq<Entry>, reply: string -> GatewayReply)
    ensures listed + FailedInArea(es[..0], reply) == listed
  {
    assert es[..0] == [];
  }

  /** The start-up list grows by the gateway at j of area `es` when it is not null and fails. */
  lemma AreaStep(listed: seq<string>, es: seq<Entry>, j: nat, reply: string -> GatewayReply)
    requires j < |es|
    ensures (listed + FailedInArea(es[..j], reply)) + FailedEntry(es[j], reply)
            == listed + FailedInArea(es[..j + 1], reply)
  {
    assert es[..j + 1][..j] == es[..j];
    AppendAssoc(listed, FailedInArea(es[..j], reply), FailedEntry(es[j], reply));
  }

  lemma AreaEnd(listed: seq<string>, es: seq<Entry>, reply: string -> GatewayReply)
    ensures listed + FailedInArea(es[..|es|], reply) == listed + FailedInArea(es, reply)
  {
    assert es[..|es|] == es;
  }

  lemma AppendAssoc<T>(a: seq<T>, b: seq<T>, c: seq<T>)
    ensures (a + b) + c == a + (b + c)
  {
  }

  // ---------------------------------------------------------------------------------------------
  // One ErrorsHandler tick, stated over the sensors' state when it starts
  // ---------------------------------------------------------------------------------------------

  /** What the tick reads of a sensor when it starts. */
  datatype SensorView = SensorView(health: Health, reading: Option<Reading>, limits: Limits)

  /** A port the tick processes, with the area of its gateway. */
  datatype Visit = Visit(area: string, sensor: Sensor)

  type Views = map<Sensor, SensorView>

  ghost function ViewsOf(areas: seq<Area>): (base: Views)
    reads AllSensors(areas)
    ensures forall s | s in AllSensors(areas) :: s in base
    ensures forall s | s in base :: s in AllSensors(areas)
  {
    map s | s in AllSensors(areas) :: SensorView(s.Snapshot(), s.lastReadValues, s.CurrentLimits())
  }

  /** The port has been read at least once. */
  predicate Ready(base: Views, s: Sensor) {
    s in base && base[s].reading.Some?
  }

  /** How many leading ports have a reading: the port loop stops at the first one without. */
  function ReadyPrefix(ports: seq<Port>, base: Views): (n: nat)
    ensures n <= |ports|
    ensures forall k :: 0 <= k < n ==> Ready(base, ports[k].sensor)
    ensures n < |ports| ==> !Ready(base, ports[n].sensor)
    decreases |ports|
  {
    if ports == [] || !Ready(base, ports[0].sensor) then 0 else 1 + ReadyPrefix(ports[1..], base)
  }

  function CmtkVisits(area: string, ports: seq<Port>, base: Views): (vs: seq<Visit>)
    ensures |vs| == ReadyPrefix(ports, base)
    ensures forall k :: 0 <= k < |vs| ==> vs[k] == Visit(area, ports[k].sensor)
  {
    var n := ReadyPrefix(ports, base);
    seq(n, k requires 0 <= k < n => Visit(area, ports[k].sensor))
  }

  /** A gateway still pending or null is skipped. */
  function EntryVisits(area: string, e: Entry, pending: seq<string>, base: Views): seq<Visit> {
    if e.cmtkLabel in pending || e.cmtk.None? then [] else CmtkVisits(area, e.cmtk.value.ports, base)
  }

  function AreaVisits(area: string, es: seq<Entry>, pending: seq<string>, base: Views): seq<Visit>
    decreases |es|
  {
    if es == [] then [] else EntryVisits(area, es[0], pending, base) + AreaVisits(area, es[1..], pending, base)
  }

  /** The visits of the entries from j on: those of entry j, then the rest. */
  lemma AreaVisitsStep(area: string, es: seq<Entry>, j: nat, pending: seq<string>, base: Views,
                       done: seq<Visit>, rest: seq<Visit>)
    requires j < |es|
    ensures var C := EntryVisits(area, es[j], pending, base);
            var later := AreaVisits(area, es[j + 1..], pending, base);
            && AreaVisits(area, es[j..], pending, base) == C + later
            && (done + C) + later == done + AreaVisits(area, es[j..], pending, base)
            && (done + C) + (later + rest) == done + (AreaVisits(area, es[j..], pending, base) + rest)
            && done + (AreaVisits(area, es[j..], pending, base) + rest) == done + (C + (later + rest))
  {
    var C := EntryVisits(area, es[j], pending, base);
    var later := AreaVisits(area, es[j + 1..], pending, base);
    assert es[j..][1..] == es[j + 1..];
    AppendAssoc(done, C, later);
    AppendAssoc(C, later, rest);
    AppendAssoc(done, C, later + rest);
  }

  /** The ports one tick processes, in the order it processes them. */
  function Visits(areas: seq<Area>, pending: seq<string>, base: Views): seq<Visit>
    decreases |areas|
  {
    if areas == [] then []
    else AreaVisits(areas[0].name, areas[0].entries, pending, base) + Visits(areas[1..], pending, base)
  }

  function VisitSensors(vs: seq<Visit>): (ss: seq<Sensor>)
    ensures |ss| == |vs| && forall k :: 0 <= k < |vs| ==> ss[k] == vs[k].sensor
  {
    seq(|vs|, k requires 0 <= k < |vs| => vs[k].sensor)
  }

  lemma VisitSensorsConcat(a: seq<Visit>, b: seq<Visit>)
    ensures VisitSensors(a + b) == VisitSensors(a) + VisitSensors(b)
  {
  }

  lemma CmtkVisitsDistinct(area: string, ports: seq<Port>, base: Views)
    requires Distinct(PortSensors(ports))
    ensures Distinct(VisitSensors(CmtkVisits(area, ports, base)))
    ensures forall s :: s in VisitSensors(CmtkVisits(area, ports, base)) ==> s in PortSensors(ports)
  {
    var ss := VisitSensors(CmtkVisits(area, ports, base));
    forall s | s in ss ensures s in PortSensors(ports) {
      var k :| 0 <= k < |ss| && ss[k] == s;
      assert PortSensors(ports)[k] == s;
    }
  }

  lemma {:induction false} AreaVisitsDistinct(area: string, es: seq<Entry>, pending: seq<string>, base: Views)
    requires Distinct(EntriesSensors(es))
    ensures Distinct(VisitSensors(AreaVisits(area, es, pending, base)))
    ensures forall s :: s in VisitSensors(AreaVisits(area, es, pending, base)) ==> s in EntriesSensors(es)
    decreases |es|
  {
    if es != [] {
      DistinctConcat(EntrySensors(es[0]), EntriesSensors(es[1..]));
      if es[0].cmtk.Some? {
        CmtkVisitsDistinct(area, es[0].cmtk.value.ports, base);
      }
      AreaVisitsDistinct(area, es[1..], pending, base);
      var a := EntryVisits(area, es[0], pending, base);
      var b := AreaVisits(area, es[1..], pending, base);
      VisitSensorsConcat(a, b);
      DistinctConcat(VisitSensors(a), VisitSensors(b));
    }
  }

  /** No port is processed twice in a tick, and every processed port is in the catalogue. */
  lemma {:induction false} VisitsDistinct(areas: seq<Area>, pending: seq<string>, base: Views)
    requires Distinct(AllSensors(areas))
    ensures Distinct(VisitSensors(Visits(areas, pending, base)))
    ensures forall s :: s in VisitSensors(Visits(areas, pending, base)) ==> s in AllSensors(areas)
    decreases |areas|
  {
    if areas != [] {
      DistinctConcat(EntriesSensors(areas[0].entries), AllSensors(areas[1..]));
      AreaVisitsDistinct(areas[0].name, areas[0].entries, pending, base);
      VisitsDistinct(areas[1..], pending, base);
      var a := AreaVisits(areas[0].name, areas[0].entries, pending, base);
      var b := Visits(areas[1..], pending, base);
      VisitSensorsConcat(a, b);
      DistinctConcat(VisitSensors(a), VisitSensors(b));
    }
  }

  lemma DistinctNotInPrefix<T>(xs: seq<T>, n: nat)
    requires Distinct(xs) && n < |xs|
    ensures xs[n] !in xs[..n]
  {
  }

  lemma NextVisitUnticked(done: seq<Visit>, C: seq<Visit>, rest: seq<Visit>, k: nat)
    requires Distinct(VisitSensors(done + (C + rest))) && k < |C|
    ensures C[k].sensor !in VisitSensors(done + C[..k])
    ensures done + C[..k + 1] == (done + C[..k]) + [C[k]]
  {
    var P := done + (C + rest);
    var n := |done| + k;
    assert done + C[..k] == P[..n];
    assert P[n] == C[k];
    assert VisitSensors(P[..n]) == VisitSensors(P)[..n];
    DistinctNotInPrefix(VisitSensors(P), n);
    assert C[..k + 1] == C[..k] + [C[k]];
  }

  /** The health of a sensor after one tick from `v`. */
  function Ticked(v: SensorView, countToBeFail: int, countToBeHealth: int, now: string): Health {
    PortTick(v.health, v.reading, v.limits, countToBeFail, countToBeHealth, now).0
  }

  /** The entries one tick logs for the ports `vs`, from their views when it starts. */
  function LogOf(vs: seq<Visit>, base: Views, countToBeFail: int, now: string): seq<LogEntry>
    decreases |vs|
  {
    if vs == [] then []
    else
      var v := vs[|vs| - 1];
      LogOf(vs[..|vs| - 1], base, countToBeFail, now) +
      (if v.sensor in base
       then TickLog(base[v.sensor].health, base[v.sensor].reading, base[v.sensor].limits, countToBeFail, now, v.area)
       else [])
  }

  /** The views after a tick from `base` has processed the ports of `visited`. */
  ghost function Advanced(base: Views, visited: seq<Sensor>, countToBeFail: int, countToBeHealth: int,
                          now: string): Views
  {
    map s | s in base ::
      if s in visited
      then SensorView(Ticked(base[s], countToBeFail, countToBeHealth, now), base[s].reading, base[s].limits)
      else base[s]
  }

  /** Processing one more, not yet processed, port advances its view alone. */
  lemma AdvancedStep(base: Views, visited: seq<Sensor>, s: Sensor, countToBeFail: int, countToBeHealth: int,
                     now: string)
    requires s in base && s !in visited
    ensures Advanced(base, visited + [s], countToBeFail, countToBeHealth, now) ==
            Advanced(base, visited, countToBeFail, countToBeHealth, now)[s := SensorView(
              Ticked(base[s], countToBeFail, countToBeHealth, now), base[s].reading, base[s].limits)]
  {
  }

  /**
   * The sensors part way through a tick that started from `base`: readings and limits as they were,
   * each port of `done` advanced by exactly one PortTick, every other sensor untouched.
   */
  ghost predicate Agrees(areas: seq<Area>, base: Views, done: seq<Visit>, countToBeFail: int,
                         countToBeHealth: int, now: string)
    reads AllSensors(areas)
  {
    ViewsOf(areas) == Advanced(base, VisitSensors(done), countToBeFail, countToBeHealth, now)
  }

  lemma LogOfSnoc(vs: seq<Visit>, v: Visit, base: Views, countToBeFail: int, now: string)
    requires v.sensor in base
    ensures LogOf(vs + [v], base, countToBeFail, now) ==
            LogOf(vs, base, countToBeFail, now) +
            TickLog(base[v.sensor].health, base[v.sensor].reading, base[v.sensor].limits, countToBeFail, now, v.area)
  {
    assert (vs + [v])[..|vs|] == vs;
  }

  // ---------------------------------------------------------------------------------------------
  // Request handlers' values
  // ---------------------------------------------------------------------------------------------

  /** The state get-health-all reports for one gateway; `NoData` is the empty object of a null one. */
  datatype CmtkState = NoData | State(warningState: bool, failureState: bool)

  datatype AreaState = AreaState(area: string, cmtks: seq<(string, CmtkState)>)

  /** Some port of the gateway has a latched warning / failure. */
  function StateOf(c: Option<Cmtk>): CmtkState
    reads if c.Some? then PortSensors(c.value.ports) else []
  {
    if c.None? then NoData
    else
      var ports := c.value.ports;
      State(exists k :: 0 <= k < |ports| && (ports[k].sensor.tempWarning || ports[k].sensor.vibWarning),
            exists k :: 0 <= k < |ports| && (ports[k].sensor.tempFailure || ports[k].sensor.vibFailure))
  }

  /** The body of a set-sensor-setpoints request; a missing number is `None`. */
  datatype Setpoints = Setpoints(cmtk: string, port: string,
                                 tempValueFailure: Option<real>, tempValueWarning: Option<real>,
                                 vibValueFailure: Option<real>, vibWarning: Option<real>,
                                 vibValueWarning: real)

  /** The answer: a 500 "Internal server error", or success with what was settled. */
  datatype SetpointsReply = InternalError | Answer(success: bool, tempSettled: bool, vibSettled: bool)

  /** `a > b` in JavaScript, false when either is missing. */
  predicate Greater(a: Option<real>, b: Option<real>) {
    a.Some? && b.Some? && a.value > b.value
  }

  predicate TempAccepted(v: Setpoints) {
    Greater(v.tempValueFailure, v.tempValueWarning)
  }

  predicate VibAccepted(v: Setpoints) {
    Greater(v.vibValueFailure, v.vibWarning)
  }

  /** The sensor a request addresses, if the request, its gateway and its port all exist. */
  function Addressed(areas: seq<Area>, values: Option<Setpoints>): Option<Sensor> {
    if values.None? then None
    else
      match CmtkOf(areas, values.value.cmtk)
      case None => None
      case Some(c) => PortNamed(c.ports, values.value.port)
  }

  function AddressedSet(areas: seq<Area>, values: Option<Setpoints>): set<Sensor> {
    if Addressed(areas, values).Some? then {Addressed(areas, values).value} else {}
  }

  /** The limits after an accepted request: each accepted pair is stored, the other pair kept. */
  function NewLimits(l: Limits, v: Setpoints): Limits {
    var t := if TempAccepted(v) then l.(tempFailure := v.tempValueFailure.value, tempWarning := v.tempValueWarning.value)
             else l;
    if VibAccepted(v) then t.(vibFailure := v.vibValueFailure.value, vibWarning := v.vibValueWarning) else t
  }

  /**
   * The gateway at (i, j) of `cat0` has been through its connection attempt, answered by `reply`
   * with its label, on the way to `cat`; a null gateway stays null.
   */
  ghost predicate AttemptedAt(cat0: seq<Area>, cat: seq<Area>, i: nat, j: nat, reply: string -> GatewayReply)
    requires SameShape(cat, cat0) && i < |cat0| && j < |cat0[i].entries|
  {
    cat0[i].entries[j].cmtk.Some? ==>
      cat[i].entries[j].cmtk.Some? &&
      Attempted(cat0[i].entries[j].cmtk.value, cat[i].entries[j].cmtk.value, reply(cat0[i].entries[j].cmtkLabel))
  }

  /** Every gateway whose label is in `tried` has been through its attempt; every other is as it was. */
  ghost predicate TriedOnly(cat0: seq<Area>, cat: seq<Area>, tried: seq<string>, reply: string -> GatewayReply) {
    SameShape(cat, cat0) &&
    forall i, j :: 0 <= i < |cat0| && 0 <= j < |cat0[i].entries| ==>
      if cat0[i].entries[j].cmtkLabel in tried then AttemptedAt(cat0, cat, i, j, reply)
      else cat[i].entries[j] == cat0[i].entries[j]
  }

  /**
   * The gateways before position (i, j) in catalogue order (the areas before `i`, and the first `j`
   * gateways of area `i`) have been through their attempt; the others are as they were.
   */
  ghost predicate TriedUpTo(cat0: seq<Area>, cat: seq<Area>, i: nat, j: nat, reply: string -> GatewayReply) {
    SameShape(cat, cat0) &&
    forall i', j' :: 0 <= i' < |cat0| && 0 <= j' < |cat0[i'].entries| ==>
      if i' < i || (i' == i && j' < j) then AttemptedAt(cat0, cat, i', j', reply)
      else cat[i'].entries[j'] == cat0[i'].entries[j']
  }

  /** Having tried every gateway of area `i` is having tried everything before area `i + 1`. */
  lemma TriedAreaEnd(cat0: seq<Area>, cat: seq<Area>, i: nat, reply: string -> GatewayReply)
    requires i < |cat0| && TriedUpTo(cat0, cat, i, |cat0[i].entries|, reply)
    ensures TriedUpTo(cat0, cat, i + 1, 0, reply)
  {
  }

  /**
   * `cat'` is `cat` after one connection attempt on the gateway labelled `l`, answered by `answer`:
   * gateways with other labels are as they were, a missing or null gateway changes nothing, and
   * a gateway that is found has been through the attempt.
   */
  ghost predicate AttemptedLabel(cat: seq<Area>, cat': seq<Area>, l: string, answer: GatewayReply) {
    && SameShape(cat', cat)
    && (forall i, j :: 0 <= i < |cat| && 0 <= j < |cat[i].entries| && cat[i].entries[j].cmtkLabel != l ==>
          cat'[i].entries[j] == cat[i].entries[j])
    && (CmtkOf(cat, l).None? ==> cat' == cat)
    && (CmtkOf(cat, l).Some? ==>
          CmtkOf(cat', l).Some? && Attempted(CmtkOf(cat, l).value, CmtkOf(cat', l).value, answer))
  }

  /** An attempt on the gateway labelled `l`, answered by `reply(l)`, adds `l` to the labels tried. */
  lemma TriedLabel(cat0: seq<Area>, cat: seq<Area>, cat': seq<Area>, l: string, tried: seq<string>,
                   tried': seq<string>, reply: string -> GatewayReply)
    requires forall x :: x in tried' <==> x in tried || x == l
    requires UniqueLabels(cat) && UniqueLabels(cat') && SameShape(cat', cat0)
    requires TriedOnly(cat0, cat, tried, reply)
    requires AttemptedLabel(cat, cat', l, reply(l))
    ensures TriedOnly(cat0, cat', tried', reply)
  {
    forall i, j | 0 <= i < |cat0| && 0 <= j < |cat0[i].entries|
      ensures if cat0[i].entries[j].cmtkLabel in tried' then AttemptedAt(cat0, cat', i, j, reply)
              else cat'[i].entries[j] == cat0[i].entries[j]
    {
      TriedLabelAt(cat0, cat, cat', l, tried, tried', reply, i, j);
    }
  }

  /** TriedLabel for the one gateway at (i, j). */
  lemma TriedLabelAt(cat0: seq<Area>, cat: seq<Area>, cat': seq<Area>, l: string, tried: seq<string>,
                     tried': seq<string>, reply: string -> GatewayReply, i: nat, j: nat)
    requires forall x :: x in tried' <==> x in tried || x == l
    requires UniqueLabels(cat) && UniqueLabels(cat') && SameShape(cat', cat0)
    requires TriedOnly(cat0, cat, tried, reply)
    requires AttemptedLabel(cat, cat', l, reply(l))
    requires i < |cat0| && j < |cat0[i].entries|
    ensures if cat0[i].entries[j].cmtkLabel in tried' then AttemptedAt(cat0, cat', i, j, reply)
            else cat'[i].entries[j] == cat0[i].entries[j]
  {
    var e := cat0[i].entries[j];
    assert cat[i].entries[j].cmtkLabel == e.cmtkLabel;
    if e.cmtkLabel == l {
      LookupFindsEntry(cat, i, j);
      LookupFindsEntry(cat', i, j);
      if e.cmtk.Some? && l in tried {
        AttemptedAgain(e.cmtk.value, cat[i].entries[j].cmtk.value, cat'[i].entries[j].cmtk.value, reply(l));
      }
    } else {
      assert cat'[i].entries[j] == cat[i].entries[j];
    }
  }

  /** Having tried every label of the list is having tried the list. */
  lemma TriedAll(cat0: seq<Area>, cat: seq<Area>, labels: seq<string>, reply: string -> GatewayReply)
    requires TriedOnly(cat0, cat, labels[..|labels|], reply)
    ensures TriedOnly(cat0, cat, labels, reply)
  {
    assert labels[..|labels|] == labels;
  }

  /** An attempt at (i, j) that changes no other gateway extends the tried prefix by that gateway. */
  lemma TriedNext(cat0: seq<Area>, cat: seq<Area>, cat': seq<Area>, i: nat, j: nat, reply: string -> GatewayReply)
    requires i < |cat0| && j < |cat0[i].entries| && SameShape(cat', cat0)
    requires TriedUpTo(cat0, cat, i, j, reply)
    requires forall i', j' :: 0 <= i' < |cat0| && 0 <= j' < |cat0[i'].entries| && (i', j') != (i, j) ==>
               cat'[i'].entries[j'] == cat[i'].entries[j']
    requires AttemptedAt(cat0, cat', i, j, reply)
    ensures TriedUpTo(cat0, cat', i, j + 1, reply)
  {
    forall i', j' | 0 <= i' < |cat0| && 0 <= j' < |cat0[i'].entries| && (i', j') != (i, j)
      ensures cat'[i'].entries[j'] == cat[i'].entries[j']
    {
    }
  }

  // ---------------------------------------------------------------------------------------------
  // The server's state
  // ---------------------------------------------------------------------------------------------

  class Monitor {
    /** `CMTKs`: areas, their gateways and the gateways' ports. */
    var catalogue: seq<Area>
    var errorsHistory: seq<LogEntry>
    /** Labels of the gateways whose connection failed, in the order they failed. */
    var noConnectedCmtk: seq<string>
    /** The Try2Connect interval is running. */
    var retryArmed: bool
    /** `samplingTime`; `None` is NaN. */
    var samplingTime: Option<real>
    /** The ErrorsHandler interval is running. */
    var samplingArmed: bool
    /** The detection depths shared by every sensor. */
    const settings: Settings

    /** Labels are unique and no sensor is the port of two gateways or two ports. */
    ghost predicate Valid()
      reads this`catalogue
    {
      UniqueLabels(catalogue) && Distinct(AllSensors(catalogue))
    }

    /** The server as it starts, with the catalogue read from the configuration files. */
    constructor(areas: seq<Area>)
      requires UniqueLabels(areas) && Distinct(AllSensors(areas))
      ensures Valid() && catalogue == areas
      ensures errorsHistory == [SeedEntry] && noConnectedCmtk == [] && !retryArmed
      ensures samplingTime == Some(DefaultSamplingTime) && !samplingArmed
      ensures fresh(settings) && settings.countToBeFail == 10 && settings.countToBeHealth == 20
    {
      catalogue := areas;
      errorsHistory := [SeedEntry];
      noConnectedCmtk := [];
      retryArmed := false;
      samplingTime := Some(DefaultSamplingTime);
      samplingArmed := false;
      settings := new Settings();
    }

    // -------------------------------------------------------------------------------------------
    // Lookups
    // -------------------------------------------------------------------------------------------

    /** findCmtk: the gateway of the first area listing the label. */
    method FindCmtk(cmtkLabel: string) returns (r: Option<Cmtk>)
      ensures r == CmtkOf(catalogue, cmtkLabel)
    {
      var i := 0;
      while i < |catalogue|
        invariant 0 <= i <= |catalogue|
        invariant forall k :: 0 <= k < i ==> !HasLabel(catalogue[k].entries, cmtkLabel)
      {
        if HasLabel(catalogue[i].entries, cmtkLabel) {
          assert FirstArea(catalogue, cmtkLabel) == i by {
            FirstAreaIs(catalogue, cmtkLabel, i);
          }
          return catalogue[i].entries[FirstEntry(catalogue[i].entries, cmtkLabel)].cmtk;
        }
        i := i + 1;
      }
      FirstAreaIs(catalogue, cmtkLabel, i);
      return None;
    }

    /** findLocationByCmtk: the name of the first area listing the label. */
    method FindLocationByCmtk(cmtkLabel: string) returns (r: Option<string>)
      ensures r == LocationOf(catalogue, cmtkLabel)
    {
      var i := 0;
      while i < |catalogue|
        invariant 0 <= i <= |catalogue|
        invariant forall k :: 0 <= k < i ==> !HasLabel(catalogue[k].entries, cmtkLabel)
      {
        if HasLabel(catalogue[i].entries, cmtkLabel) {
          FirstAreaIs(catalogue, cmtkLabel, i);
          return Some(catalogue[i].name);
        }
        i := i + 1;
      }
      FirstAreaIs(catalogue, cmtkLabel, i);
      return None;
    }

    // -------------------------------------------------------------------------------------------
    // ErrorsHandler
    // -------------------------------------------------------------------------------------------

    /**
     * One tick: every port of every connected gateway, up to the first port without a reading,
     * runs the failure, warning and recovery detection once; a newly latched failure is logged with
     * the record DetectEngineFailure wrote and the gateway's area.
     */
    method ErrorsHandler(now: string)
      requires Valid()
      modifies this`errorsHistory, set s | s in AllSensors(catalogue)
      ensures Agrees(catalogue, old(ViewsOf(catalogue)),
                     Visits(old(catalogue), old(noConnectedCmtk), old(ViewsOf(catalogue))),
                     settings.countToBeFail, settings.countToBeHealth, now)
      ensures errorsHistory == old(errorsHistory) +
                LogOf(Visits(old(catalogue), old(noConnectedCmtk), old(ViewsOf(catalogue))), old(ViewsOf(catalogue)),
                      settings.countToBeFail, now)
    {
      ghost var cat := catalogue;
      ghost var pending := noConnectedCmtk;
      ghost var base := ViewsOf(catalogue);
      ghost var P := Visits(cat, pending, base);
      ghost var h0 := errorsHistory;
      VisitsDistinct(cat, pending, base);
      ghost var done: seq<Visit> := [];
      assert Advanced(base, [], settings.countToBeFail, settings.countToBeHealth, now) == base;
      var i := 0;
      while i < |catalogue|
        invariant catalogue == cat && noConnectedCmtk == pending
        invariant 0 <= i <= |cat|
        invariant P == done + Visits(cat[i..], pending, base)
        invariant Agrees(cat, base, done, settings.countToBeFail, settings.countToBeHealth, now)
        invariant errorsHistory == h0 + LogOf(done, base, settings.countToBeFail, now)
      {
        assert cat[i..][1..] == cat[i + 1..];
        AreaSensorsInAll(cat, i);
        assert forall s :: s in EntriesSensors(cat[i].entries) ==> s in base;
        ghost var before := done;
        ghost var rest := Visits(cat[i + 1..], pending, base);
        ghost var A := AreaVisits(cat[i].name, cat[i].entries, pending, base);
        assert P == before + (A + rest);
        done := TickArea(i, cat, pending, base, done, rest, h0, now);
        AppendAssoc(before, A, rest);
        i := i + 1;
      }
      assert cat[|cat|..] == [];
      assert done == P;
    }

    /** The gateway loop of one area. */
    method TickArea(i: nat, ghost cat: seq<Area>, ghost pending: seq<string>, ghost base: Views,
                    ghost done: seq<Visit>, ghost rest: seq<Visit>, ghost h0: seq<LogEntry>, now: string)
      returns (ghost done': seq<Visit>)
      requires cat == catalogue && pending == noConnectedCmtk
      requires Valid() && i < |cat|
      requires Distinct(VisitSensors(done + (AreaVisits(cat[i].name, cat[i].entries, pending, base) + rest)))
      requires forall s :: s in EntriesSensors(cat[i].entries) ==> s in base
      requires Agrees(cat, base, done, settings.countToBeFail, settings.countToBeHealth, now)
      requires errorsHistory == h0 + LogOf(done, base, settings.countToBeFail, now)
      modifies this`errorsHistory, EntriesSensors(cat[i].entries)
      ensures catalogue == cat && noConnectedCmtk == pending
      ensures done' == done + AreaVisits(cat[i].name, cat[i].entries, pending, base)
      ensures Agrees(cat, base, done', settings.countToBeFail, settings.countToBeHealth, now)
      ensures errorsHistory == h0 + LogOf(done', base, settings.countToBeFail, now)
    {
      var area := catalogue[i];
      ghost var es := area.entries;
      done' := done;
      var j := 0;
      while j < |area.entries|
        invariant catalogue == cat && noConnectedCmtk == pending
        invariant 0 <= j <= |es|
        invariant Distinct(VisitSensors(done' + (AreaVisits(area.name, es[j..], pending, base) + rest)))
        invariant done + AreaVisits(area.name, es, pending, base) == done' + AreaVisits(area.name, es[j..], pending, base)
        invariant Agrees(cat, base, done', settings.countToBeFail, settings.countToBeHealth, now)
        invariant errorsHistory == h0 + LogOf(done', base, settings.countToBeFail, now)
      {
        done' := TickEntry(i, j, cat, pending, base, done', rest, h0, now);
        j := j + 1;
      }
      assert es[|es|..] == [] && es[0..] == es;
    }

    /** One gateway of the area loop: skipped when pending or unknown, otherwise its ports ticked. */
    method TickEntry(i: nat, j: nat, ghost cat: seq<Area>, ghost pending: seq<string>, ghost base: Views,
                     ghost done: seq<Visit>, ghost rest: seq<Visit>, ghost h0: seq<LogEntry>, now: string)
      returns (ghost done': seq<Visit>)
      requires cat == catalogue && pending == noConnectedCmtk
      requires UniqueLabels(cat) && i < |cat| && j < |cat[i].entries|
      requires Distinct(VisitSensors(done + (AreaVisits(cat[i].name, cat[i].entries[j..], pending, base) + rest)))
      requires forall s :: s in EntriesSensors(cat[i].entries) ==> s in base
      requires Agrees(cat, base, done, settings.countToBeFail, settings.countToBeHealth, now)
      requires errorsHistory == h0 + LogOf(done, base, settings.countToBeFail, now)
      modifies this`errorsHistory, EntriesSensors(cat[i].entries)
      ensures Distinct(VisitSensors(done' + (AreaVisits(cat[i].name, cat[i].entries[j + 1..], pending, base) + rest)))
      ensures done' + AreaVisits(cat[i].name, cat[i].entries[j + 1..], pending, base) ==
              done + AreaVisits(cat[i].name, cat[i].entries[j..], pending, base)
      ensures Agrees(cat, base, done', settings.countToBeFail, settings.countToBeHealth, now)
      ensures errorsHistory == h0 + LogOf(done', base, settings.countToBeFail, now)
    {
      ghost var es := cat[i].entries;
      ghost var later := AreaVisits(cat[i].name, es[j + 1..], pending, base);
      LookupFindsEntry(cat, i, j);
      EntrySensorsInEntries(es, j);
      AreaVisitsStep(cat[i].name, es, j, pending, base, done, rest);
      var e := catalogue[i].entries[j];
      // findCmtk changes nothing: its answer is CmtkOf, which FindCmtk computes
      var found := CmtkOf(catalogue, e.cmtkLabel);
      if e.cmtkLabel in noConnectedCmtk || found.None? {
        assert done + [] == done;
        return done;
      }
      done' := TickCmtk(catalogue[i].name, e.cmtk.value.ports, cat, base, done, later + rest, h0, now);
    }

    /** The port loop of one gateway. */
    method TickCmtk(area: string, ports: seq<Port>, ghost cat: seq<Area>, ghost base: Views, ghost done: seq<Visit>,
                    ghost rest: seq<Visit>, ghost h0: seq<LogEntry>, now: string)
      returns (ghost done': seq<Visit>)
      requires Distinct(VisitSensors(done + (CmtkVisits(area, ports, base) + rest)))
      requires forall s :: s in PortSensors(ports) ==> s in base
      requires Agrees(cat, base, done, settings.countToBeFail, settings.countToBeHealth, now)
      requires errorsHistory == h0 + LogOf(done, base, settings.countToBeFail, now)
      modifies this`errorsHistory, set s | s in PortSensors(ports)
      ensures done' == done + CmtkVisits(area, ports, base)
      ensures Agrees(cat, base, done', settings.countToBeFail, settings.countToBeHealth, now)
      ensures errorsHistory == h0 + LogOf(done', base, settings.countToBeFail, now)
    {
      ghost var C := CmtkVisits(area, ports, base);
      done' := done;
      var k := 0;
      var stop := false;
      while k < |ports| && !stop
        invariant 0 <= k <= |C|
        invariant stop ==> k == |C|
        invariant done' == done + C[..k]
        invariant Agrees(cat, base, done', settings.countToBeFail, settings.countToBeHealth, now)
        invariant errorsHistory == h0 + LogOf(done', base, settings.countToBeFail, now)
        decreases |ports| - k, if stop then 0 else 1
      {
        stop, done' := TickNext(area, ports, k, cat, base, done, done', rest, h0, now);
        if !stop {
          k := k + 1;
        }
      }
      assert C[..|C|] == C;
    }

    /**
     * One round of the port loop: stop at a port without a reading, otherwise tick it.
     */
    method TickNext(area: string, ports: seq<Port>, k: nat, ghost cat: seq<Area>, ghost base: Views, ghost done: seq<Visit>,
                    ghost cur: seq<Visit>, ghost rest: seq<Visit>, ghost h0: seq<LogEntry>, now: string)
      returns (stop: bool, ghost cur': seq<Visit>)
      requires k < |ports| && k <= |CmtkVisits(area, ports, base)|
      requires Distinct(VisitSensors(done + (CmtkVisits(area, ports, base) + rest)))
      requires forall s :: s in PortSensors(ports) ==> s in base
      requires cur == done + CmtkVisits(area, ports, base)[..k]
      requires Agrees(cat, base, cur, settings.countToBeFail, settings.countToBeHealth, now)
      requires errorsHistory == h0 + LogOf(cur, base, settings.countToBeFail, now)
      modifies this`errorsHistory, ports[k].sensor
      ensures stop ==> k == |CmtkVisits(area, ports, base)| && cur' == cur
      ensures !stop ==> k < |CmtkVisits(area, ports, base)| && cur' == done + CmtkVisits(area, ports, base)[..k + 1]
      ensures Agrees(cat, base, cur', settings.countToBeFail, settings.countToBeHealth, now)
      ensures errorsHistory == h0 + LogOf(cur', base, settings.countToBeFail, now)
    {
      var s := ports[k].sensor;
      assert s in PortSensors(ports);
      cur' := cur;
      assert ViewsOf(cat)[s].reading == s.lastReadValues;
      if s.lastReadValues.None? {
        return true, cur';
      }
      ghost var C := CmtkVisits(area, ports, base);
      NextVisitUnticked(done, C, rest, k);
      var v := Visit(area, s);
      TickPort(v, cat, base, cur, h0, now);
      cur' := cur + [v];
      stop := false;
    }

    /**
     * DetectEngineFailure, DetectEngineWarning and DetectEngineOk on one sensor; `record` is the
     * error record as the first of them leaves it.
     */
    method Detect(s: Sensor, now: string) returns (raised: bool, record: ErrorRecord)
      modifies s
      ensures (s.Snapshot(), raised) ==
              PortTick(old(s.Snapshot()), s.lastReadValues, s.CurrentLimits(),
                       settings.countToBeFail, settings.countToBeHealth, now)
      ensures record == FailureStep(old(s.Snapshot()), s.lastReadValues, s.CurrentLimits(),
                                    settings.countToBeFail, now).0.error
      ensures s.lastReadValues == old(s.lastReadValues) && s.CurrentLimits() == old(s.CurrentLimits())
    {
      raised := s.DetectEngineFailure(settings, now);
      record := s.error;
      var _ := s.DetectEngineWarning(settings, now);
      var _ := s.DetectEngineOk(settings);
    }

    /** Detect, seen from the views of every sensor of the catalogue: only the port's own changes. */
    method DetectInCatalogue(s: Sensor, ghost cat: seq<Area>, ghost views: Views, now: string)
      returns (raised: bool, record: ErrorRecord)
      requires s in AllSensors(cat) && views == ViewsOf(cat)
      modifies s
      ensures (s.Snapshot(), raised) ==
              PortTick(old(s.Snapshot()), s.lastReadValues, s.CurrentLimits(),
                       settings.countToBeFail, settings.countToBeHealth, now)
      ensures record == FailureStep(old(s.Snapshot()), s.lastReadValues, s.CurrentLimits(),
                                    settings.countToBeFail, now).0.error
      ensures s.lastReadValues == old(s.lastReadValues) && s.CurrentLimits() == old(s.CurrentLimits())
      ensures ViewsOf(cat) == views[s := SensorView(s.Snapshot(), s.lastReadValues, s.CurrentLimits())]
    {
      raised, record := Detect(s, now);
      ghost var after := ViewsOf(cat);
      forall t | t in after
        ensures t in views && after[t] == views[s := SensorView(s.Snapshot(), s.lastReadValues, s.CurrentLimits())][t]
      {
        assert t in AllSensors(cat);
      }
    }

    /** The three detection calls on one port, and the log entry when a failure is latched. */
    method TickPort(v: Visit, ghost cat: seq<Area>, ghost base: Views, ghost done: seq<Visit>,
                    ghost h0: seq<LogEntry>, now: string)
      requires v.sensor in base && v.sensor !in VisitSensors(done)
      requires Agrees(cat, base, done, settings.countToBeFail, settings.countToBeHealth, now)
      requires errorsHistory == h0 + LogOf(done, base, settings.countToBeFail, now)
      modifies this`errorsHistory, v.sensor
      ensures Agrees(cat, base, done + [v], settings.countToBeFail, settings.countToBeHealth, now)
      ensures errorsHistory == h0 + LogOf(done + [v], base, settings.countToBeFail, now)
    {
      var s := v.sensor;
      ghost var N, H := settings.countToBeFail, settings.countToBeHealth;
      ghost var entry := TickLog(base[s].health, base[s].reading, base[s].limits, N, now, v.area);
      LogOfSnoc(done, v, base, N, now);
      AppendAssoc(h0, LogOf(done, base, N, now), entry);
      VisitSensorsConcat(done, [v]);
      assert VisitSensors([v]) == [s];
      AdvancedStep(base, VisitSensors(done), s, N, H, now);
      ghost var before := ViewsOf(cat);
      assert s in before && before[s] == base[s];
      var raised, record := DetectInCatalogue(s, cat, before, now);
      if raised {
        Record(EntryOf(record, v.area), cat);
      }
      assert errorsHistory == old(errorsHistory) + entry;
    }

    /** `errorsHistory.push(entry)`, which leaves every sensor as it was. */
    method Record(entry: LogEntry, ghost cat: seq<Area>)
      modifies this`errorsHistory
      ensures errorsHistory == old(errorsHistory) + [entry]
      ensures ViewsOf(cat) == old(ViewsOf(cat))
    {
      errorsHistory := errorsHistory + [entry];
    }

    // -------------------------------------------------------------------------------------------
    // DepureHistory
    // -------------------------------------------------------------------------------------------

    /** Removes, from the back, every log entry dated before `cutoff`. */
    method DepureHistory(cutoff: string)
      modifies this`errorsHistory
      ensures errorsHistory == Kept(old(errorsHistory), cutoff)
    {
      ghost var h0 := errorsHistory;
      var index := |errorsHistory|;
      assert h0[index..] == [];
      while index > 0
        invariant 0 <= index <= |h0|
        invariant errorsHistory == h0[..index] + Kept(h0[index..], cutoff)
      {
        index := index - 1;
        assert h0[index..][1..] == h0[index + 1..];
        assert errorsHistory[index] == h0[index];
        if Older(errorsHistory[index].date, cutoff) {
          errorsHistory := errorsHistory[..index] + errorsHistory[index + 1..];
        } else {
          AppendAssoc(h0[..index], [h0[index]], Kept(h0[index + 1..], cutoff));
          assert h0[..index + 1] == h0[..index] + [h0[index]];
        }
      }
      assert h0[0..] == h0;
    }

    // -------------------------------------------------------------------------------------------
    // Connecting
    // -------------------------------------------------------------------------------------------

    /**
     * Connect2Cmtk: a gateway that is found gets its InfluxDB connection and table list, and a
     * fresh sensor for each table up to the port whose MQTT start fails; true only when all of
     * them start.  A label not found, or a null gateway, changes nothing.
     */
    method Connect2Cmtk(cmtkLabel: string, reply: GatewayReply) returns (connected: bool)
      requires Valid()
      modifies this`catalogue
      ensures Valid() && SameSlots(catalogue, old(catalogue))
      ensures connected <==> Connects(old(catalogue), cmtkLabel, reply)
      ensures forall l :: CmtkOf(catalogue, l).Some? <==> CmtkOf(old(catalogue), l).Some?
      ensures forall l :: l != cmtkLabel ==> CmtkOf(catalogue, l) == CmtkOf(old(catalogue), l)
      ensures CmtkOf(old(catalogue), cmtkLabel).None? ==> catalogue == old(catalogue)
      ensures forall i, j ::
                0 <= i < |catalogue| && 0 <= j < |catalogue[i].entries| && catalogue[i].entries[j].cmtkLabel != cmtkLabel
                ==> catalogue[i].entries[j] == old(catalogue)[i].entries[j]
      ensures CmtkOf(old(catalogue), cmtkLabel).Some? ==>
                CmtkOf(catalogue, cmtkLabel).Some? &&
                Attempted(CmtkOf(old(catalogue), cmtkLabel).value, CmtkOf(catalogue, cmtkLabel).value, reply)
      ensures CmtkOf(old(catalogue), cmtkLabel).Some? ==>
                forall n :: n in CreatedPorts(reply) ==>
                  var s := PortNamed(CmtkOf(catalogue, cmtkLabel).value.ports, n).value;
                  fresh(s) && Pristine(s, n, cmtkLabel)
    {
      var i := FirstArea(catalogue, cmtkLabel);
      if i == |catalogue| {
        return false;
      }
      var j := FirstEntry(catalogue[i].entries, cmtkLabel);
      if catalogue[i].entries[j].cmtk.None? {
        return false;
      }
      connected := ConnectAt(i, j, reply);
    }

    /** Connect2Cmtk on the non-null gateway stored at (i, j). */
    method ConnectAt(i: nat, j: nat, reply: GatewayReply) returns (connected: bool)
      requires Valid()
      requires i < |catalogue| && j < |catalogue[i].entries| && catalogue[i].entries[j].cmtk.Some?
      modifies this`catalogue
      ensures Valid() && SameSlots(catalogue, old(catalogue))
      ensures connected <==> ConnectOk(reply)
      ensures forall l :: CmtkOf(catalogue, l).Some? <==> CmtkOf(old(catalogue), l).Some?
      ensures forall l :: l != old(catalogue)[i].entries[j].cmtkLabel ==> CmtkOf(catalogue, l) == CmtkOf(old(catalogue), l)
      ensures catalogue[i].entries[j].cmtk.Some?
      ensures forall i', j' :: 0 <= i' < |catalogue| && 0 <= j' < |catalogue[i'].entries| && (i', j') != (i, j) ==>
                catalogue[i'].entries[j'] == old(catalogue)[i'].entries[j']
      ensures CmtkOf(catalogue, old(catalogue)[i].entries[j].cmtkLabel) == catalogue[i].entries[j].cmtk
      ensures Attempted(old(catalogue)[i].entries[j].cmtk.value, catalogue[i].entries[j].cmtk.value, reply)
      ensures forall n :: n in CreatedPorts(reply) ==>
                var s := PortNamed(catalogue[i].entries[j].cmtk.value.ports, n).value;
                fresh(s) && Pristine(s, n, old(catalogue)[i].entries[j].cmtkLabel)
      ensures fresh(CreatedSensors(catalogue[i].entries[j].cmtk.value, reply))
      ensures CreatedPristine(catalogue[i].entries[j].cmtk.value, old(catalogue)[i].entries[j].cmtkLabel, reply)
    {
      var entry := catalogue[i].entries[j];
      EntryDistinct(catalogue, i, j);
      var c;
      c, connected := ConnectGateway(entry.cmtk.value, entry.cmtkLabel, reply, AllSensors(catalogue));
      ConnectTo(i, j, c);
    }

    /** Stores the connected gateway in its place. */
    method ConnectTo(i: nat, j: nat, c: Cmtk)
      requires Valid()
      requires i < |catalogue| && j < |catalogue[i].entries| && catalogue[i].entries[j].cmtk.Some?
      requires Distinct(PortSensors(c.ports))
      requires forall s :: s in PortSensors(c.ports) ==>
                 s in PortSensors(catalogue[i].entries[j].cmtk.value.ports) || s !in AllSensors(catalogue)
      modifies this`catalogue
      ensures catalogue == WithCmtk(old(catalogue), i, j, c)
      ensures catalogue[i].entries[j].cmtk == Some(c)
      ensures Valid() && SameSlots(catalogue, old(catalogue))
      ensures forall i', j' :: 0 <= i' < |catalogue| && 0 <= j' < |catalogue[i'].entries| && (i', j') != (i, j) ==>
                catalogue[i'].entries[j'] == old(catalogue)[i'].entries[j']
      ensures CmtkOf(catalogue, old(catalogue)[i].entries[j].cmtkLabel) == Some(c)
      ensures forall l :: l != old(catalogue)[i].entries[j].cmtkLabel ==> CmtkOf(catalogue, l) == CmtkOf(old(catalogue), l)
      ensures forall l :: CmtkOf(catalogue, l).Some? <==> CmtkOf(old(catalogue), l).Some?
    {
      WithCmtkPresence(catalogue, i, j, c);
      WithCmtkSlots(catalogue, i, j, c);
      WithCmtkLookups(catalogue, i, j, c);
      WithCmtkDistinct(catalogue, i, j, c);
      WithCmtkElsewhere(catalogue, i, j, c);
      catalogue := WithCmtk(catalogue, i, j, c);
    }

    /**
     * Try2Connect: one attempt per pending label, in order; the labels that connect leave the list,
     * and the interval stops when a success empties it.
     */
    method Try2Connect(reply: string -> GatewayReply)
      requires Valid()
      modifies this`catalogue, this`noConnectedCmtk, this`retryArmed
      ensures Valid() && SameSlots(catalogue, old(catalogue))
      ensures forall l :: CmtkOf(catalogue, l).Some? <==> CmtkOf(old(catalogue), l).Some?
      ensures noConnectedCmtk == StillPending(old(noConnectedCmtk), old(catalogue), reply)
      ensures retryArmed == (old(retryArmed) && !(old(noConnectedCmtk) != [] && noConnectedCmtk == []))
      // each pending gateway has been through an attempt, and every other gateway is as it was
      ensures TriedOnly(old(catalogue), catalogue, old(noConnectedCmtk), reply)
    {
      ghost var cat0 := catalogue;
      var labels := noConnectedCmtk;
      var idx := 0;
      while idx < |labels|
        invariant 0 <= idx <= |labels|
        invariant Valid() && SameSlots(catalogue, cat0)
        invariant TriedOnly(cat0, catalogue, labels[..idx], reply)
        invariant noConnectedCmtk == PendingAfter(labels, idx, cat0, reply)
        invariant retryArmed == (old(retryArmed) && (labels == [] || noConnectedCmtk != []))
      {
        Retry(labels, idx, cat0, old(retryArmed), reply);
        idx := idx + 1;
      }
      TriedAll(cat0, catalogue, labels, reply);
      PendingAfterAll(labels, cat0, reply);
      SameSlotsPresence(catalogue, cat0);
    }

    /**
     * One round of Try2Connect's loop: the attempt for `labels[idx]`, judged against the catalogue
     * `cat0` the loop started from, and the label's removal from the list when it connects, which
     * stops the interval once the list is empty.
     */
    method Retry(labels: seq<string>, idx: nat, ghost cat0: seq<Area>, ghost armed: bool,
                 reply: string -> GatewayReply)
      requires idx < |labels|
      requires Valid() && SameSlots(catalogue, cat0)
      requires noConnectedCmtk == PendingAfter(labels, idx, cat0, reply)
      requires retryArmed == (armed && noConnectedCmtk != [])
      requires TriedOnly(cat0, catalogue, labels[..idx], reply)
      modifies this`catalogue, this`noConnectedCmtk, this`retryArmed
      ensures Valid() && SameSlots(catalogue, cat0)
      ensures noConnectedCmtk == PendingAfter(labels, idx + 1, cat0, reply)
      ensures retryArmed == (armed && noConnectedCmtk != [])
      ensures TriedOnly(cat0, catalogue, labels[..idx + 1], reply)
    {
      ghost var before := catalogue;
      var connected := Reconnect(labels[idx], cat0, reply);
      PrefixStep(labels, idx);
      TriedLabel(cat0, before, catalogue, labels[idx], labels[..idx], labels[..idx + 1], reply);
      if connected {
        Forget(labels[idx]);
      }
    }

    /** `await Connect2Cmtk(cmtkLabel)`, judged against the catalogue `cat0` it started from. */
    method Reconnect(cmtkLabel: string, ghost cat0: seq<Area>, reply: string -> GatewayReply)
      returns (connected: bool)
      requires Valid() && SameSlots(catalogue, cat0)
      modifies this`catalogue
      ensures Valid() && SameSlots(catalogue, cat0)
      ensures connected <==> Connects(cat0, cmtkLabel, reply(cmtkLabel))
      ensures AttemptedLabel(old(catalogue), catalogue, cmtkLabel, reply(cmtkLabel))
    {
      ghost var before := catalogue;
      var answer := reply(cmtkLabel);
      SameSlotsPresence(catalogue, cat0);
      connected := Connect2Cmtk(cmtkLabel, answer);
      SameSlotsTransitive(catalogue, before, cat0);
      assert reply(cmtkLabel) == answer;
    }

    /** `noConnectedCmtk = noConnectedCmtk.filter(...)`, and `clearInterval` once the list is empty. */
    method Forget(cmtkLabel: string)
      modifies this`noConnectedCmtk, this`retryArmed
      ensures noConnectedCmtk == Without(old(noConnectedCmtk), {cmtkLabel})
      ensures retryArmed == (old(retryArmed) && noConnectedCmtk != [])
      ensures old(noConnectedCmtk) == [] ==> noConnectedCmtk == []
    {
      noConnectedCmtk := Without(noConnectedCmtk, {cmtkLabel});
      if noConnectedCmtk == [] {
        retryArmed := false;
      }
    }

    /**
     * The start-up loop: one connection attempt per gateway in catalogue order; a non-null gateway
     * whose attempt fails is put on the pending list, the retry interval starting with the first
     * one; then the ErrorsHandler interval starts.
     */
    method Startup(reply: string -> GatewayReply)
      requires Valid()
      modifies this`catalogue, this`noConnectedCmtk, this`retryArmed, this`samplingArmed
      ensures Valid() && SameSlots(catalogue, old(catalogue))
      ensures forall l :: CmtkOf(catalogue, l).Some? <==> CmtkOf(old(catalogue), l).Some?
      ensures noConnectedCmtk == old(noConnectedCmtk) + FailedLabels(old(catalogue), reply)
      ensures retryArmed == (old(retryArmed) || (old(noConnectedCmtk) == [] && noConnectedCmtk != []))
      ensures samplingArmed
      // every gateway has been through its attempt
      ensures forall i, j :: 0 <= i < |old(catalogue)| && 0 <= j < |old(catalogue)[i].entries| ==>
                AttemptedAt(old(catalogue), catalogue, i, j, reply)
    {
      ConnectAll(reply);
      samplingArmed := true;
    }

    /** The loop of the start-up code over every gateway, before the ErrorsHandler interval starts. */
    method ConnectAll(reply: string -> GatewayReply)
      requires Valid()
      modifies this`catalogue, this`noConnectedCmtk, this`retryArmed
      ensures Valid() && SameSlots(catalogue, old(catalogue))
      ensures forall l :: CmtkOf(catalogue, l).Some? <==> CmtkOf(old(catalogue), l).Some?
      ensures noConnectedCmtk == old(noConnectedCmtk) + FailedLabels(old(catalogue), reply)
      ensures retryArmed == (old(retryArmed) || (old(noConnectedCmtk) == [] && noConnectedCmtk != []))
      // every gateway has been through its attempt
      ensures forall i, j :: 0 <= i < |old(catalogue)| && 0 <= j < |old(catalogue)[i].entries| ==>
                AttemptedAt(old(catalogue), catalogue, i, j, reply)
    {
      ghost var cat0 := catalogue;
      ghost var p0 := noConnectedCmtk;
      var areas := |catalogue|;
      var i := 0;
      LabelsStart(p0, cat0, reply);
      while i < areas
        invariant 0 <= i <= areas == |cat0|
        invariant Valid() && SameSlots(catalogue, cat0)
        invariant TriedUpTo(cat0, catalogue, i, 0, reply)
        invariant noConnectedCmtk == p0 + FailedLabels(cat0[..i], reply)
        invariant retryArmed == (old(retryArmed) || (p0 == [] && noConnectedCmtk != []))
      {
        StartArea(i, cat0, p0, FailedLabels(cat0[..i], reply), old(retryArmed), reply);
        LabelsStep(p0, cat0, i, reply);
        i := i + 1;
      }
      LabelsEnd(p0, cat0, reply);
      SameSlotsPresence(catalogue, cat0);
    }

    /**
     * The start-up loop over the gateways of area `i`, appending the labels of those that fail to
     * the pending list, which is `p0` followed by what the loop has `listed` before this area.
     */
    method StartArea(i: nat, ghost cat0: seq<Area>, ghost p0: seq<string>, ghost listed: seq<string>,
                     ghost armed: bool, reply: string -> GatewayReply)
      requires i < |cat0|
      requires Valid() && SameSlots(catalogue, cat0)
      requires noConnectedCmtk == p0 + listed
      requires retryArmed == (armed || (p0 == [] && noConnectedCmtk != []))
      requires TriedUpTo(cat0, catalogue, i, 0, reply)
      modifies this`catalogue, this`noConnectedCmtk, this`retryArmed
      ensures Valid() && SameSlots(catalogue, cat0)
      ensures noConnectedCmtk == p0 + (listed + FailedInArea(cat0[i].entries, reply))
      ensures retryArmed == (armed || (p0 == [] && noConnectedCmtk != []))
      ensures TriedUpTo(cat0, catalogue, i + 1, 0, reply)
    {
      var gateways := |catalogue[i].entries|;
      var j := 0;
      AreaStart(listed, cat0[i].entries, reply);
      while j < gateways
        invariant 0 <= j <= gateways == |cat0[i].entries|
        invariant Valid() && SameSlots(catalogue, cat0)
        invariant TriedUpTo(cat0, catalogue, i, j, reply)
        invariant noConnectedCmtk == p0 + (listed + FailedInArea(cat0[i].entries[..j], reply))
        invariant retryArmed == (armed || (p0 == [] && noConnectedCmtk != []))
      {
        StartEntry(i, j, cat0, p0, listed + FailedInArea(cat0[i].entries[..j], reply), armed, reply);
        AreaStep(listed, cat0[i].entries, j, reply);
        j := j + 1;
      }
      AreaEnd(listed, cat0[i].entries, reply);
      TriedAreaEnd(cat0, catalogue, i, reply);
    }

    /**
     * The start-up loop on the gateway at (i, j): the attempt, then the gateway's label appended to
     * the pending list when the attempt failed.  The list is `p0` followed by what the loop has
     * `listed` so far.
     */
    method StartEntry(i: nat, j: nat, ghost cat0: seq<Area>, ghost p0: seq<string>, ghost listed: seq<string>,
                      ghost armed: bool, reply: string -> GatewayReply)
      requires i < |cat0| && j < |cat0[i].entries|
      requires Valid() && SameSlots(catalogue, cat0)
      requires noConnectedCmtk == p0 + listed
      requires retryArmed == (armed || (p0 == [] && noConnectedCmtk != []))
      requires TriedUpTo(cat0, catalogue, i, j, reply)
      modifies this`catalogue, this`noConnectedCmtk, this`retryArmed
      ensures Valid() && SameSlots(catalogue, cat0)
      ensures noConnectedCmtk == p0 + (listed + FailedEntry(cat0[i].entries[j], reply))
      ensures retryArmed == (armed || (p0 == [] && noConnectedCmtk != []))
      ensures TriedUpTo(cat0, catalogue, i, j + 1, reply)
      ensures forall i', j' :: 0 <= i' < |catalogue| && 0 <= j' < |catalogue[i'].entries| && (i', j') != (i, j) ==>
                catalogue[i'].entries[j'] == old(catalogue)[i'].entries[j']
      ensures cat0[i].entries[j].cmtk.Some? ==>
                catalogue[i].entries[j].cmtk.Some? &&
                fresh(CreatedSensors(catalogue[i].entries[j].cmtk.value, reply(cat0[i].entries[j].cmtkLabel))) &&
                CreatedPristine(catalogue[i].entries[j].cmtk.value, cat0[i].entries[j].cmtkLabel,
                                reply(cat0[i].entries[j].cmtkLabel))
    {
      ghost var before := catalogue;
      var cmtkLabel, failed := Attempt(i, j, cat0, reply);
      TriedNext(cat0, before, catalogue, i, j, reply);
      ghost var answer := reply(cmtkLabel);
      label Attempted:
      Remember(cmtkLabel, failed, p0, listed, armed);
      assert reply(cmtkLabel) == answer;
      if cat0[i].entries[j].cmtk.Some? {
        ghost var c := catalogue[i].entries[j].cmtk.value;
        assert old@Attempted(CreatedPristine(c, cmtkLabel, answer));
      }
    }

    /**
     * `await Connect2Cmtk(cmtkLabel)` for the gateway at (i, j), and whether the start-up loop counts
     * it as failed: a non-null gateway whose attempt returns false.
     */
    method Attempt(i: nat, j: nat, ghost cat0: seq<Area>, reply: string -> GatewayReply)
      returns (cmtkLabel: string, failed: bool)
      requires i < |cat0| && j < |cat0[i].entries|
      requires Valid() && SameSlots(catalogue, cat0)
      requires catalogue[i].entries[j] == cat0[i].entries[j]
      modifies this`catalogue
      ensures Valid() && SameSlots(catalogue, cat0)
      ensures cmtkLabel == cat0[i].entries[j].cmtkLabel
      ensures (if failed then [cmtkLabel] else []) == FailedEntry(cat0[i].entries[j], reply)
      ensures AttemptedAt(cat0, catalogue, i, j, reply)
      ensures forall i', j' :: 0 <= i' < |catalogue| && 0 <= j' < |catalogue[i'].entries| && (i', j') != (i, j) ==>
                catalogue[i'].entries[j'] == old(catalogue)[i'].entries[j']
      ensures cat0[i].entries[j].cmtk.Some? ==>
                catalogue[i].entries[j].cmtk.Some? &&
                fresh(CreatedSensors(catalogue[i].entries[j].cmtk.value, reply(cmtkLabel))) &&
                CreatedPristine(catalogue[i].entries[j].cmtk.value, cmtkLabel, reply(cmtkLabel))
    {
      ghost var before := catalogue;
      var e := catalogue[i].entries[j];
      cmtkLabel := e.cmtkLabel;
      var answer := reply(cmtkLabel);
      // Labels are unique, so the lookup of Connect2Cmtk finds this very gateway; a null one it
      // leaves alone and reports as not connected.
      LookupFindsEntry(catalogue, i, j);
      var connected := false;
      if e.cmtk.Some? {
        connected := ConnectAt(i, j, answer);
      }
      failed := e.cmtk.Some? && !connected;
      assert reply(cmtkLabel) == answer;
      SameSlotsTransitive(catalogue, before, cat0);
    }

    /**
     * `noConnectedCmtk.push(cmtkLabel)` when the attempt `failed`, starting the retry interval when
     * the list was empty.  The list is `p0` followed by what the start-up loop has `listed`; the
     * interval runs when it was running before the loop or the loop made an empty list non-empty.
     */
    method Remember(cmtkLabel: string, failed: bool, ghost p0: seq<string>, ghost listed: seq<string>,
                    ghost armed: bool)
      requires noConnectedCmtk == p0 + listed
      requires retryArmed == (armed || (p0 == [] && noConnectedCmtk != []))
      modifies this`noConnectedCmtk, this`retryArmed
      ensures noConnectedCmtk == p0 + (listed + (if failed then [cmtkLabel] else []))
      ensures retryArmed == (armed || (p0 == [] && noConnectedCmtk != []))
    {
      if failed {
        if noConnectedCmtk == [] {
          retryArmed := true;
        }
        noConnectedCmtk := noConnectedCmtk + [cmtkLabel];
        AppendAssoc(p0, listed, [cmtkLabel]);
      } else {
        assert listed + [] == listed;
      }
    }

    /**
     * The start-up loop as written: after the attempt it tests the gateway's `influxConnection`,
     * which the attempt has just set on every gateway it found, so nothing is ever put on the
     * pending list and the retry interval never starts.
     */
    method StartupAsWritten(reply: string -> GatewayReply)
      requires Valid()
      modifies this`catalogue, this`noConnectedCmtk, this`retryArmed, this`samplingArmed
      ensures Valid() && SameSlots(catalogue, old(catalogue))
      ensures noConnectedCmtk == old(noConnectedCmtk) && retryArmed == old(retryArmed)
      ensures samplingArmed
    {
      ghost var cat0 := catalogue;
      var areas := |catalogue|;
      var i := 0;
      while i < areas
        invariant 0 <= i <= areas == |cat0|
        invariant Valid() && SameSlots(catalogue, cat0)
        invariant noConnectedCmtk == old(noConnectedCmtk) && retryArmed == old(retryArmed)
      {
        var gateways := |catalogue[i].entries|;
        var j := 0;
        while j < gateways
          invariant 0 <= j <= gateways == |cat0[i].entries|
          invariant Valid() && SameSlots(catalogue, cat0)
          invariant noConnectedCmtk == old(noConnectedCmtk) && retryArmed == old(retryArmed)
        {
          ghost var before := catalogue;
          StartEntryAsWritten(i, j, reply);
          SameSlotsTransitive(catalogue, before, cat0);
          j := j + 1;
        }
        i := i + 1;
      }
      samplingArmed := true;
    }

    /** The start-up loop on the gateway at (i, j), testing `influxConnection` after the attempt. */
    method StartEntryAsWritten(i: nat, j: nat, reply: string -> GatewayReply)
      requires Valid() && i < |catalogue| && j < |catalogue[i].entries|
      modifies this`catalogue, this`noConnectedCmtk, this`retryArmed
      ensures Valid() && SameSlots(catalogue, old(catalogue))
      ensures noConnectedCmtk == old(noConnectedCmtk) && retryArmed == old(retryArmed)
    {
      var cmtkLabel, failed := AttemptAsWritten(i, j, reply);
      assert noConnectedCmtk == noConnectedCmtk + [];
      Remember(cmtkLabel, failed, noConnectedCmtk, [], retryArmed);
    }

    /**
     * The attempt for the gateway at (i, j) and the start-up loop's test as written: the gateway is
     * counted as failed when it is not null and has no database client after the attempt, which
     * never happens.
     */
    method AttemptAsWritten(i: nat, j: nat, reply: string -> GatewayReply) returns (cmtkLabel: string, failed: bool)
      requires Valid() && i < |catalogue| && j < |catalogue[i].entries|
      modifies this`catalogue
      ensures Valid() && SameSlots(catalogue, old(catalogue))
      ensures cmtkLabel == old(catalogue)[i].entries[j].cmtkLabel
      ensures !failed
    {
      var e := catalogue[i].entries[j];
      LookupFindsEntry(catalogue, i, j);
      var _ := Connect2Cmtk(e.cmtkLabel, reply(e.cmtkLabel));
      var after := FindCmtk(e.cmtkLabel);
      cmtkLabel := e.cmtkLabel;
      failed := e.cmtk.Some? && !after.value.influxConnection;
    }

    // -------------------------------------------------------------------------------------------
    // Request handlers
    // -------------------------------------------------------------------------------------------

    /** The OR over a gateway's ports of the warning and of the failure latches. */
    method PortsState(ports: seq<Port>) returns (warning: bool, failure: bool)
      ensures warning <==> exists k :: 0 <= k < |ports| && (ports[k].sensor.tempWarning || ports[k].sensor.vibWarning)
      ensures failure <==> exists k :: 0 <= k < |ports| && (ports[k].sensor.tempFailure || ports[k].sensor.vibFailure)
    {
      warning, failure := false, false;
      var k := 0;
      while k < |ports|
        invariant 0 <= k <= |ports|
        invariant warning <==> exists m :: 0 <= m < k && (ports[m].sensor.tempWarning || ports[m].sensor.vibWarning)
        invariant failure <==> exists m :: 0 <= m < k && (ports[m].sensor.tempFailure || ports[m].sensor.vibFailure)
      {
        var s := ports[k].sensor;
        warning := warning || s.tempWarning || s.vibWarning;
        failure := failure || s.tempFailure || s.vibFailure;
        k := k + 1;
      }
    }

    /** get-health-all: per area and gateway, whether any port is in warning and in failure. */
    method GetHealthAll() returns (r: seq<AreaState>)
      ensures |r| == |catalogue|
      ensures forall i :: 0 <= i < |r| ==>
                r[i].area == catalogue[i].name && |r[i].cmtks| == |catalogue[i].entries|
      ensures forall i, j :: 0 <= i < |r| && 0 <= j < |r[i].cmtks| ==>
                r[i].cmtks[j] == (catalogue[i].entries[j].cmtkLabel, StateOf(catalogue[i].entries[j].cmtk))
    {
      r := [];
      var i := 0;
      while i < |catalogue|
        invariant 0 <= i <= |catalogue| && |r| == i
        invariant forall a :: 0 <= a < i ==>
                    r[a].area == catalogue[a].name && |r[a].cmtks| == |catalogue[a].entries|
        invariant forall a, b :: 0 <= a < i && 0 <= b < |r[a].cmtks| ==>
                    r[a].cmtks[b] == (catalogue[a].entries[b].cmtkLabel, StateOf(catalogue[a].entries[b].cmtk))
      {
        var states := AreaStates(catalogue[i].entries);
        r := r + [AreaState(catalogue[i].name, states)];
        i := i + 1;
      }
    }

    /** The gateways of one area. */
    method AreaStates(entries: seq<Entry>) returns (states: seq<(string, CmtkState)>)
      ensures |states| == |entries|
      ensures forall j :: 0 <= j < |entries| ==> states[j] == (entries[j].cmtkLabel, StateOf(entries[j].cmtk))
    {
      states := [];
      var j := 0;
      while j < |entries|
        invariant 0 <= j <= |entries| && |states| == j
        invariant forall b :: 0 <= b < j ==> states[b] == (entries[b].cmtkLabel, StateOf(entries[b].cmtk))
      {
        var state := NoData;
        if entries[j].cmtk.Some? {
          var warning, failure := PortsState(entries[j].cmtk.value.ports);
          state := State(warning, failure);
        }
        states := states + [(entries[j].cmtkLabel, state)];
        j := j + 1;
      }
    }

    /**
     * set-sensor-setpoints: each pair whose failure value exceeds its warning value is stored on
     * the addressed port; success only when both are.  A missing body or gateway, or a missing port
     * once a pair is to be stored, ends in the 500 answer.
     */
    method SetSensorSetpoints(values: Option<Setpoints>) returns (reply: SetpointsReply)
      modifies AddressedSet(catalogue, values)
      ensures values.None? ==> reply == InternalError
      ensures values.Some? && CmtkOf(catalogue, values.value.cmtk).None? ==> reply == InternalError
      ensures values.Some? && CmtkOf(catalogue, values.value.cmtk).Some? &&
              Addressed(catalogue, values).None? ==>
                reply == (if TempAccepted(values.value) || VibAccepted(values.value) then InternalError
                          else Answer(false, false, false))
      ensures Addressed(catalogue, values).Some? ==>
                var v := values.value;
                var s := Addressed(catalogue, values).value;
                && reply == Answer(TempAccepted(v) && VibAccepted(v), TempAccepted(v), VibAccepted(v))
                && s.CurrentLimits() == NewLimits(old(s.CurrentLimits()), v)
                && s.Snapshot() == old(s.Snapshot()) && s.lastReadValues == old(s.lastReadValues)
      ensures Addressed(catalogue, values).Some? && TempAccepted(values.value) ==>
                var s := Addressed(catalogue, values).value;
                s.tempValueWarning < s.tempValueFailure
    {
      if values.None? {
        return InternalError;
      }
      var v := values.value;
      var cmtk := FindCmtk(v.cmtk);
      if cmtk.None? {
        return InternalError;
      }
      var port := PortNamed(cmtk.value.ports, v.port);
      var tempSettled := false;
      var vibSettled := false;
      if Greater(v.tempValueFailure, v.tempValueWarning) {
        if port.None? {
          return InternalError;
        }
        var _ := port.value.SetTempValueFailure(v.tempValueFailure.value);
        var _ := port.value.SetTempValueWarning(v.tempValueWarning.value);
        tempSettled := true;
      }
      if Greater(v.vibValueFailure, v.vibWarning) {
        if port.None? {
          return InternalError;
        }
        var _ := port.value.SetVibValueFailure(v.vibValueFailure.value);
        var _ := port.value.SetVibValueWarning(v.vibValueWarning);
        vibSettled := true;
      }
      return Answer(tempSettled && vibSettled, tempSettled, vibSettled);
    }

    /**
     * set-sampling-time: a value that compares at most zero is refused; anything else, NaN
     * included, becomes the period and the ErrorsHandler interval is restarted.
     */
    method SetSamplingTime(value: Option<real>) returns (accepted: bool)
      modifies this`samplingTime, this`samplingArmed
      ensures accepted <==> !(value.Some? && value.value <= 0.0)
      ensures accepted ==> samplingTime == value && samplingArmed
      ensures !accepted ==> samplingTime == old(samplingTime) && samplingArmed == old(samplingArmed)
    {
      if value.Some? && value.value <= 0.0 {
        return false;
      }
      samplingTime := value;
      samplingArmed := true;
      return true;
    }
  }

  /** The first area listing a label is the first index at which the search stops. */
  lemma FirstAreaIs(areas: seq<Area>, cmtkLabel: string, i: nat)
    requires i <= |areas|
    requires forall k :: 0 <= k < i ==> !HasLabel(areas[k].entries, cmtkLabel)
    requires i < |areas| ==> HasLabel(areas[i].entries, cmtkLabel)
    ensures FirstArea(areas, cmtkLabel) == i
  {
  }
}
