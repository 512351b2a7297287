/**
 * What Connect2Cmtk in backend/server.js does to one gateway: the answers its services give, and
 * the loop that gives each table of the gateway a new Sensor object.
 */
module Gateway {
  import opened Wrappers
  import opened Hysteresis
  import opened ApiSensors
  import opened Catalogue

  /**
   * What a gateway answers while Connect2Cmtk talks to it.  `Offline`: InitInfluxDB, which only
   * builds the database client, throws (the client object is already attached).  `NoTables`:
   * GetTables resolves to null, which is how an unreachable gateway shows up, since GetTables
   * catches every query error.  `Tables`: the table names, with the index of the port whose MQTT
   * initialisation rejects, if any.
   */
  datatype GatewayReply = Offline | NoTables | Tables(names: seq<string>, failedAt: Option<nat>)

  /** Connect2Cmtk gets through every port of the table list. */
  predicate ConnectOk(reply: GatewayReply) {
    reply.Tables? && !(reply.failedAt.Some? && reply.failedAt.value < |reply.names|)
  }

  /** The ports Connect2Cmtk creates: the table list up to and including the port that fails. */
  function CreatedPorts(reply: GatewayReply): (names: seq<string>)
    ensures reply.Tables? ==> names <= reply.names
    ensures ConnectOk(reply) ==> names == reply.names
    ensures !reply.Tables? ==> names == []
  {
    match reply
    case Offline => []
    case NoTables => []
    case Tables(names, failedAt) =>
      if failedAt.Some? && failedAt.value < |names| then names[..failedAt.value + 1] else names
  }

  /** A sensor exactly as `new Sensor(...)` leaves it for port `port` of gateway `cmtkLabel`. */
  ghost predicate Pristine(s: Sensor, port: string, cmtkLabel: string)
    reads s, s.speedsHistoryQueue, s.temperatureHistoryQueue
  {
    && s.Valid() && s.Resting()
    && s.name == port && s.cmtkPort == port && s.lastReadValues.None?
    && s.CurrentLimits() == Limits(4.0, 2.0, 20.0, 10.0)
    && s.Snapshot() == Health(0, 0, 0, 0, 0, 0, 0, 0, false, false, false, false,
                              ErrorRecord(port, cmtkLabel, None, None))
  }

  /** The gateway after a connection attempt that found it. */
  ghost predicate Attempted(before: Cmtk, after: Cmtk, reply: GatewayReply) {
    && after.ip == before.ip && after.description == before.description
    && after.influxConnection
    && after.enabledPorts == (match reply
                              case Offline => before.enabledPorts
                              case NoTables => None
                              case Tables(names, _) => Some(names))
    && (forall n :: n !in CreatedPorts(reply) ==> PortNamed(after.ports, n) == PortNamed(before.ports, n))
    && (forall n :: n in CreatedPorts(reply) ==> PortNamed(after.ports, n).Some?)
  }

  /** The sensors on the ports an attempt answered by `reply` creates on gateway `c`. */
  function CreatedSensors(c: Cmtk, reply: GatewayReply): set<Sensor> {
    set n | n in CreatedPorts(reply) && PortNamed(c.ports, n).Some? :: PortNamed(c.ports, n).value
  }

  /** Every port the attempt creates holds a sensor as `new Sensor` leaves it. */
  ghost predicate CreatedPristine(c: Cmtk, cmtkLabel: string, reply: GatewayReply)
    reads CreatedSensors(c, reply)
    reads set s | s in CreatedSensors(c, reply) :: s.speedsHistoryQueue
    reads set s | s in CreatedSensors(c, reply) :: s.temperatureHistoryQueue
  {
    forall n :: n in CreatedPorts(reply) ==> PortNamed(c.ports, n).Some? && Pristine(PortNamed(c.ports, n).value, n, cmtkLabel)
  }

  /** A second attempt with the same answer leaves the gateway as one attempt would. */
  lemma AttemptedAgain(before: Cmtk, mid: Cmtk, after: Cmtk, reply: GatewayReply)
    requires Attempted(before, mid, reply) && Attempted(mid, after, reply)
    ensures Attempted(before, after, reply)
  {
  }

  /**
   * The gateway `c0` after Connect2Cmtk's calls, answered by `reply`: it gets its database client,
   * then its table list (null when the gateway is unreachable), then a new sensor per table up to
   * the port whose MQTT start fails.  `connected` is true only when every port starts.
   */
  method ConnectGateway(c0: Cmtk, cmtkLabel: string, reply: GatewayReply, ghost others: seq<Sensor>)
    returns (c: Cmtk, connected: bool)
    requires Distinct(PortSensors(c0.ports))
    ensures connected <==> ConnectOk(reply)
    ensures Attempted(c0, c, reply)
    ensures Distinct(PortSensors(c.ports))
    ensures forall s :: s in PortSensors(c.ports) ==> s in PortSensors(c0.ports) || s !in others
    ensures forall n :: n in CreatedPorts(reply) ==>
              var s := PortNamed(c.ports, n).value;
              fresh(s) && Pristine(s, n, cmtkLabel)
    ensures fresh(CreatedSensors(c, reply))
    ensures CreatedPristine(c, cmtkLabel, reply)
  {
    c := c0.(influxConnection := true);
    match reply {
      case Offline =>
        connected := false;
      case NoTables =>
        c := c.(enabledPorts := None);
        connected := false;
      case Tables(names, failedAt) =>
        var ports, failed := CreatePorts(c.ports, names, failedAt, cmtkLabel, others);
        c := c.(enabledPorts := Some(names), ports := ports);
        connected := !failed;
    }
  }

  /** The port loop of Connect2Cmtk: a new sensor per table name, until the port that fails. */
  method CreatePorts(ports0: seq<Port>, names: seq<string>, failedAt: Option<nat>, cmtkLabel: string,
                     ghost others: seq<Sensor>)
    returns (ports: seq<Port>, failed: bool)
    requires Distinct(PortSensors(ports0))
    ensures failed <==> failedAt.Some? && failedAt.value < |names|
    ensures Distinct(PortSensors(ports))
    ensures forall s :: s in PortSensors(ports) ==> s in PortSensors(ports0) || s !in others
    ensures forall n :: n !in CreatedPorts(Tables(names, failedAt)) ==> PortNamed(ports, n) == PortNamed(ports0, n)
    ensures forall n :: n in CreatedPorts(Tables(names, failedAt)) ==>
              PortNamed(ports, n).Some? && fresh(PortNamed(ports, n).value) &&
              Pristine(PortNamed(ports, n).value, n, cmtkLabel)
  {
    // The ports up to the one whose MQTT start rejects get their sensor; the rejection ends the loop.
    var made := CreatedPorts(Tables(names, failedAt));
    ports := ports0;
    var k := 0;
    while k < |made|
      invariant 0 <= k <= |made|
      invariant Distinct(PortSensors(ports))
      invariant forall s :: s in PortSensors(ports) ==> s in PortSensors(ports0) || s !in others
      invariant forall n :: n !in made[..k] ==> PortNamed(ports, n) == PortNamed(ports0, n)
      invariant forall n :: n in made[..k] ==>
                  PortNamed(ports, n).Some? && fresh(PortNamed(ports, n).value) &&
                  Pristine(PortNamed(ports, n).value, n, cmtkLabel)
    {
      ghost var before := ports;
      var s;
      ports, s := AddPort(ports, made[k], cmtkLabel, others);
      PrefixStep(made, k);
      forall n | n in made[..k + 1]
        ensures PortNamed(ports, n).Some? && fresh(PortNamed(ports, n).value)
        ensures Pristine(PortNamed(ports, n).value, n, cmtkLabel)
      {
        if n != made[k] {
          assert PortNamed(ports, n) == PortNamed(before, n);
        }
      }
      k := k + 1;
    }
    assert made[..k] == made;
    failed := failedAt.Some? && failedAt.value < |names|;
  }

  /** The elements before `k + 1` are those before `k` and the one at `k`. */
  lemma PrefixStep<T>(xs: seq<T>, k: nat)
    requires k < |xs|
    ensures forall x :: x in xs[..k + 1] <==> x in xs[..k] || x == xs[k]
  {
    assert xs[..k + 1] == xs[..k] + [xs[k]];
  }

  /** `cmtk.ports[port] = new Sensor(port, port, cmtkLabel)` */
  method AddPort(ports: seq<Port>, port: string, cmtkLabel: string, ghost others: seq<Sensor>) returns (ports': seq<Port>, s: Sensor)
    requires Distinct(PortSensors(ports))
    ensures fresh(s) && s !in others && Pristine(s, port, cmtkLabel)
    ensures PortNamed(ports', port) == Some(s)
    ensures forall n :: n != port ==> PortNamed(ports', n) == PortNamed(ports, n)
    ensures Distinct(PortSensors(ports'))
    ensures forall t :: t in PortSensors(ports') ==> t in PortSensors(ports) || t == s
  {
    s := new Sensor(port, port, cmtkLabel);
    PutPortDistinct(ports, Port(port, s));
    ports' := PutPort(ports, Port(port, s));
  }
}
