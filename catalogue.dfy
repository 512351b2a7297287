/**
 * The CMTK catalogue of backend/server.js: an ordered sequence of areas, each holding an ordered
 * sequence of labelled CMTK gateways (or null), each gateway holding its ports in insertion order.
 * JavaScript objects keyed by area name, gateway label and port name become sequences in key order.
 *
 * This module holds the lookups (`findCmtk`, `findLocationByCmtk`, `cmtk.ports[name]`), the
 * update that `Connect2Cmtk` makes to one gateway, and the sensor footprint of a catalogue together
 * with the facts needed to keep every port's sensor object distinct.
 */
module Catalogue {
  import opened Wrappers
  import opened ApiSensors

  /** One IO-Link port of a gateway and its Sensor object. */
  datatype Port = Port(name: string, sensor: Sensor)

  /**
   * A CMTK gateway.  `influxConnection` says whether a database client object has been attached;
   * `enabledPorts` is the table list last read from the gateway (None for null or never read).
   */
  datatype Cmtk = Cmtk(ip: string, description: string, influxConnection: bool,
                       enabledPorts: Option<seq<string>>, ports: seq<Port>)

  /** A key of an area object: a gateway label and its gateway, which may be null. */
  datatype Entry = Entry(cmtkLabel: string, cmtk: Option<Cmtk>)

  datatype Area = Area(name: string, entries: seq<Entry>)

  // ---------------------------------------------------------------------------------------------
  // Lookups
  // ---------------------------------------------------------------------------------------------

  /** `Object.keys(area).includes(cmtkLabel)` */
  predicate HasLabel(entries: seq<Entry>, cmtkLabel: string) {
    exists k :: 0 <= k < |entries| && entries[k].cmtkLabel == cmtkLabel
  }

  /** The position of the first entry with `cmtkLabel`, or `|entries|` when there is none. */
  function FirstEntry(entries: seq<Entry>, cmtkLabel: string): (j: nat)
    ensures j <= |entries|
    ensures forall k :: 0 <= k < j ==> entries[k].cmtkLabel != cmtkLabel
    ensures j < |entries| ==> entries[j].cmtkLabel == cmtkLabel
    ensures j == |entries| <==> !HasLabel(entries, cmtkLabel)
    decreases |entries|
  {
    if entries == [] then 0
    else if entries[0].cmtkLabel == cmtkLabel then 0
    else 1 + FirstEntry(entries[1..], cmtkLabel)
  }

  /** The position of the first area whose keys include `cmtkLabel`, or `|areas|` when none does. */
  function FirstArea(areas: seq<Area>, cmtkLabel: string): (i: nat)
    ensures i <= |areas|
    ensures forall k :: 0 <= k < i ==> !HasLabel(areas[k].entries, cmtkLabel)
    ensures i < |areas| ==> HasLabel(areas[i].entries, cmtkLabel)
    decreases |areas|
  {
    if areas == [] then 0
    else if HasLabel(areas[0].entries, cmtkLabel) then 0
    else 1 + FirstArea(areas[1..], cmtkLabel)
  }

  /**
   * findCmtk: the gateway stored under `cmtkLabel` in the first area whose keys include it.  A null
   * gateway and a missing label both give None, as both give a falsy value in the source.
   */
  function CmtkOf(areas: seq<Area>, cmtkLabel: string): (r: Option<Cmtk>)
    ensures (forall i :: 0 <= i < |areas| ==> !HasLabel(areas[i].entries, cmtkLabel)) ==> r.None?
    ensures r.Some? ==>
      exists i, j :: 0 <= i < |areas| && 0 <= j < |areas[i].entries|
        && areas[i].entries[j] == Entry(cmtkLabel, r)
        && (forall k :: 0 <= k < i ==> !HasLabel(areas[k].entries, cmtkLabel))
    ensures forall i, j :: 0 <= i < |areas| && 0 <= j < |areas[i].entries|
              && areas[i].entries[j].cmtkLabel == cmtkLabel
              && (forall k :: 0 <= k < i ==> !HasLabel(areas[k].entries, cmtkLabel))
              && (forall m :: 0 <= m < j ==> areas[i].entries[m].cmtkLabel != cmtkLabel)
              ==> r == areas[i].entries[j].cmtk
  {
    var i := FirstArea(areas, cmtkLabel);
    if i == |areas| then None
    else
      var j := FirstEntry(areas[i].entries, cmtkLabel);
      areas[i].entries[j].cmtk
  }

  /** findLocationByCmtk: the name of the first area whose keys include `cmtkLabel`. */
  function LocationOf(areas: seq<Area>, cmtkLabel: string): (r: Option<string>)
    ensures r.None? <==> forall i :: 0 <= i < |areas| ==> !HasLabel(areas[i].entries, cmtkLabel)
    ensures r.Some? ==>
      exists i :: 0 <= i < |areas| && areas[i].name == r.value && HasLabel(areas[i].entries, cmtkLabel)
        && (forall k :: 0 <= k < i ==> !HasLabel(areas[k].entries, cmtkLabel))
  {
    var i := FirstArea(areas, cmtkLabel);
    if i == |areas| then None else Some(areas[i].name)
  }

  /** No gateway label appears twice in the whole catalogue. */
  predicate UniqueLabels(areas: seq<Area>) {
    forall i, j, i', j' ::
      0 <= i < |areas| && 0 <= j < |areas[i].entries| &&
      0 <= i' < |areas| && 0 <= j' < |areas[i'].entries| &&
      areas[i].entries[j].cmtkLabel == areas[i'].entries[j'].cmtkLabel
      ==> i == i' && j == j'
  }

  /** With unique labels, both lookups find the entry that holds the label. */
  lemma LookupFindsEntry(areas: seq<Area>, i: nat, j: nat)
    requires UniqueLabels(areas)
    requires i < |areas| && j < |areas[i].entries|
    ensures CmtkOf(areas, areas[i].entries[j].cmtkLabel) == areas[i].entries[j].cmtk
    ensures LocationOf(areas, areas[i].entries[j].cmtkLabel) == Some(areas[i].name)
  {
    var cmtkLabel := areas[i].entries[j].cmtkLabel;
    assert HasLabel(areas[i].entries, cmtkLabel);
    var i0 := FirstArea(areas, cmtkLabel);
    assert i0 <= i;
    var j0 := FirstEntry(areas[i0].entries, cmtkLabel);
    assert areas[i0].entries[j0].cmtkLabel == cmtkLabel;
  }

  /** `cmtk.ports[name]`: the sensor of the first port called `name`. */
  function PortNamed(ports: seq<Port>, name: string): (r: Option<Sensor>)
    ensures r.None? <==> forall k :: 0 <= k < |ports| ==> ports[k].name != name
    ensures r.Some? ==> exists k :: 0 <= k < |ports| && ports[k] == Port(name, r.value)
    decreases |ports|
  {
    if ports == [] then None
    else if ports[0].name == name then Some(ports[0].sensor)
    else PortNamed(ports[1..], name)
  }

  /** The position of the first port called `name`, or `|ports|`. */
  function FirstPort(ports: seq<Port>, name: string): (k: nat)
    ensures k <= |ports|
    ensures forall m :: 0 <= m < k ==> ports[m].name != name
    ensures k < |ports| ==> ports[k].name == name
    decreases |ports|
  {
    if ports == [] then 0
    else if ports[0].name == name then 0
    else 1 + FirstPort(ports[1..], name)
  }

  /**
   * `cmtk.ports[p.name] = p.sensor`: an existing key keeps its place and gets the new sensor, a new
   * key goes at the end.
   */
  function PutPort(ports: seq<Port>, p: Port): (r: seq<Port>)
    ensures PortNamed(r, p.name) == Some(p.sensor)
    ensures forall name :: name != p.name ==> PortNamed(r, name) == PortNamed(ports, name)
    ensures PortNamed(ports, p.name).Some? ==> |r| == |ports|
    ensures PortNamed(ports, p.name).None? ==> r == ports + [p]
  {
    var k := FirstPort(ports, p.name);
    if k < |ports| then
      PutKeepsOthers(ports, k, p);
      ports[k := p]
    else
      AppendKeepsOthers(ports, p);
      ports + [p]
  }

  lemma {:induction false} PutKeepsOthers(ports: seq<Port>, k: nat, p: Port)
    requires k < |ports| && ports[k].name == p.name
    requires forall m :: 0 <= m < k ==> ports[m].name != p.name
    ensures PortNamed(ports[k := p], p.name) == Some(p.sensor)
    ensures forall name :: name != p.name ==> PortNamed(ports[k := p], name) == PortNamed(ports, name)
    decreases k
  {
    if k > 0 {
      PutKeepsOthers(ports[1..], k - 1, p);
      assert ports[k := p][1..] == ports[1..][k - 1 := p];
    }
  }

  lemma {:induction false} AppendKeepsOthers(ports: seq<Port>, p: Port)
    requires forall m :: 0 <= m < |ports| ==> ports[m].name != p.name
    ensures PortNamed(ports + [p], p.name) == Some(p.sensor)
    ensures forall name :: name != p.name ==> PortNamed(ports + [p], name) == PortNamed(ports, name)
    decreases |ports|
  {
    if ports != [] {
      AppendKeepsOthers(ports[1..], p);
      assert (ports + [p])[1..] == ports[1..] + [p];
    }
  }

  /** The gateway at (i, j) replaced by `c`; everything else unchanged. */
  function WithCmtk(areas: seq<Area>, i: nat, j: nat, c: Cmtk): (r: seq<Area>)
    requires i < |areas| && j < |areas[i].entries|
  {
    areas[i := areas[i].(entries := areas[i].entries[j := Entry(areas[i].entries[j].cmtkLabel, Some(c))])]
  }

  /** Storing a gateway at (i, j) leaves every other gateway entry as it was. */
  lemma WithCmtkElsewhere(areas: seq<Area>, i: nat, j: nat, c: Cmtk)
    requires i < |areas| && j < |areas[i].entries|
    ensures |WithCmtk(areas, i, j, c)| == |areas|
    ensures forall i', j' :: 0 <= i' < |areas| && 0 <= j' < |areas[i'].entries| && (i', j') != (i, j) ==>
              j' < |WithCmtk(areas, i, j, c)[i'].entries| &&
              WithCmtk(areas, i, j, c)[i'].entries[j'] == areas[i'].entries[j']
  {
  }

  /** Two catalogues with the same areas and labels in the same places. */
  predicate SameShape(a: seq<Area>, b: seq<Area>) {
    |a| == |b| &&
    forall i :: 0 <= i < |a| ==>
      a[i].name == b[i].name && |a[i].entries| == |b[i].entries| &&
      forall j :: 0 <= j < |a[i].entries| ==> a[i].entries[j].cmtkLabel == b[i].entries[j].cmtkLabel
  }

  /** Two catalogues of the same shape whose null gateways are in the same places. */
  predicate SameSlots(a: seq<Area>, b: seq<Area>) {
    SameShape(a, b) &&
    forall i, j :: 0 <= i < |a| && 0 <= j < |a[i].entries| ==>
      (a[i].entries[j].cmtk.None? <==> b[i].entries[j].cmtk.None?)
  }

  lemma SameSlotsTransitive(a: seq<Area>, b: seq<Area>, c: seq<Area>)
    requires SameSlots(a, b) && SameSlots(b, c)
    ensures SameSlots(a, c)
  {
  }

  /** Same shape means the same labels in the same areas. */
  lemma SameShapeLabels(a: seq<Area>, b: seq<Area>, cmtkLabel: string)
    requires SameShape(a, b)
    ensures forall i :: 0 <= i < |a| ==> (HasLabel(a[i].entries, cmtkLabel) <==> HasLabel(b[i].entries, cmtkLabel))
  {
    forall i | 0 <= i < |a|
      ensures HasLabel(a[i].entries, cmtkLabel) <==> HasLabel(b[i].entries, cmtkLabel)
    {
      if HasLabel(a[i].entries, cmtkLabel) {
        var k :| 0 <= k < |a[i].entries| && a[i].entries[k].cmtkLabel == cmtkLabel;
        assert b[i].entries[k].cmtkLabel == cmtkLabel;
      }
      if HasLabel(b[i].entries, cmtkLabel) {
        var k :| 0 <= k < |b[i].entries| && b[i].entries[k].cmtkLabel == cmtkLabel;
        assert a[i].entries[k].cmtkLabel == cmtkLabel;
      }
    }
  }

  /** Catalogues of the same shape find every label in the same slot. */
  lemma SameShapeFinds(a: seq<Area>, b: seq<Area>, cmtkLabel: string)
    requires SameShape(a, b)
    ensures FirstArea(a, cmtkLabel) == FirstArea(b, cmtkLabel)
    ensures FirstArea(a, cmtkLabel) < |a| ==>
              FirstEntry(a[FirstArea(a, cmtkLabel)].entries, cmtkLabel)
              == FirstEntry(b[FirstArea(a, cmtkLabel)].entries, cmtkLabel)
  {
    SameShapeLabels(a, b, cmtkLabel);
  }

  /** Catalogues with their null gateways in the same places find a gateway for the same labels. */
  lemma SameSlotsPresence(a: seq<Area>, b: seq<Area>)
    requires SameSlots(a, b)
    ensures forall cmtkLabel :: CmtkOf(a, cmtkLabel).Some? <==> CmtkOf(b, cmtkLabel).Some?
  {
    forall cmtkLabel
      ensures CmtkOf(a, cmtkLabel).Some? <==> CmtkOf(b, cmtkLabel).Some?
    {
      SameShapeFinds(a, b, cmtkLabel);
    }
  }

  /** Replacing one gateway keeps the shape. */
  lemma WithCmtkShape(areas: seq<Area>, i: nat, j: nat, c: Cmtk)
    requires i < |areas| && j < |areas[i].entries|
    ensures SameShape(WithCmtk(areas, i, j, c), areas)
  {
  }

  /** Labels in the same places are unique in both catalogues or in neither. */
  lemma SameShapeUnique(a: seq<Area>, b: seq<Area>)
    requires SameShape(a, b) && UniqueLabels(b)
    ensures UniqueLabels(a)
  {
    forall i, j, i', j' |
      0 <= i < |a| && 0 <= j < |a[i].entries| &&
      0 <= i' < |a| && 0 <= j' < |a[i'].entries| &&
      a[i].entries[j].cmtkLabel == a[i'].entries[j'].cmtkLabel
      ensures i == i' && j == j'
    {
      assert b[i].entries[j].cmtkLabel == b[i'].entries[j'].cmtkLabel;
    }
  }

  /**
   * Replacing one gateway keeps the labels unique; the replaced label now finds the new gateway
   * and every other label finds what it found before.
   */
  lemma WithCmtkLookups(areas: seq<Area>, i: nat, j: nat, c: Cmtk)
    requires UniqueLabels(areas)
    requires i < |areas| && j < |areas[i].entries|
    ensures SameShape(WithCmtk(areas, i, j, c), areas)
    ensures UniqueLabels(WithCmtk(areas, i, j, c))
    ensures CmtkOf(WithCmtk(areas, i, j, c), areas[i].entries[j].cmtkLabel) == Some(c)
    ensures forall cmtkLabel :: cmtkLabel != areas[i].entries[j].cmtkLabel ==>
              CmtkOf(WithCmtk(areas, i, j, c), cmtkLabel) == CmtkOf(areas, cmtkLabel)
  {
    var r := WithCmtk(areas, i, j, c);
    WithCmtkShape(areas, i, j, c);
    SameShapeUnique(r, areas);
    LookupFindsEntry(r, i, j);
    forall cmtkLabel | cmtkLabel != areas[i].entries[j].cmtkLabel
      ensures CmtkOf(r, cmtkLabel) == CmtkOf(areas, cmtkLabel)
    {
      OtherLabelSame(areas, i, j, c, cmtkLabel);
    }
  }

  /** Replacing a non-null gateway by another leaves every label with or without a gateway. */
  lemma WithCmtkPresence(areas: seq<Area>, i: nat, j: nat, c: Cmtk)
    requires UniqueLabels(areas)
    requires i < |areas| && j < |areas[i].entries| && areas[i].entries[j].cmtk.Some?
    ensures forall cmtkLabel :: CmtkOf(WithCmtk(areas, i, j, c), cmtkLabel).Some? <==> CmtkOf(areas, cmtkLabel).Some?
  {
    LookupFindsEntry(areas, i, j);
    WithCmtkLookups(areas, i, j, c);
  }

  /** Replacing a non-null gateway keeps every slot's shape and null-ness. */
  lemma WithCmtkSlots(areas: seq<Area>, i: nat, j: nat, c: Cmtk)
    requires i < |areas| && j < |areas[i].entries| && areas[i].entries[j].cmtk.Some?
    ensures SameSlots(WithCmtk(areas, i, j, c), areas)
  {
  }

  lemma OtherLabelSame(areas: seq<Area>, i: nat, j: nat, c: Cmtk, cmtkLabel: string)
    requires i < |areas| && j < |areas[i].entries|
    requires cmtkLabel != areas[i].entries[j].cmtkLabel
    requires SameShape(WithCmtk(areas, i, j, c), areas)
    ensures CmtkOf(WithCmtk(areas, i, j, c), cmtkLabel) == CmtkOf(areas, cmtkLabel)
  {
    var r := WithCmtk(areas, i, j, c);
    SameShapeLabels(r, areas, cmtkLabel);
    FirstAreaSame(r, areas, cmtkLabel);
    var a := FirstArea(areas, cmtkLabel);
    if a < |areas| {
      FirstEntrySame(r[a].entries, areas[a].entries, cmtkLabel);
    }
  }

  lemma {:induction false} FirstAreaSame(a: seq<Area>, b: seq<Area>, cmtkLabel: string)
    requires |a| == |b|
    requires forall i :: 0 <= i < |a| ==> (HasLabel(a[i].entries, cmtkLabel) <==> HasLabel(b[i].entries, cmtkLabel))
    ensures FirstArea(a, cmtkLabel) == FirstArea(b, cmtkLabel)
    decreases |a|
  {
    if a != [] {
      FirstAreaSame(a[1..], b[1..], cmtkLabel);
    }
  }

  lemma {:induction false} FirstEntrySame(a: seq<Entry>, b: seq<Entry>, cmtkLabel: string)
    requires |a| == |b|
    requires forall k :: 0 <= k < |a| ==> (a[k].cmtkLabel == cmtkLabel <==> b[k].cmtkLabel == cmtkLabel)
    requires forall k :: 0 <= k < |a| && a[k].cmtkLabel == cmtkLabel ==> a[k] == b[k]
    ensures FirstEntry(a, cmtkLabel) == FirstEntry(b, cmtkLabel)
    ensures FirstEntry(a, cmtkLabel) < |a| ==> a[FirstEntry(a, cmtkLabel)] == b[FirstEntry(b, cmtkLabel)]
    decreases |a|
  {
    if a != [] {
      FirstEntrySame(a[1..], b[1..], cmtkLabel);
    }
  }

  // ---------------------------------------------------------------------------------------------
  // Sensor footprint
  // ---------------------------------------------------------------------------------------------

  function PortSensors(ports: seq<Port>): (ss: seq<Sensor>)
    ensures |ss| == |ports| && forall k :: 0 <= k < |ports| ==> ss[k] == ports[k].sensor
  {
    seq(|ports|, k requires 0 <= k < |ports| => ports[k].sensor)
  }

  function EntrySensors(e: Entry): seq<Sensor> {
    if e.cmtk.Some? then PortSensors(e.cmtk.value.ports) else []
  }

  function EntriesSensors(es: seq<Entry>): seq<Sensor>
    decreases |es|
  {
    if es == [] then [] else EntrySensors(es[0]) + EntriesSensors(es[1..])
  }

  /** Every port's sensor, in catalogue order. */
  function AllSensors(areas: seq<Area>): seq<Sensor>
    decreases |areas|
  {
    if areas == [] then [] else EntriesSensors(areas[0].entries) + AllSensors(areas[1..])
  }

  predicate Distinct<T(==)>(xs: seq<T>) {
    forall i, j :: 0 <= i < j < |xs| ==> xs[i] != xs[j]
  }

  /** A concatenation is distinct exactly when both halves are and they share nothing. */
  lemma DistinctConcat<T>(a: seq<T>, b: seq<T>)
    ensures Distinct(a + b) <==> Distinct(a) && Distinct(b) && forall x :: x in a ==> x !in b
  {
    if Distinct(a + b) {
      forall i, j | 0 <= i < j < |a| ensures a[i] != a[j] {
        assert a[i] == (a + b)[i] && a[j] == (a + b)[j];
      }
      forall i, j | 0 <= i < j < |b| ensures b[i] != b[j] {
        assert b[i] == (a + b)[|a| + i] && b[j] == (a + b)[|a| + j];
      }
      forall x | x in a ensures x !in b {
        var i :| 0 <= i < |a| && a[i] == x;
        forall j | 0 <= j < |b| ensures b[j] != x {
          assert (a + b)[i] == a[i] && (a + b)[|a| + j] == b[j];
        }
      }
    }
    if Distinct(a) && Distinct(b) && forall x :: x in a ==> x !in b {
      forall i, j | 0 <= i < j < |a + b| ensures (a + b)[i] != (a + b)[j] {
        if j < |a| {
          assert (a + b)[i] == a[i] && (a + b)[j] == a[j];
        } else if i >= |a| {
          assert (a + b)[i] == b[i - |a|] && (a + b)[j] == b[j - |a|];
        } else {
          assert (a + b)[i] == a[i] && (a + b)[j] == b[j - |a|];
          assert a[i] in a;
        }
      }
    }
  }

  lemma {:induction false} EntriesSensorsConcat(a: seq<Entry>, b: seq<Entry>)
    ensures EntriesSensors(a + b) == EntriesSensors(a) + EntriesSensors(b)
    decreases |a|
  {
    if a == [] {
      assert a + b == b;
    } else {
      assert (a + b)[1..] == a[1..] + b;
      EntriesSensorsConcat(a[1..], b);
    }
  }

  lemma {:induction false} AllSensorsConcat(a: seq<Area>, b: seq<Area>)
    ensures AllSensors(a + b) == AllSensors(a) + AllSensors(b)
    decreases |a|
  {
    if a == [] {
      assert a + b == b;
    } else {
      assert (a + b)[1..] == a[1..] + b;
      AllSensorsConcat(a[1..], b);
    }
  }

  /** The sensors of a catalogue around the area at i. */
  lemma AllSensorsAroundArea(areas: seq<Area>, i: nat)
    requires i < |areas|
    ensures AllSensors(areas) ==
      AllSensors(areas[..i]) + (EntriesSensors(areas[i].entries) + AllSensors(areas[i + 1..]))
  {
    assert areas[..i] + areas[i..] == areas;
    AllSensorsConcat(areas[..i], areas[i..]);
    assert areas[i..][1..] == areas[i + 1..];
  }

  /** The sensors of one area are sensors of the catalogue. */
  lemma AreaSensorsInAll(areas: seq<Area>, i: nat)
    requires i < |areas|
    ensures forall s :: s in EntriesSensors(areas[i].entries) ==> s in AllSensors(areas)
  {
    AllSensorsAroundArea(areas, i);
  }

  /** The sensors of one entry are sensors of its sequence of entries. */
  lemma EntrySensorsInEntries(es: seq<Entry>, j: nat)
    requires j < |es|
    ensures forall s :: s in EntrySensors(es[j]) ==> s in EntriesSensors(es)
  {
    EntriesSensorsAround(es, j);
  }

  /** The sensors of a sequence of entries around the entry at j. */
  lemma EntriesSensorsAround(es: seq<Entry>, j: nat)
    requires j < |es|
    ensures EntriesSensors(es) == EntriesSensors(es[..j]) + (EntrySensors(es[j]) + EntriesSensors(es[j + 1..]))
  {
    assert es[..j] + es[j..] == es;
    EntriesSensorsConcat(es[..j], es[j..]);
    assert es[j..][1..] == es[j + 1..];
  }

  /** The sensors of a catalogue around the entry at (i, j). */
  lemma AllSensorsAround(areas: seq<Area>, i: nat, j: nat)
    requires i < |areas| && j < |areas[i].entries|
    ensures AllSensors(areas) ==
      AllSensors(areas[..i])
      + ((EntriesSensors(areas[i].entries[..j])
          + (EntrySensors(areas[i].entries[j]) + EntriesSensors(areas[i].entries[j + 1..])))
         + AllSensors(areas[i + 1..]))
  {
    AllSensorsAroundArea(areas, i);
    EntriesSensorsAround(areas[i].entries, j);
  }

  /** Distinctness survives replacing one stretch by a distinct one drawn from it or from outside. */
  lemma DistinctSplice<T>(p: seq<T>, q: seq<T>, x: seq<T>, y: seq<T>, r: seq<T>, s: seq<T>)
    requires Distinct(p + ((q + (y + r)) + s))
    requires Distinct(x)
    requires forall e :: e in x ==> e in y || e !in p + ((q + (y + r)) + s)
    ensures Distinct(p + ((q + (x + r)) + s))
  {
    DistinctConcat(p, (q + (y + r)) + s);
    DistinctConcat(q + (y + r), s);
    DistinctConcat(q, y + r);
    DistinctConcat(y, r);
    DistinctConcat(x, r);
    DistinctConcat(q, x + r);
    DistinctConcat(q + (x + r), s);
    DistinctConcat(p, (q + (x + r)) + s);
  }

  /** Replacing one gateway by one whose sensors are its own or new keeps all sensors distinct. */
  lemma WithCmtkDistinct(areas: seq<Area>, i: nat, j: nat, c: Cmtk)
    requires i < |areas| && j < |areas[i].entries|
    requires Distinct(AllSensors(areas))
    requires Distinct(PortSensors(c.ports))
    requires forall s :: s in PortSensors(c.ports) ==>
               s in EntrySensors(areas[i].entries[j]) || s !in AllSensors(areas)
    ensures Distinct(AllSensors(WithCmtk(areas, i, j, c)))
  {
    var r := WithCmtk(areas, i, j, c);
    AllSensorsAround(areas, i, j);
    AllSensorsAround(r, i, j);
    assert r[..i] == areas[..i] && r[i + 1..] == areas[i + 1..];
    assert r[i].entries[..j] == areas[i].entries[..j];
    assert r[i].entries[j + 1..] == areas[i].entries[j + 1..];
    DistinctSplice(AllSensors(areas[..i]), EntriesSensors(areas[i].entries[..j]),
                   PortSensors(c.ports), EntrySensors(areas[i].entries[j]),
                   EntriesSensors(areas[i].entries[j + 1..]), AllSensors(areas[i + 1..]));
  }

  /** The ports of one gateway of a catalogue whose sensors are distinct have distinct sensors. */
  lemma EntryDistinct(areas: seq<Area>, i: nat, j: nat)
    requires i < |areas| && j < |areas[i].entries|
    requires Distinct(AllSensors(areas))
    ensures Distinct(EntrySensors(areas[i].entries[j]))
  {
    var es := areas[i].entries;
    AllSensorsAround(areas, i, j);
    DistinctConcat(AllSensors(areas[..i]),
                   (EntriesSensors(es[..j]) + (EntrySensors(es[j]) + EntriesSensors(es[j + 1..])))
                   + AllSensors(areas[i + 1..]));
    DistinctConcat(EntriesSensors(es[..j]) + (EntrySensors(es[j]) + EntriesSensors(es[j + 1..])),
                   AllSensors(areas[i + 1..]));
    DistinctConcat(EntriesSensors(es[..j]), EntrySensors(es[j]) + EntriesSensors(es[j + 1..]));
    DistinctConcat(EntrySensors(es[j]), EntriesSensors(es[j + 1..]));
  }

  /** Putting a port whose sensor is new keeps the port sensors distinct. */
  lemma PutPortDistinct(ports: seq<Port>, p: Port)
    requires Distinct(PortSensors(ports))
    requires p.sensor !in PortSensors(ports)
    ensures Distinct(PortSensors(PutPort(ports, p)))
    ensures forall s :: s in PortSensors(PutPort(ports, p)) ==> s in PortSensors(ports) || s == p.sensor
  {
    var k := FirstPort(ports, p.name);
    var r := PutPort(ports, p);
    if k < |ports| {
      assert r == ports[k := p];
    } else {
      assert r == ports + [p];
    }
  }
}
