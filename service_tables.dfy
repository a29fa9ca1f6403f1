/**
 * The `[CBService: [CBCharacteristic]]` table that the two older `Device` revisions
 * (Sources/Models/Device.swift and Sources/SwiftyTeeth/Models/Device.swift) keep of
 * what discovery has found.  A `CBService` is a platform object hashed by identity, so
 * the table is keyed by the service's handle and remembers the service object itself.
 */
module ServiceTables {
  import opened Platform

  /** One entry: the service object and the characteristics recorded for it. */
  datatype ServiceSlot = ServiceSlot(service: CBService, characteristics: seq<CBCharacteristic>)

  type ServiceTable = map<nat, ServiceSlot>

  /**
   * The table `didDiscoverServices` builds: cleared, then every peripheral service
   * stored with an empty list, a later service object replacing an earlier one with the
   * same identity.
   */
  function EmptySlots(ss: seq<CBService>): (m: ServiceTable)
    ensures forall s :: s in ss ==> s.handle in m
    ensures forall h :: h in m ==> m[h].service in ss && m[h].service.handle == h && m[h].characteristics == []
    ensures |ss| > 0 ==> m[ss[|ss| - 1].handle].service == ss[|ss| - 1]
  {
    if ss == [] then map[]
    else
      var last := ss[|ss| - 1];
      var m := EmptySlots(ss[..|ss| - 1]);
      assert forall s :: s in ss[..|ss| - 1] ==> s in ss;
      assert forall s :: s in ss ==> s in ss[..|ss| - 1] || s == last;
      m[last.handle := ServiceSlot(last, [])]
  }

  /** `Array(discoveredServices.keys)`, as a set because a dictionary's key order is unspecified. */
  function KeyServices(m: ServiceTable): (r: set<CBService>)
    ensures forall h :: h in m ==> m[h].service in r
    ensures forall s :: s in r ==> exists h :: h in m && m[h].service == s
  {
    set h | h in m :: m[h].service
  }

  /**
   * `discoveredServices[service]? = characteristics`: the optional-chained assignment
   * only replaces the list of a service already in the table.
   */
  function Refill(m: ServiceTable, service: CBService, cs: seq<CBCharacteristic>): (r: ServiceTable)
    ensures service.handle in m ==> r == m[service.handle := m[service.handle].(characteristics := cs)]
    ensures service.handle !in m ==> r == m
  {
    if service.handle in m then m[service.handle := m[service.handle].(characteristics := cs)] else m
  }

  /** After discovery the keys are exactly the peripheral's services, up to identity. */
  lemma EmptySlotsKeys(ss: seq<CBService>)
    ensures forall s :: s in KeyServices(EmptySlots(ss)) ==> s in ss
    ensures forall s :: s in ss ==> exists t :: t in KeyServices(EmptySlots(ss)) && t.handle == s.handle
  {
    var m := EmptySlots(ss);
    forall s | s in KeyServices(m) ensures s in ss {
      var h :| h in m && m[h].service == s;
    }
    forall s | s in ss ensures exists t :: t in KeyServices(m) && t.handle == s.handle {
      assert m[s.handle].service in KeyServices(m);
    }
  }

  /** Refilling leaves every other service's entry, and the set of services, as it was. */
  lemma RefillKeepsOthers(m: ServiceTable, service: CBService, cs: seq<CBCharacteristic>)
    ensures Refill(m, service, cs).Keys == m.Keys
    ensures forall h :: h in m && h != service.handle ==> Refill(m, service, cs)[h] == m[h]
    ensures KeyServices(Refill(m, service, cs)) == KeyServices(m)
  {
    var r := Refill(m, service, cs);
    assert forall h :: h in m ==> r[h].service == m[h].service;
    forall s | s in KeyServices(r) ensures s in KeyServices(m) {
      var h :| h in r && r[h].service == s;
      assert m[h].service == s;
    }
    forall s | s in KeyServices(m) ensures s in KeyServices(r) {
      var h :| h in m && m[h].service == s;
      assert r[h].service == s;
    }
  }

  /** The loop of `didDiscoverServices`: every service enters the table with an empty list. */
  method FillEmptySlots(ss: seq<CBService>) returns (m: ServiceTable)
    ensures m == EmptySlots(ss)
  {
    m := map[];
    var i := 0;
    while i < |ss|
      invariant 0 <= i <= |ss|
      invariant m == EmptySlots(ss[..i])
    {
      assert ss[..i + 1][..i] == ss[..i];
      m := m[ss[i].handle := ServiceSlot(ss[i], [])];
      i := i + 1;
    }
    assert ss[..i] == ss;
  }

  /** The loop of `didDiscoverCharacteristicsFor` that collects a service's characteristics. */
  method CopyCharacteristics(cs: seq<CBCharacteristic>) returns (copied: seq<CBCharacteristic>)
    ensures copied == cs
  {
    copied := [];
    var i := 0;
    while i < |cs|
      invariant 0 <= i <= |cs|
      invariant copied == cs[..i]
    {
      copied := copied + [cs[i]];
      i := i + 1;
    }
    assert cs[..i] == cs;
  }
}
