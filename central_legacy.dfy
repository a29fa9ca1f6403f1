/**
 * The oldest `SwiftyTeeth` manager (Sources/SwiftyTeeth.swift): scanning into a set of
 * platform peripherals, a stopped scan handing that set to the completion handler, stub
 * connect and disconnect calls, and a single `device` slot filled on connection.  The
 * platform central manager is created lazily on first use, and creating it sends a
 * throwaway `retrievePeripherals` request.  Requests to the platform and handler
 * invocations are recorded in ghost logs.
 */
module LegacyCentral {
  import opened Optional
  import opened Platform

  type Handler = nat

  /** An invocation of a user closure. */
  datatype ManagerEvent =
    | ScanChangesCalled(handler: Handler, peripheral: CBPeripheral)
    | ScanCompleteCalled(handler: Handler, peripherals: set<CBPeripheral>)
    | ConnectCompleted(handler: Handler)
    | DisconnectCompleted(handler: Handler)

  /** `Set.insert`: a peripheral already present (by identity) stays as it was. */
  function Insert(scanned: map<string, CBPeripheral>, p: CBPeripheral): (r: map<string, CBPeripheral>)
    ensures p.identifier in r && r.Keys == scanned.Keys + {p.identifier}
    ensures p.identifier in scanned ==> r == scanned
    ensures p.identifier !in scanned ==> r[p.identifier] == p
    ensures forall id :: id in scanned ==> r[id] == scanned[id]
  {
    if p.identifier in scanned then scanned else scanned[p.identifier := p]
  }

  class SwiftyTeeth {
    var scanChangesHandler: Option<Handler>
    var scanCompleteHandler: Option<Handler>
    /** Whether the lazy `centralManager` has been created. */
    var centralCreated: bool
    /** The platform manager's scanning flag, which it raises on a scan request and lowers on a stop. */
    var scanning: bool
    /** `scannedPeripherals`, a set of peripheral objects, keyed here by their identity. */
    var scannedPeripherals: map<string, CBPeripheral>
    /** `device`: the peripheral of the last connected device. */
    var device: Option<CBPeripheral>
    ghost var requests: seq<CentralRequest>
    ghost var events: seq<ManagerEvent>

    /** `init()`: no central manager yet, nothing scanned, no device. */
    constructor ()
      ensures scanChangesHandler.None? && scanCompleteHandler.None?
      ensures !centralCreated && !scanning && scannedPeripherals == map[] && device.None?
      ensures requests == [] && events == []
    {
      scanChangesHandler := None;
      scanCompleteHandler := None;
      centralCreated := false;
      scanning := false;
      scannedPeripherals := map[];
      device := None;
      requests := [];
      events := [];
    }

    /** The requests that using `centralManager` costs: the throwaway retrieval the first time, nothing later. */
    function CreationRequests(): seq<CentralRequest>
      reads this
    {
      if centralCreated then [] else [RetrievePeripherals([])]
    }

    /** The first read of the lazy `centralManager` creates it. */
    method UseCentral()
      modifies this
      ensures centralCreated
      ensures requests == old(requests) + old(CreationRequests())
      ensures unchanged(this`scanChangesHandler, this`scanCompleteHandler, this`scanning,
                        this`scannedPeripherals, this`device, this`events)
    {
      if !centralCreated {
        centralCreated := true;
        requests := requests + [RetrievePeripherals([])];
      }
    }

    /** `isScanning`: the platform's flag. */
    method IsScanning() returns (r: bool)
      modifies this
      ensures r == scanning && centralCreated
      ensures requests == old(requests) + old(CreationRequests())
      ensures unchanged(this`scanChangesHandler, this`scanCompleteHandler, this`scanning,
                        this`scannedPeripherals, this`device, this`events)
    {
      UseCentral();
      r := scanning;
    }

    /** `scan()`: forget what was scanned and scan for every peripheral, duplicates included. */
    method Scan()
      modifies this
      ensures scannedPeripherals == map[] && scanning && centralCreated
      ensures requests == old(requests) + old(CreationRequests()) + [ScanForPeripherals(true)]
      ensures unchanged(this`scanChangesHandler, this`scanCompleteHandler, this`device, this`events)
    {
      scannedPeripherals := map[];
      UseCentral();
      requests := requests + [ScanForPeripherals(true)];
      scanning := true;
    }

    /** `scan(changes:)`: install the changes handler, then scan. */
    method ScanWithChanges(changes: Option<Handler>)
      modifies this
      ensures scanChangesHandler == changes
      ensures scannedPeripherals == map[] && scanning && centralCreated
      ensures requests == old(requests) + old(CreationRequests()) + [ScanForPeripherals(true)]
      ensures unchanged(this`scanCompleteHandler, this`device, this`events)
    {
      scanChangesHandler := changes;
      Scan();
    }

    /**
     * `scan(for:changes:complete:)`: install both handlers, then scan.  The timer that
     * stops the scan later is the caller's `StopScan`.
     */
    method ScanFor(changes: Option<Handler>, complete: Handler)
      modifies this
      ensures scanChangesHandler == changes && scanCompleteHandler == Some(complete)
      ensures scannedPeripherals == map[] && scanning && centralCreated
      ensures requests == old(requests) + old(CreationRequests()) + [ScanForPeripherals(true)]
      ensures unchanged(this`device, this`events)
    {
      scanChangesHandler := changes;
      scanCompleteHandler := Some(complete);
      Scan();
    }

    /**
     * `stopScan()`: stop the platform scan, hand everything scanned to the completion
     * handler, then clear both handlers.  The scanned set is kept.
     */
    method StopScan()
      modifies this
      ensures scanChangesHandler.None? && scanCompleteHandler.None? && !scanning && centralCreated
      ensures requests == old(requests) + old(CreationRequests()) + [CentralRequest.StopScan]
      ensures events == old(events) + (if old(scanCompleteHandler).Some?
        then [ScanCompleteCalled(old(scanCompleteHandler).value, scannedPeripherals.Values)] else [])
      ensures unchanged(this`scannedPeripherals, this`device)
    {
      UseCentral();
      requests := requests + [CentralRequest.StopScan];
      scanning := false;
      if scanCompleteHandler.Some? {
        events := events + [ScanCompleteCalled(scanCompleteHandler.value, scannedPeripherals.Values)];
      }
      scanChangesHandler := None;
      scanCompleteHandler := None;
    }

    /** `connect(to:complete:)`, a stub: the completion receives no device at once, and nothing else happens. */
    method ConnectTo(p: CBPeripheral, complete: Handler)
      modifies this
      ensures events == old(events) + [ConnectCompleted(complete)]
      ensures unchanged(this`scanChangesHandler, this`scanCompleteHandler, this`centralCreated, this`scanning,
                        this`scannedPeripherals, this`device, this`requests)
    {
      events := events + [ConnectCompleted(complete)];
    }

    /** `disconnect(from:complete:)`, a stub: the completion is called at once, and nothing else happens. */
    method DisconnectFrom(p: CBPeripheral, complete: Handler)
      modifies this
      ensures events == old(events) + [DisconnectCompleted(complete)]
      ensures unchanged(this`scanChangesHandler, this`scanCompleteHandler, this`centralCreated, this`scanning,
                        this`scannedPeripherals, this`device, this`requests)
    {
      events := events + [DisconnectCompleted(complete)];
    }

    /** `centralManager(_:didDiscover:...)`: every peripheral joins the set, and the changes handler sees each one. */
    method DidDiscover(p: CBPeripheral)
      modifies this
      ensures scannedPeripherals == Insert(old(scannedPeripherals), p)
      ensures events == old(events) + (if scanChangesHandler.Some? then [ScanChangesCalled(scanChangesHandler.value, p)] else [])
      ensures unchanged(this`scanChangesHandler, this`scanCompleteHandler, this`centralCreated, this`scanning,
                        this`device, this`requests)
    {
      scannedPeripherals := Insert(scannedPeripherals, p);
      if scanChangesHandler.Some? {
        events := events + [ScanChangesCalled(scanChangesHandler.value, p)];
      }
    }

    /** `centralManager(_:didConnect:)`: the single device slot now holds the connected peripheral. */
    method DidConnect(p: CBPeripheral)
      modifies this
      ensures device == Some(p)
      ensures unchanged(this`scanChangesHandler, this`scanCompleteHandler, this`centralCreated, this`scanning,
                        this`scannedPeripherals, this`requests, this`events)
    {
      device := Some(p);
    }
  }

  /** Discovering the same peripheral twice leaves the set as one discovery did. */
  lemma InsertIdempotent(scanned: map<string, CBPeripheral>, p: CBPeripheral)
    ensures Insert(Insert(scanned, p), p) == Insert(scanned, p)
  {
  }

  /** The order of discoveries of different peripherals does not matter to the set. */
  lemma InsertCommutes(scanned: map<string, CBPeripheral>, p: CBPeripheral, q: CBPeripheral)
    requires p.identifier != q.identifier
    ensures Insert(Insert(scanned, p), q) == Insert(Insert(scanned, q), p)
  {
  }
}
