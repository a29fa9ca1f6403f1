/**
 * The current central role: `Device` of Sources/SwiftyTeeth/Device.swift and the
 * manager `SwiftyTeeth` of Sources/SwiftyTeeth/SwiftyTeeth.swift.  They are one module
 * because each calls the other: a device asks its manager to connect it, and the
 * manager routes every platform callback back to the device registered under the
 * peripheral's identifier.
 *
 * A device wraps each GATT request in a named `QueueItem` and pushes it onto its serial
 * queue.  When the queue starts the item, the execution block checks the link and
 * either fails at once or issues the platform request; the platform's answer arrives
 * later through the manager, and the device hands it to the one executing item whose
 * name equals the answer's correlation key and whose result type matches.
 *
 * The platform is outside the model: the peripheral is a record the platform keeps up
 * to date (the field `peripheral`), requests are appended to ghost logs, and every
 * invocation of a user closure is appended to a ghost event log.
 */
module Central {
  import opened Optional
  import opened Results
  import opened Common
  import opened Platform
  import opened Lookup
  import opened QueueItems
  import opened OperationQueues

  /** `ConnectionState`, as `Device.connectionState` reports it. */
  datatype ConnectionState = Connecting | Connected | Disconnecting | Disconnected

  /** `BluetoothState`, whose raw values 0 to 5 mirror `CBManagerState`. */
  datatype BluetoothState = Unknown | Resetting | Unsupported | Unauthorized | PoweredOff | PoweredOn

  /** `BluetoothState(rawValue:)`. */
  function BluetoothStateFromRaw(raw: int): (r: Option<BluetoothState>)
    ensures r.Some? <==> 0 <= raw <= 5
    ensures r == Some(Unknown) <==> raw == 0
    ensures r == Some(PoweredOn) <==> raw == 5
  {
    if raw == 0 then Some(Unknown)
    else if raw == 1 then Some(Resetting)
    else if raw == 2 then Some(Unsupported)
    else if raw == 3 then Some(Unauthorized)
    else if raw == 4 then Some(PoweredOff)
    else if raw == 5 then Some(PoweredOn)
    else None
  }

  /** `Device.connectionState`: the peripheral's state, with unknown future states read as disconnected. */
  function ConnectionStateOf(s: PeripheralState): (r: ConnectionState)
    ensures r == ConnectionState.Connected <==> s == PeripheralState.Connected
    ensures r == ConnectionState.Connecting <==> s == PeripheralState.Connecting
    ensures r == ConnectionState.Disconnecting <==> s == PeripheralState.Disconnecting
    ensures r == ConnectionState.Disconnected <==> s == PeripheralState.Disconnected || s.Other?
  {
    match s
    case Connecting => ConnectionState.Connecting
    case Connected => ConnectionState.Connected
    case Disconnecting => ConnectionState.Disconnecting
    case Disconnected => ConnectionState.Disconnected
    case Other(_) => ConnectionState.Disconnected
  }

  // ---------------------------------------------------------------------------------
  // Queued operations

  /** The value each kind of queued operation delivers: the `T` of its `QueueItem<T>`. */
  datatype Payload =
    | ServiceList(services: set<Service>)
    | DiscoveredCharacteristic(service: Service, characteristics: seq<Characteristic>)
    | Data(bytes: Bytes)
    | NoValue

  /** The result type of an item, which `as? QueueItem<T>` tests. */
  datatype PayloadKind = ServicesKind | CharacteristicsKind | DataKind | VoidKind

  /** The execution block of a queued operation, with the user's completion handler it reports to. */
  datatype GattOperation =
    | DiscoverServicesOp(uuids: Option<seq<Uuid>>, complete: Option<Handler>)
    | DiscoverCharacteristicsOp(characteristicUuids: Option<seq<Uuid>>, service: Service, complete: Option<Handler>)
    | ReadOp(target: CBCharacteristic, complete: Option<Handler>)
    | WriteOp(data: Bytes, target: CBCharacteristic, writeType: WriteType, complete: Option<Handler>)
  {
    function Kind(): PayloadKind {
      match this
      case DiscoverServicesOp(_, _) => ServicesKind
      case DiscoverCharacteristicsOp(_, _, _) => CharacteristicsKind
      case ReadOp(_, _) => DataKind
      case WriteOp(_, _, _, _) => VoidKind
    }
  }

  type Item = QueueItem<Payload, GattOperation>

  /** The name under which `discoverServices` queues its item and its completion finds it. */
  const DiscoverServicesKey: string := "discoverServices"

  /**
   * What an execution block does when the queue starts it: report a failure to the
   * item at once, or issue one platform request and leave the answer to the platform.
   */
  datatype Outcome = Outcome(report: Option<Result<Payload>>, request: Option<PeripheralRequest>)

  function RunOperation(p: CBPeripheral, op: GattOperation): (o: Outcome)
    ensures o.report.None? <==> o.request.Some?
    ensures o.report.Some? ==> o.report.value == Failure(Error.Disconnected)
    ensures p.state != PeripheralState.Connected ==> o.report == Some(Failure(Error.Disconnected))
    ensures p.state == PeripheralState.Connected ==> match op
      case DiscoverServicesOp(uuids, _) => o.request == Some(DiscoverServices(uuids))
      case DiscoverCharacteristicsOp(uuids, s, _) =>
        (FindServiceIn(p.services, s.uuid).None? ==> o.report.Some?)
        && (FindServiceIn(p.services, s.uuid).Some? ==>
              o.request == Some(DiscoverCharacteristics(uuids, FindServiceIn(p.services, s.uuid).value)))
      case ReadOp(t, _) => o.request == Some(ReadValue(t))
      case WriteOp(d, t, wt, _) => o.request == Some(WriteValue(d, t, wt))
  {
    if p.state != PeripheralState.Connected then Outcome(Some(Failure(Error.Disconnected)), None)
    else match op
      case DiscoverServicesOp(uuids, _) => Outcome(None, Some(DiscoverServices(uuids)))
      case DiscoverCharacteristicsOp(uuids, s, _) =>
        (match FindServiceIn(p.services, s.uuid)
         case None => Outcome(Some(Failure(Error.Disconnected)), None)
         case Some(cbs) => Outcome(None, Some(DiscoverCharacteristics(uuids, cbs))))
      case ReadOp(t, _) => Outcome(None, Some(ReadValue(t)))
      case WriteOp(d, t, wt, _) => Outcome(None, Some(WriteValue(d, t, wt)))
  }

  /**
   * The item a completion of kind `kind` with correlation key `key` is delivered to:
   * the first executing item with that name, provided its result type is `kind`.
   */
  function CompletionTarget(items: seq<Item>, key: string, kind: PayloadKind): (r: Option<Item>)
    reads items
    ensures r.Some? ==> r.value in items && r.value.IsExecuting() && r.value.name == Some(key)
                        && r.value.execution.Some? && r.value.execution.value.Kind() == kind
    ensures NoneExecuting(items) ==> r.None?
  {
    match FirstExecutingNamed(items, key)
    case None => None
    case Some(it) => if it.execution.Some? && it.execution.value.Kind() == kind then Some(it) else None
  }
  /**
   * The converse of `CompletionTarget`'s contract: on a serial queue, a completion of the
   * right kind reaches the executing item named by its key.
   */
  lemma CompletionTargetReachesExecutingItem(items: seq<Item>, key: string, kind: PayloadKind, i: int)
    requires AtMostOneExecuting(items)
    requires 0 <= i < |items| && items[i].IsExecuting() && items[i].name == Some(key)
    requires items[i].execution.Some? && items[i].execution.value.Kind() == kind
    ensures CompletionTarget(items, key, kind) == Some(items[i])
  {
    FirstExecutingNamedFindsExecutingItem(items, key, i);
  }


  // ---------------------------------------------------------------------------------
  // Discovery bookkeeping

  /** `peripheral.services?.compactMap { UUID(cbuuid:) ... Service(uuid:, characteristics: []) } ?? []`. */
  function ServicesFrom(ss: seq<CBService>): (r: seq<Service>)
    ensures forall i :: 0 <= i < |r| ==> r[i].characteristics == []
    ensures forall j :: 0 <= j < |ss| && ParseUuid(ss[j].uuidString).Some? ==>
              Service(ParseUuid(ss[j].uuidString).value, []) in r
  {
    if ss == [] then []
    else
      var rest := ServicesFrom(ss[1..]);
      assert forall j :: 1 <= j < |ss| ==> ss[j] == ss[1..][j - 1];
      match ParseUuid(ss[0].uuidString)
      case None => rest
      case Some(u) => [Service(u, [])] + rest
  }

  /** `service.characteristics?.compactMap { UUID(cbuuid:) ... Characteristic(uuid:, properties: []) } ?? []`. */
  function CharacteristicsFrom(cs: seq<CBCharacteristic>): (r: seq<Characteristic>)
    ensures forall i :: 0 <= i < |r| ==> r[i].properties == []
    ensures forall j :: 0 <= j < |cs| && ParseUuid(cs[j].uuidString).Some? ==>
              Characteristic(ParseUuid(cs[j].uuidString).value, []) in r
  {
    if cs == [] then []
    else
      var rest := CharacteristicsFrom(cs[1..]);
      assert forall j :: 1 <= j < |cs| ==> cs[j] == cs[1..][j - 1];
      match ParseUuid(cs[0].uuidString)
      case None => rest
      case Some(u) => [Characteristic(u, [])] + rest
  }

  /** Every converted service comes from a peripheral service whose UUID converts to its UUID. */
  lemma {:induction false} ServicesFromSound(ss: seq<CBService>)
    ensures forall s :: s in ServicesFrom(ss) ==>
              exists j :: 0 <= j < |ss| && ParseUuid(ss[j].uuidString) == Some(s.uuid)
  {
    if ss != [] {
      ServicesFromSound(ss[1..]);
      forall s | s in ServicesFrom(ss)
        ensures exists j :: 0 <= j < |ss| && ParseUuid(ss[j].uuidString) == Some(s.uuid)
      {
        if s in ServicesFrom(ss[1..]) {
          var j :| 0 <= j < |ss[1..]| && ParseUuid(ss[1..][j].uuidString) == Some(s.uuid);
          assert ss[j + 1] == ss[1..][j];
        } else {
          assert ParseUuid(ss[0].uuidString) == Some(s.uuid);
        }
      }
    }
  }

  /** Every converted characteristic comes from a platform characteristic whose UUID converts to its UUID. */
  lemma {:induction false} CharacteristicsFromSound(cs: seq<CBCharacteristic>)
    ensures forall c :: c in CharacteristicsFrom(cs) ==>
              exists j :: 0 <= j < |cs| && ParseUuid(cs[j].uuidString) == Some(c.uuid)
  {
    if cs != [] {
      CharacteristicsFromSound(cs[1..]);
      forall c | c in CharacteristicsFrom(cs)
        ensures exists j :: 0 <= j < |cs| && ParseUuid(cs[j].uuidString) == Some(c.uuid)
      {
        if c in CharacteristicsFrom(cs[1..]) {
          var j :| 0 <= j < |cs[1..]| && ParseUuid(cs[1..][j].uuidString) == Some(c.uuid);
          assert cs[j + 1] == cs[1..][j];
        } else {
          assert ParseUuid(cs[0].uuidString) == Some(c.uuid);
        }
      }
    }
  }

  /** No two services convert to the same UUID: `Dictionary(uniqueKeysWithValues:)` traps otherwise. */
  predicate UniqueUuids(services: seq<Service>) {
    forall i, j :: 0 <= i < j < |services| ==> services[i].uuid != services[j].uuid
  }

  /** `Dictionary(uniqueKeysWithValues: zip(services.map { $0.uuid }, services))`. */
  function ServiceTable(services: seq<Service>): (m: map<Uuid, Service>)
    requires UniqueUuids(services)
    ensures forall s :: s in services ==> s.uuid in m && m[s.uuid] == s
    ensures forall u :: u in m ==> m[u] in services && m[u].uuid == u
  {
    if services == [] then map[]
    else
      var m := ServiceTable(services[1..]);
      assert forall s :: s in services[1..] ==> s.uuid != services[0].uuid;
      m[services[0].uuid := services[0]]
  }

  /** An invocation of one of a device's user closures. */
  datatype DeviceEvent =
    | StateHandlerCalled(handler: Handler, state: ConnectionState)
    | ConnectionHandlerCalled(handler: Handler, state: ConnectionState)
    | NotificationHandlerCalled(handler: Handler, result: Result<Bytes>)

  /** A platform callback as it reaches a device through its manager. */
  datatype Delivery =
    | ConnectedEvent
    | DisconnectedEvent
    | ServicesDiscovered(error: Option<Error>)
    | CharacteristicsDiscovered(service: CBService, error: Option<Error>)
    | ValueUpdated(characteristic: CBCharacteristic, error: Option<Error>)
    | ValueWritten(characteristic: CBCharacteristic, error: Option<Error>)
    | NotificationStateUpdated(characteristic: CBCharacteristic, error: Option<Error>)

  function StateCall(h: Option<Handler>, s: ConnectionState): seq<DeviceEvent> {
    if h.Some? then [StateHandlerCalled(h.value, s)] else []
  }

  function ConnectionCall(h: Option<Handler>, s: ConnectionState): seq<DeviceEvent> {
    if h.Some? then [ConnectionHandlerCalled(h.value, s)] else []
  }

  /** The services a table lists are exactly the services it was built from. */
  lemma ServiceTableValues(services: seq<Service>)
    requires UniqueUuids(services)
    ensures ServiceTable(services).Values == set s | s in services
  {
    var m := ServiceTable(services);
    forall v | v in m.Values ensures v in services {
      var u :| u in m && m[u] == v;
    }
    forall v | v in services ensures v in m.Values {
      assert m[v.uuid] == v;
    }
  }

  // ---------------------------------------------------------------------------------
  // Device

  /**
   * `Device`: one remote peripheral, its serial queue of GATT operations and the user
   * closures registered on it.  `delivered` records the platform callbacks that reached
   * this device, so that routing by the manager can be stated.
   */
  class Device {
    const manager: SwiftyTeeth
    const queue: OperationQueue<Payload, GattOperation>
    /** The platform's view of the peripheral, which the platform keeps current. */
    var peripheral: CBPeripheral
    var discoveredServices: map<Uuid, Service>
    var connectionStateChangedHandler: Option<Handler>
    var connectionHandler: Option<Handler>
    /** Keyed by the characteristic object. */
    var notificationHandler: map<nat, Handler>
    var autoReconnect: bool
    ghost var requests: seq<PeripheralRequest>
    ghost var events: seq<DeviceEvent>
    ghost var delivered: seq<Delivery>
    ghost var Repr: set<object>

    /**
     * The device owns its queue, and every queued item is one the device built: it has
     * an execution block and a callback that hands the result on and calls `done`.
     */
    ghost predicate Valid()
      reads this, Repr
    {
      && this in Repr && queue in Repr && queue.Repr <= Repr && this !in queue.Repr
      && manager !in Repr
      && queue.Valid()
      && forall i :: 0 <= i < |queue.items| ==>
           queue.items[i].execution.Some? && queue.items[i].callback == Some(CallbackBlock(true))
    }

    /** `init(manager:peripheral:)`. */
    constructor (manager: SwiftyTeeth, peripheral: CBPeripheral)
      ensures Valid() && fresh(Repr)
      ensures this.manager == manager && this.peripheral == peripheral
      ensures queue.items == [] && discoveredServices == map[] && notificationHandler == map[]
      ensures connectionStateChangedHandler.None? && connectionHandler.None? && !autoReconnect
      ensures requests == [] && events == [] && delivered == []
    {
      this.manager := manager;
      this.peripheral := peripheral;
      var q := new OperationQueue<Payload, GattOperation>();
      queue := q;
      discoveredServices := map[];
      connectionStateChangedHandler := None;
      connectionHandler := None;
      notificationHandler := map[];
      autoReconnect := false;
      requests := [];
      events := [];
      delivered := [];
      Repr := {this} + q.Repr;
    }

    /** `init(copy:)`: a new device over the same manager and peripheral, with none of the other's state. */
    constructor Copy(other: Device)
      ensures Valid() && fresh(Repr)
      ensures manager == other.manager && peripheral == other.peripheral
      ensures queue.items == [] && discoveredServices == map[] && notificationHandler == map[]
      ensures connectionStateChangedHandler.None? && connectionHandler.None? && !autoReconnect
      ensures requests == [] && events == [] && delivered == []
    {
      manager := other.manager;
      peripheral := other.peripheral;
      var q := new OperationQueue<Payload, GattOperation>();
      queue := q;
      discoveredServices := map[];
      connectionStateChangedHandler := None;
      connectionHandler := None;
      notificationHandler := map[];
      autoReconnect := false;
      requests := [];
      events := [];
      delivered := [];
      Repr := {this} + q.Repr;
    }

    function State(): ConnectionState
      reads this
    {
      ConnectionStateOf(peripheral.state)
    }

    /** `isConnected`: exactly when the platform reports the link as connected. */
    predicate IsConnected()
      reads this
    {
      State() == ConnectionState.Connected
    }

    /** `name`: the advertised name, or empty. */
    function Name(): (r: string)
      reads this
      ensures peripheral.name.Some? ==> r == peripheral.name.value
      ensures peripheral.name.None? ==> r == ""
    {
      peripheral.name.OrElse("")
    }

    /** `id`, which is also the device's identity (`hash` and `isEqual`). */
    function Id(): string
      reads this
    {
      peripheral.identifier
    }

    /** The parts of the device no connection or queue operation touches. */
    ghost predicate SameGatt(
      p: CBPeripheral, ds: map<Uuid, Service>, nh: map<nat, Handler>, rs: seq<PeripheralRequest>,
      dl: seq<Delivery>)
      reads this
    {
      peripheral == p && discoveredServices == ds && notificationHandler == nh && requests == rs
      && delivered == dl
    }

    /** `connectionStateChangedHandler`'s `didSet`: the new handler is called with the current state. */
    method SetConnectionStateChangedHandler(h: Option<Handler>)
      requires Valid()
      modifies this
      ensures Valid() && Repr == old(Repr)
      ensures connectionStateChangedHandler == h
      ensures events == old(events) + StateCall(h, State())
      ensures connectionHandler == old(connectionHandler) && autoReconnect == old(autoReconnect)
      ensures SameGatt(old(peripheral), old(discoveredServices), old(notificationHandler), old(requests), old(delivered))
    {
      connectionStateChangedHandler := h;
      events := events + StateCall(h, State());
    }

    /**
     * `connect(with:autoReconnect:complete:)`: report `connecting`, keep the completion for
     * later connection changes, and have the manager register and connect this device.
     */
    method Connect(autoReconnect: bool, complete: Option<Handler>)
      requires Valid()
      modifies this, manager
      ensures Valid() && Repr == old(Repr)
      ensures events == old(events) + StateCall(connectionStateChangedHandler, ConnectionState.Connecting)
      ensures connectionHandler == complete && this.autoReconnect == autoReconnect
      ensures connectionStateChangedHandler == old(connectionStateChangedHandler)
      ensures SameGatt(old(peripheral), old(discoveredServices), old(notificationHandler), old(requests), old(delivered))
      ensures manager.connectedDevices == old(manager.connectedDevices)[Id() := this]
      ensures manager.requests == old(manager.requests) + [CentralRequest.Connect(Id())]
      ensures manager.ScanSideIs(old(manager.ScanSide()), old(manager.events))
    {
      events := events + StateCall(connectionStateChangedHandler, ConnectionState.Connecting);
      connectionHandler := complete;
      this.autoReconnect := autoReconnect;
      manager.ConnectTo(this);
    }

    /** `disconnect(autoReconnect:)`: report `disconnecting` and have the manager cancel the link. */
    method Disconnect(autoReconnect: bool)
      requires Valid()
      modifies this, manager
      ensures Valid() && Repr == old(Repr)
      ensures events == old(events) + StateCall(connectionStateChangedHandler, ConnectionState.Disconnecting)
      ensures this.autoReconnect == autoReconnect
      ensures connectionHandler == old(connectionHandler)
      ensures connectionStateChangedHandler == old(connectionStateChangedHandler)
      ensures SameGatt(old(peripheral), old(discoveredServices), old(notificationHandler), old(requests), old(delivered))
      ensures manager.connectedDevices == old(manager.connectedDevices)[Id() := this]
      ensures manager.requests == old(manager.requests) + [CancelPeripheralConnection(Id())]
      ensures manager.ScanSideIs(old(manager.ScanSide()), old(manager.events))
    {
      events := events + StateCall(connectionStateChangedHandler, ConnectionState.Disconnecting);
      this.autoReconnect := autoReconnect;
      manager.DisconnectFrom(this);
    }

    /** The queue grew by one fresh, ready item with this name and operation, built by the device. */
    ghost predicate PushedOnto(before: seq<Item>, name: string, op: GattOperation)
      reads this, queue, queue.items
    {
      && |queue.items| == |before| + 1 && queue.items[..|before|] == before
      && var it := queue.items[|before|];
         it.name == Some(name) && it.execution == Some(op) && it.callback == Some(CallbackBlock(true))
         && it.priority == Normal && it.Snap() == Snapshot(Ready, false, [])
    }

    /** `queue.pushBack(QueueItem(name:execution:callback:))` as every GATT operation does it. */
    method Push(name: string, op: GattOperation)
      requires Valid()
      modifies Repr
      ensures Valid() && fresh(Repr - old(Repr))
      ensures PushedOnto(old(queue.items), name, op)
      ensures forall o :: o in old(Repr) && o != this && o != queue ==> unchanged(o)
      ensures unchanged(this`peripheral, this`discoveredServices, this`notificationHandler, this`requests,
                        this`events, this`delivered, this`connectionHandler, this`connectionStateChangedHandler,
                        this`autoReconnect)
    {
      var item := new QueueItem<Payload, GattOperation>(Some(name), Normal, Some(op), Some(CallbackBlock(true)));
      queue.PushBack(item);
      Repr := Repr + {item};
    }

    /** `discoverServices(with:complete:)`: queue an item named "discoverServices". */
    method DiscoverServices(uuids: Option<seq<Uuid>>, complete: Option<Handler>)
      requires Valid()
      modifies Repr
      ensures Valid() && fresh(Repr - old(Repr))
      ensures PushedOnto(old(queue.items), DiscoverServicesKey, DiscoverServicesOp(uuids, complete))
      ensures forall o :: o in old(Repr) && o != this && o != queue ==> unchanged(o)
      ensures unchanged(this`peripheral, this`discoveredServices, this`notificationHandler, this`requests,
                        this`events, this`delivered, this`connectionHandler, this`connectionStateChangedHandler,
                        this`autoReconnect)
    {
      Push(DiscoverServicesKey, DiscoverServicesOp(uuids, complete));
    }

    /** `discoverCharacteristics(with:for:complete:)`: queue an item named after the service's UUID. */
    method DiscoverCharacteristics(uuids: Option<seq<Uuid>>, service: Service, complete: Option<Handler>)
      requires Valid()
      modifies Repr
      ensures Valid() && fresh(Repr - old(Repr))
      ensures PushedOnto(old(queue.items), service.uuid, DiscoverCharacteristicsOp(uuids, service, complete))
      ensures forall o :: o in old(Repr) && o != this && o != queue ==> unchanged(o)
      ensures unchanged(this`peripheral, this`discoveredServices, this`notificationHandler, this`requests,
                        this`events, this`delivered, this`connectionHandler, this`connectionStateChangedHandler,
                        this`autoReconnect)
    {
      Push(service.uuid, DiscoverCharacteristicsOp(uuids, service, complete));
    }

    /**
     * `read(from:in:complete:)`: when the service and characteristic are known on the
     * peripheral, queue a read named by the characteristic's `compositeId`; otherwise do
     * nothing at all (the completion is never called).
     */
    method Read(characteristic: Uuid, service: Uuid, complete: Option<Handler>)
      requires Valid()
      modifies Repr
      ensures Valid() && fresh(Repr - old(Repr))
      ensures var t := ResolveTarget(peripheral.services, characteristic, service);
        && (t.None? ==> queue.items == old(queue.items) && Repr == old(Repr))
        && (t.Some? ==> PushedOnto(old(queue.items), CompositeId(t.value), ReadOp(t.value, complete)))
      ensures forall o :: o in old(Repr) && o != this && o != queue ==> unchanged(o)
      ensures unchanged(this`peripheral, this`discoveredServices, this`notificationHandler, this`requests,
                        this`events, this`delivered, this`connectionHandler, this`connectionStateChangedHandler,
                        this`autoReconnect)
    {
      var t := ResolveTarget(peripheral.services, characteristic, service);
      if t.Some? {
        Push(CompositeId(t.value), ReadOp(t.value, complete));
      }
    }

    /**
     * `write(data:to:in:type:complete:)`: like `read`, queueing a write of `data` with
     * the chosen write type.
     */
    method Write(data: Bytes, characteristic: Uuid, service: Uuid, writeType: WriteType, complete: Option<Handler>)
      requires Valid()
      modifies Repr
      ensures Valid() && fresh(Repr - old(Repr))
      ensures var t := ResolveTarget(peripheral.services, characteristic, service);
        && (t.None? ==> queue.items == old(queue.items) && Repr == old(Repr))
        && (t.Some? ==> PushedOnto(old(queue.items), CompositeId(t.value), WriteOp(data, t.value, writeType, complete)))
      ensures forall o :: o in old(Repr) && o != this && o != queue ==> unchanged(o)
      ensures unchanged(this`peripheral, this`discoveredServices, this`notificationHandler, this`requests,
                        this`events, this`delivered, this`connectionHandler, this`connectionStateChangedHandler,
                        this`autoReconnect)
    {
      var t := ResolveTarget(peripheral.services, characteristic, service);
      if t.Some? {
        Push(CompositeId(t.value), WriteOp(data, t.value, writeType, complete));
      }
    }

    /**
     * `subscribe(to:in:complete:)`: only for a known characteristic, on a connected link,
     * that is not notifying yet; then register the handler (a nil one clears the slot) and
     * ask the peer to notify.
     */
    method Subscribe(characteristic: Uuid, service: Uuid, complete: Option<Handler>)
      requires Valid()
      modifies this
      ensures Valid() && Repr == old(Repr)
      ensures var t := ResolveTarget(peripheral.services, characteristic, service);
        if t.Some? && IsConnected() && !t.value.isNotifying then
          && notificationHandler == Store(old(notificationHandler), t.value.handle, complete)
          && requests == old(requests) + [SetNotifyValue(true, t.value)]
        else
          notificationHandler == old(notificationHandler) && requests == old(requests)
      ensures unchanged(this`peripheral, this`discoveredServices, this`events, this`delivered,
                        this`connectionHandler, this`connectionStateChangedHandler, this`autoReconnect)
    {
      var t := ResolveTarget(peripheral.services, characteristic, service);
      if t.None? || !IsConnected() || t.value.isNotifying {
        return;
      }
      notificationHandler := Store(notificationHandler, t.value.handle, complete);
      requests := requests + [SetNotifyValue(true, t.value)];
    }

    /**
     * `unsubscribe(from:in:)`: only for a known characteristic, on a connected link, that
     * is notifying; then drop its handler and ask the peer to stop.
     */
    method Unsubscribe(characteristic: Uuid, service: Uuid)
      requires Valid()
      modifies this
      ensures Valid() && Repr == old(Repr)
      ensures var t := ResolveTarget(peripheral.services, characteristic, service);
        if t.Some? && IsConnected() && t.value.isNotifying then
          && notificationHandler == old(notificationHandler) - {t.value.handle}
          && requests == old(requests) + [SetNotifyValue(false, t.value)]
        else
          notificationHandler == old(notificationHandler) && requests == old(requests)
      ensures unchanged(this`peripheral, this`discoveredServices, this`events, this`delivered,
                        this`connectionHandler, this`connectionStateChangedHandler, this`autoReconnect)
    {
      var t := ResolveTarget(peripheral.services, characteristic, service);
      if t.None? || !IsConnected() || !t.value.isNotifying {
        return;
      }
      notificationHandler := notificationHandler - {t.value.handle};
      requests := requests + [SetNotifyValue(false, t.value)];
    }

    /**
     * Foundation starting an operation: if none is executing, the first ready item runs
     * `main`, and its execution block is evaluated against the peripheral as it is now;
     * a failure is reported to the item, a request is issued.  A cancelled item finishes
     * without running its block.
     */
    method StartNextOperation() returns (started: Option<Item>)
      requires Valid()
      modifies Repr
      ensures Valid() && Repr == old(Repr) && queue.items == old(queue.items)
      ensures started.None? <==> old(!NoneExecuting(queue.items) || FirstReady(queue.items).None?)
      ensures started.Some? ==>
        && started.value == old(queue.items[FirstReady(queue.items).value])
        && started.value.execution.Some?
        && var out := RunOperation(peripheral, started.value.execution.value);
           && started.value.Snap() == PerformSpec(old(started.value.Snap()), true, Some(CallbackBlock(true)), out.report)
           && requests == old(requests) + (if !old(started.value.cancelled) && out.request.Some? then [out.request.value] else [])
      ensures started.None? ==> requests == old(requests)
      ensures forall o :: o in Repr && o != this && o != queue && (started.None? || o != started.value) ==> unchanged(o)
      ensures unchanged(this`peripheral, this`discoveredServices, this`notificationHandler,
                        this`events, this`delivered, this`connectionHandler, this`connectionStateChangedHandler,
                        this`autoReconnect)
    {
      var p := peripheral;
      started := queue.StartNext(op => RunOperation(p, op).report);
      if started.Some? && !started.value.cancelled {
        var out := RunOperation(p, started.value.execution.value);
        if out.request.Some? {
          requests := requests + [out.request.value];
        }
      }
    }

    /** One scheduling step of the device's queue: finished items leave it, then the next may start. */
    method RunQueue() returns (started: Option<Item>)
      requires Valid()
      modifies Repr
      ensures Valid() && Repr == old(Repr)
      ensures queue.items == old(Unfinished(queue.items))
      ensures started.None? <==>
        old(!NoneExecuting(Unfinished(queue.items)) || FirstReady(Unfinished(queue.items)).None?)
      ensures started.Some? ==>
        && started.value == old(Unfinished(queue.items)[FirstReady(Unfinished(queue.items)).value])
        && started.value.execution.Some?
        && var out := RunOperation(peripheral, started.value.execution.value);
           && started.value.Snap() == PerformSpec(old(started.value.Snap()), true, Some(CallbackBlock(true)), out.report)
           && requests == old(requests) + (if !old(started.value.cancelled) && out.request.Some? then [out.request.value] else [])
      ensures started.None? ==> requests == old(requests)
    {
      ghost var pending := Unfinished(queue.items);
      ghost var first := FirstReady(pending);
      ghost var busy := !NoneExecuting(pending);
      queue.Reap();
      assert queue.items == pending;
      assert FirstReady(queue.items) == first && !NoneExecuting(queue.items) == busy;
      started := StartNextOperation();
    }

    /** Hand `result` to the item a completion with this key and kind belongs to, if there is one. */
    method NotifyTarget(key: string, kind: PayloadKind, result: Result<Payload>)
      requires Valid()
      modifies Repr
      ensures Valid() && Repr == old(Repr) && queue.items == old(queue.items)
      ensures var t := old(CompletionTarget(queue.items, key, kind));
        && (t.Some? ==> t.value.Snap() == NotifySpec(old(t.value.Snap()), Some(CallbackBlock(true)), result))
        && forall o :: o in Repr && o != this && (t.None? || o != t.value) ==> unchanged(o)
      ensures unchanged(this)
    {
      var t := CompletionTarget(queue.items, key, kind);
      if t.Some? {
        t.value.Notify(result);
      }
    }

    // Connection changes, as the manager forwards them.

    /** `didConnect()`: the connection completion, then the state handler, both with `connected`. */
    method DidConnect()
      requires Valid()
      modifies this
      ensures Valid() && Repr == old(Repr)
      ensures events == old(events) + ConnectionCall(connectionHandler, ConnectionState.Connected)
                                    + StateCall(connectionStateChangedHandler, ConnectionState.Connected)
      ensures delivered == old(delivered) + [ConnectedEvent]
      ensures unchanged(this`peripheral, this`discoveredServices, this`notificationHandler, this`requests,
                        this`connectionHandler, this`connectionStateChangedHandler, this`autoReconnect)
    {
      events := events + ConnectionCall(connectionHandler, ConnectionState.Connected)
                       + StateCall(connectionStateChangedHandler, ConnectionState.Connected);
      delivered := delivered + [ConnectedEvent];
    }

    /**
     * `didDisconnect()`: cancel every queued item (none of their completions is called),
     * report `disconnected`, and reconnect with the same completion when auto-reconnect is on.
     */
    method DidDisconnect()
      requires Valid()
      modifies Repr, manager
      ensures Valid() && Repr == old(Repr)
      ensures queue.items == old(queue.items)
      ensures forall i :: 0 <= i < |queue.items| ==> queue.items[i].Snap() == CancelSpec(old(queue.items[i].Snap()))
      ensures events == old(events) + ConnectionCall(connectionHandler, ConnectionState.Disconnected)
                                    + StateCall(connectionStateChangedHandler, ConnectionState.Disconnected)
                                    + (if autoReconnect
                                       then StateCall(connectionStateChangedHandler, ConnectionState.Connecting)
                                       else [])
      ensures connectionHandler == old(connectionHandler) && autoReconnect == old(autoReconnect)
      ensures connectionStateChangedHandler == old(connectionStateChangedHandler)
      ensures autoReconnect ==>
        && manager.connectedDevices == old(manager.connectedDevices)[Id() := this]
        && manager.requests == old(manager.requests) + [CentralRequest.Connect(Id())]
        && manager.ScanSideIs(old(manager.ScanSide()), old(manager.events))
      ensures !autoReconnect ==> unchanged(manager)
      ensures peripheral == old(peripheral) && discoveredServices == old(discoveredServices)
      ensures notificationHandler == old(notificationHandler) && requests == old(requests)
      ensures delivered == old(delivered) + [DisconnectedEvent]
    {
      queue.CancelAll();
      events := events + ConnectionCall(connectionHandler, ConnectionState.Disconnected)
                       + StateCall(connectionStateChangedHandler, ConnectionState.Disconnected);
      delivered := delivered + [DisconnectedEvent];
      if autoReconnect {
        Connect(true, connectionHandler);
      }
    }

    // GATT completions, as the manager forwards them.

    /**
     * `didDiscoverServices(error:)`: rebuild the table of discovered services from the
     * peripheral's services whose UUID converts, each without characteristics, and deliver
     * all of them (or the error) to the executing "discoverServices" item.
     */
    method DidDiscoverServices(error: Option<Error>)
      requires Valid()
      requires UniqueUuids(ServicesFrom(peripheral.services.OrElse([])))
      modifies Repr
      ensures Valid() && Repr == old(Repr) && queue.items == old(queue.items) && peripheral == old(peripheral)
      ensures discoveredServices == ServiceTable(ServicesFrom(peripheral.services.OrElse([])))
      ensures var t := old(CompletionTarget(queue.items, DiscoverServicesKey, ServicesKind));
        && (t.Some? ==> t.value.Snap() == NotifySpec(old(t.value.Snap()), Some(CallbackBlock(true)),
                                                     FromCallback(error, ServiceList(discoveredServices.Values))))
        && forall o :: o in Repr && o != this && (t.None? || o != t.value) ==> unchanged(o)
      ensures delivered == old(delivered) + [ServicesDiscovered(error)]
      ensures unchanged(this`peripheral, this`notificationHandler, this`requests, this`events,
                        this`connectionHandler, this`connectionStateChangedHandler, this`autoReconnect)
    {
      var table := ServiceTable(ServicesFrom(peripheral.services.OrElse([])));
      discoveredServices := table;
      delivered := delivered + [ServicesDiscovered(error)];
      NotifyTarget(DiscoverServicesKey, ServicesKind, FromCallback(error, ServiceList(table.Values)));
    }

    /**
     * `didDiscoverCharacteristicsFor(service:error:)`: ignored when the service's UUID
     * does not convert; otherwise record the service with its converted characteristics
     * and deliver them (or the error) to the executing item named after that UUID.
     */
    method DidDiscoverCharacteristicsFor(service: CBService, error: Option<Error>)
      requires Valid()
      modifies Repr
      ensures Valid() && Repr == old(Repr) && queue.items == old(queue.items)
      ensures delivered == old(delivered) + [CharacteristicsDiscovered(service, error)]
      ensures ParseUuid(service.uuidString).None? ==>
        discoveredServices == old(discoveredServices) && forall o :: o in Repr && o != this ==> unchanged(o)
      ensures ParseUuid(service.uuidString).Some? ==>
        var u := ParseUuid(service.uuidString).value;
        var found := Service(u, CharacteristicsFrom(service.characteristics.OrElse([])));
        var t := old(CompletionTarget(queue.items, u, CharacteristicsKind));
        && discoveredServices == old(discoveredServices)[u := found]
        && (t.Some? ==> t.value.Snap() == NotifySpec(old(t.value.Snap()), Some(CallbackBlock(true)),
                          FromCallback(error, DiscoveredCharacteristic(found, found.characteristics))))
        && forall o :: o in Repr && o != this && (t.None? || o != t.value) ==> unchanged(o)
      ensures unchanged(this`peripheral, this`notificationHandler, this`requests, this`events,
                        this`connectionHandler, this`connectionStateChangedHandler, this`autoReconnect)
    {
      delivered := delivered + [CharacteristicsDiscovered(service, error)];
      var u := ParseUuid(service.uuidString);
      if u.None? {
        return;
      }
      var found := Service(u.value, CharacteristicsFrom(service.characteristics.OrElse([])));
      discoveredServices := discoveredServices[u.value := found];
      NotifyTarget(u.value, CharacteristicsKind, FromCallback(error, DiscoveredCharacteristic(found, found.characteristics)));
    }

    /**
     * `didUpdateValueFor(characteristic:error:)`: deliver the value (empty when absent) or
     * the error to the executing read keyed by `compositeId`, then to the characteristic's
     * notification handler if one is registered.
     */
    method DidUpdateValueFor(c: CBCharacteristic, error: Option<Error>)
      requires Valid()
      modifies Repr
      ensures Valid() && Repr == old(Repr) && queue.items == old(queue.items)
      ensures var t := old(CompletionTarget(queue.items, CompositeId(c), DataKind));
        && (t.Some? ==> t.value.Snap() == NotifySpec(old(t.value.Snap()), Some(CallbackBlock(true)),
                                                     FromCallback(error, Data(c.value.OrElse([])))))
        && forall o :: o in Repr && o != this && (t.None? || o != t.value) ==> unchanged(o)
      ensures events == old(events) + (if c.handle in notificationHandler
        then [NotificationHandlerCalled(notificationHandler[c.handle], FromCallback(error, c.value.OrElse([])))]
        else [])
      ensures delivered == old(delivered) + [ValueUpdated(c, error)]
      ensures unchanged(this`peripheral, this`discoveredServices, this`notificationHandler, this`requests,
                        this`connectionHandler, this`connectionStateChangedHandler, this`autoReconnect)
    {
      delivered := delivered + [ValueUpdated(c, error)];
      NotifyTarget(CompositeId(c), DataKind, FromCallback(error, Data(c.value.OrElse([]))));
      if c.handle in notificationHandler {
        events := events + [NotificationHandlerCalled(notificationHandler[c.handle], FromCallback(error, c.value.OrElse([])))];
      }
    }

    /** `didWriteValueFor(characteristic:error:)`: deliver success or the error to the executing write. */
    method DidWriteValueFor(c: CBCharacteristic, error: Option<Error>)
      requires Valid()
      modifies Repr
      ensures Valid() && Repr == old(Repr) && queue.items == old(queue.items)
      ensures var t := old(CompletionTarget(queue.items, CompositeId(c), VoidKind));
        && (t.Some? ==> t.value.Snap() == NotifySpec(old(t.value.Snap()), Some(CallbackBlock(true)),
                                                     FromCallback(error, NoValue)))
        && forall o :: o in Repr && o != this && (t.None? || o != t.value) ==> unchanged(o)
      ensures delivered == old(delivered) + [ValueWritten(c, error)]
      ensures unchanged(this`peripheral, this`discoveredServices, this`notificationHandler, this`requests,
                        this`events, this`connectionHandler, this`connectionStateChangedHandler, this`autoReconnect)
    {
      delivered := delivered + [ValueWritten(c, error)];
      NotifyTarget(CompositeId(c), VoidKind, FromCallback(error, NoValue));
    }

    /**
     * `didUpdateNotificationStateFor(characteristic:error:)`: the characteristic's current
     * value (or the error) goes to its notification handler only; no queued item is touched.
     */
    method DidUpdateNotificationStateFor(c: CBCharacteristic, error: Option<Error>)
      requires Valid()
      modifies this
      ensures Valid() && Repr == old(Repr)
      ensures events == old(events) + (if c.handle in notificationHandler
        then [NotificationHandlerCalled(notificationHandler[c.handle], FromCallback(error, c.value.OrElse([])))]
        else [])
      ensures delivered == old(delivered) + [NotificationStateUpdated(c, error)]
      ensures unchanged(this`peripheral, this`discoveredServices, this`notificationHandler, this`requests,
                        this`connectionHandler, this`connectionStateChangedHandler, this`autoReconnect)
    {
      delivered := delivered + [NotificationStateUpdated(c, error)];
      if c.handle in notificationHandler {
        events := events + [NotificationHandlerCalled(notificationHandler[c.handle], FromCallback(error, c.value.OrElse([])))];
      }
    }
  }

  // ---------------------------------------------------------------------------------
  // Manager

  /** An invocation of one of the manager's user closures. */
  datatype ManagerEvent =
    | BluetoothStateHandlerCalled(handler: Handler, state: BluetoothState)
    | ScanChangesHandlerCalled(handler: Handler, device: Device)
    | ScanCompleteHandlerCalled(handler: Handler, devices: set<Device>)

  /** The manager's fields that connecting and disconnecting leave alone. */
  datatype ScanSideState = ScanSideState(
    stateChangedHandler: Option<Handler>,
    centralState: int,
    scannedDevices: map<string, Device>,
    scanChangesHandler: Option<Handler>,
    scanCompleteHandler: Option<Handler>)

  /**
   * `SwiftyTeeth`: the central manager's delegate.  It scans, remembers the devices it
   * connects or disconnects by identifier, and forwards each platform callback to the
   * device registered under the peripheral's identifier.
   */
  class SwiftyTeeth {
    var stateChangedHandler: Option<Handler>
    /** The raw value of `centralManager.state`, which the platform maintains. */
    var centralState: int
    /** `scannedDevices`, a set of devices that are equal when their identifiers are: keyed by identifier. */
    var scannedDevices: map<string, Device>
    var connectedDevices: map<string, Device>
    var scanChangesHandler: Option<Handler>
    var scanCompleteHandler: Option<Handler>
    ghost var requests: seq<CentralRequest>
    ghost var events: seq<ManagerEvent>

    /** `init()`; the central manager starts in the unknown state. */
    constructor ()
      ensures stateChangedHandler.None? && centralState == 0
      ensures scannedDevices == map[] && connectedDevices == map[]
      ensures scanChangesHandler.None? && scanCompleteHandler.None?
      ensures requests == [] && events == []
    {
      stateChangedHandler := None;
      centralState := 0;
      scannedDevices := map[];
      connectedDevices := map[];
      scanChangesHandler := None;
      scanCompleteHandler := None;
      requests := [];
      events := [];
    }

    ghost function ScanSide(): ScanSideState
      reads this
    {
      ScanSideState(stateChangedHandler, centralState, scannedDevices, scanChangesHandler, scanCompleteHandler)
    }

    ghost predicate ScanSideIs(s: ScanSideState, evs: seq<ManagerEvent>)
      reads this
    {
      ScanSide() == s && events == evs
    }

    /** `state`: the platform's state when it has a `BluetoothState` counterpart, unknown otherwise. */
    function State(): (r: BluetoothState)
      reads this
      ensures 0 <= centralState <= 5 ==> BluetoothStateFromRaw(centralState) == Some(r)
      ensures !(0 <= centralState <= 5) ==> r == Unknown
    {
      BluetoothStateFromRaw(centralState).OrElse(Unknown)
    }

    /** `stateChangedHandler`'s `didSet`: the new handler is called with the current state. */
    method SetStateChangedHandler(h: Option<Handler>)
      modifies this
      ensures stateChangedHandler == h
      ensures events == old(events) + (if h.Some? then [BluetoothStateHandlerCalled(h.value, State())] else [])
      ensures centralState == old(centralState) && scannedDevices == old(scannedDevices)
      ensures connectedDevices == old(connectedDevices) && requests == old(requests)
      ensures scanChangesHandler == old(scanChangesHandler) && scanCompleteHandler == old(scanCompleteHandler)
    {
      stateChangedHandler := h;
      if h.Some? {
        events := events + [BluetoothStateHandlerCalled(h.value, State())];
      }
    }

    /** `scan()`: forget earlier results and scan for every peripheral, duplicates allowed. */
    method Scan()
      modifies this
      ensures scannedDevices == map[]
      ensures requests == old(requests) + [ScanForPeripherals(true)]
      ensures stateChangedHandler == old(stateChangedHandler) && centralState == old(centralState)
      ensures connectedDevices == old(connectedDevices) && events == old(events)
      ensures scanChangesHandler == old(scanChangesHandler) && scanCompleteHandler == old(scanCompleteHandler)
    {
      scannedDevices := map[];
      requests := requests + [ScanForPeripherals(true)];
    }

    /** `scan(changes:)`: install the per-device handler, then scan. */
    method ScanWithChanges(changes: Option<Handler>)
      modifies this
      ensures scanChangesHandler == changes && scannedDevices == map[]
      ensures requests == old(requests) + [ScanForPeripherals(true)]
      ensures stateChangedHandler == old(stateChangedHandler) && centralState == old(centralState)
      ensures connectedDevices == old(connectedDevices) && events == old(events)
      ensures scanCompleteHandler == old(scanCompleteHandler)
    {
      scanChangesHandler := changes;
      Scan();
    }

    /**
     * `scan(for:changes:complete:)`: install both handlers, then scan.  The timer that
     * stops the scan later is the caller's `StopScan`.
     */
    method ScanFor(changes: Option<Handler>, complete: Handler)
      modifies this
      ensures scanChangesHandler == changes && scanCompleteHandler == Some(complete)
      ensures scannedDevices == map[]
      ensures requests == old(requests) + [ScanForPeripherals(true)]
      ensures stateChangedHandler == old(stateChangedHandler) && centralState == old(centralState)
      ensures connectedDevices == old(connectedDevices) && events == old(events)
    {
      scanChangesHandler := changes;
      scanCompleteHandler := Some(complete);
      Scan();
    }

    /** `stopScan()`: stop, hand every scanned device to the completion, and clear both scan handlers. */
    method StopScan()
      modifies this
      ensures requests == old(requests) + [CentralRequest.StopScan]
      ensures events == old(events) + (if old(scanCompleteHandler).Some?
        then [ScanCompleteHandlerCalled(old(scanCompleteHandler).value, scannedDevices.Values)]
        else [])
      ensures scanChangesHandler.None? && scanCompleteHandler.None?
      ensures stateChangedHandler == old(stateChangedHandler) && centralState == old(centralState)
      ensures connectedDevices == old(connectedDevices) && scannedDevices == old(scannedDevices)
    {
      requests := requests + [CentralRequest.StopScan];
      if scanCompleteHandler.Some? {
        events := events + [ScanCompleteHandlerCalled(scanCompleteHandler.value, scannedDevices.Values)];
      }
      scanChangesHandler := None;
      scanCompleteHandler := None;
    }

    /** `connect(to:)`: (re)register the device under its identifier, then ask the platform to connect. */
    method ConnectTo(d: Device)
      modifies this
      ensures connectedDevices == old(connectedDevices)[d.Id() := d]
      ensures requests == old(requests) + [CentralRequest.Connect(d.Id())]
      ensures ScanSideIs(old(ScanSide()), old(events))
    {
      connectedDevices := connectedDevices[d.Id() := d];
      requests := requests + [CentralRequest.Connect(d.Id())];
    }

    /** `disconnect(from:)`: (re)register the device under its identifier, then cancel its connection. */
    method DisconnectFrom(d: Device)
      modifies this
      ensures connectedDevices == old(connectedDevices)[d.Id() := d]
      ensures requests == old(requests) + [CancelPeripheralConnection(d.Id())]
      ensures ScanSideIs(old(ScanSide()), old(events))
    {
      connectedDevices := connectedDevices[d.Id() := d];
      requests := requests + [CancelPeripheralConnection(d.Id())];
    }

    /**
     * `centralManagerDidUpdateState(_:)`, after the platform has set `centralState`: when
     * powered on, issue the warm-up retrieval; then call the state handler if the raw state
     * has a `BluetoothState` counterpart.
     */
    method CentralManagerDidUpdateState()
      modifies this
      ensures requests == old(requests) + (if centralState == 5 then [RetrievePeripherals([])] else [])
      ensures events == old(events) + (if stateChangedHandler.Some? && BluetoothStateFromRaw(centralState).Some?
        then [BluetoothStateHandlerCalled(stateChangedHandler.value, BluetoothStateFromRaw(centralState).value)]
        else [])
      ensures ScanSide() == old(ScanSide()) && connectedDevices == old(connectedDevices)
    {
      if centralState == 5 {
        requests := requests + [RetrievePeripherals([])];
      }
      var s := BluetoothStateFromRaw(centralState);
      if s.None? {
        return;
      }
      if stateChangedHandler.Some? {
        events := events + [BluetoothStateHandlerCalled(stateChangedHandler.value, s.value)];
      }
    }

    /**
     * `centralManager(_:didDiscover:advertisementData:rssi:)`: a peripheral without a name
     * is ignored.  Otherwise a new device wraps it; it joins the scanned set only when no
     * device with its identifier is there yet, and the changes handler receives the new
     * device on every advertisement.  The new device is returned so it can be named.
     */
    method DidDiscover(p: CBPeripheral) returns (device: Option<Device>)
      modifies this
      ensures p.name.None? ==> device.None? && unchanged(this)
      ensures p.name.Some? ==>
        && device.Some? && fresh(device.value) && device.value.Valid() && fresh(device.value.Repr)
        && device.value.peripheral == p && device.value.manager == this
        && scannedDevices == (if p.identifier in old(scannedDevices) then old(scannedDevices)
                              else old(scannedDevices)[p.identifier := device.value])
        && events == old(events) + (if scanChangesHandler.Some?
                                    then [ScanChangesHandlerCalled(scanChangesHandler.value, device.value)]
                                    else [])
      ensures stateChangedHandler == old(stateChangedHandler) && centralState == old(centralState)
      ensures scanChangesHandler == old(scanChangesHandler) && scanCompleteHandler == old(scanCompleteHandler)
      ensures connectedDevices == old(connectedDevices) && requests == old(requests)
    {
      if p.name.None? {
        return None;
      }
      var d := new Device(this, p);
      if p.identifier !in scannedDevices {
        scannedDevices := scannedDevices[p.identifier := d];
      }
      if scanChangesHandler.Some? {
        events := events + [ScanChangesHandlerCalled(scanChangesHandler.value, d)];
      }
      device := Some(d);
    }

    // Routing of platform callbacks to the device registered under the peripheral's identifier.

    /** The state a routed callback may change: the registered device's, or nothing. */
    ghost function DeviceFrame(id: string): set<object>
      reads this, if id in connectedDevices then {connectedDevices[id]} else {}
    {
      if id in connectedDevices then connectedDevices[id].Repr else {}
    }

    /** The device registered under `id`, if any, is consistent and belongs to this manager. */
    ghost predicate Routable(id: string)
      reads this, if id in connectedDevices then {connectedDevices[id]} + connectedDevices[id].Repr else {}
    {
      id in connectedDevices ==> connectedDevices[id].Valid() && connectedDevices[id].manager == this
    }

    /** `centralManager(_:didConnect:)`. */
    method DidConnect(id: string)
      requires Routable(id)
      modifies DeviceFrame(id)
      ensures id in connectedDevices ==>
        var d := connectedDevices[id];
        && d.Valid() && d.delivered == old(d.delivered) + [ConnectedEvent]
        && d.events == old(d.events) + ConnectionCall(d.connectionHandler, ConnectionState.Connected)
                                     + StateCall(d.connectionStateChangedHandler, ConnectionState.Connected)
    {
      if id in connectedDevices {
        connectedDevices[id].DidConnect();
      }
    }

    /** `centralManager(_:didFailToConnect:error:)`: handled as a disconnection. */
    method DidFailToConnect(id: string)
      requires Routable(id)
      modifies this, DeviceFrame(id)
      ensures id !in old(connectedDevices) ==> unchanged(this)
      ensures id in old(connectedDevices) ==> Disconnected(old(connectedDevices[id]), old(requests))
      ensures id in old(connectedDevices) ==>
        var d := old(connectedDevices[id]);
        && connectedDevices == (if d.autoReconnect then old(connectedDevices)[d.Id() := d] else old(connectedDevices))
        && ScanSideIs(old(ScanSide()), old(events))
    {
      if id in connectedDevices {
        connectedDevices[id].DidDisconnect();
      }
    }

    /** `centralManager(_:didDisconnectPeripheral:error:)`. */
    method DidDisconnectPeripheral(id: string)
      requires Routable(id)
      modifies this, DeviceFrame(id)
      ensures id !in old(connectedDevices) ==> unchanged(this)
      ensures id in old(connectedDevices) ==> Disconnected(old(connectedDevices[id]), old(requests))
      ensures id in old(connectedDevices) ==>
        var d := old(connectedDevices[id]);
        && connectedDevices == (if d.autoReconnect then old(connectedDevices)[d.Id() := d] else old(connectedDevices))
        && ScanSideIs(old(ScanSide()), old(events))
    {
      if id in connectedDevices {
        connectedDevices[id].DidDisconnect();
      }
    }

    /**
     * What a routed disconnection leaves behind: the device has every queued item
     * cancelled, and the manager has asked to reconnect exactly when auto-reconnect is on.
     */
    ghost predicate Disconnected(d: Device, before: seq<CentralRequest>)
      reads this, d, d.Repr
    {
      && d.Valid()
      && d.delivered != [] && d.delivered[|d.delivered| - 1] == DisconnectedEvent
      && (forall i :: 0 <= i < |d.queue.items| ==> d.queue.items[i].IsFinished() && d.queue.items[i].cancelled)
      && requests == before + (if d.autoReconnect then [CentralRequest.Connect(d.Id())] else [])
    }

    /** `peripheral(_:didDiscoverServices:)`. */
    method DidDiscoverServices(id: string, error: Option<Error>)
      requires Routable(id)
      requires id in connectedDevices ==> UniqueUuids(ServicesFrom(connectedDevices[id].peripheral.services.OrElse([])))
      modifies DeviceFrame(id)
      ensures id in connectedDevices ==>
        var d := connectedDevices[id];
        && d.Valid() && d.delivered == old(d.delivered) + [ServicesDiscovered(error)]
        && d.peripheral == old(d.peripheral)
        && d.discoveredServices == ServiceTable(ServicesFrom(d.peripheral.services.OrElse([])))
    {
      if id in connectedDevices {
        connectedDevices[id].DidDiscoverServices(error);
      }
    }

    /** `peripheral(_:didDiscoverCharacteristicsFor:error:)`. */
    method DidDiscoverCharacteristicsFor(id: string, service: CBService, error: Option<Error>)
      requires Routable(id)
      modifies DeviceFrame(id)
      ensures id in connectedDevices ==>
        var d := connectedDevices[id];
        d.Valid() && d.delivered == old(d.delivered) + [CharacteristicsDiscovered(service, error)]
    {
      if id in connectedDevices {
        connectedDevices[id].DidDiscoverCharacteristicsFor(service, error);
      }
    }

    /** `peripheral(_:didUpdateValueFor:error:)` for a characteristic. */
    method DidUpdateValueFor(id: string, c: CBCharacteristic, error: Option<Error>)
      requires Routable(id)
      modifies DeviceFrame(id)
      ensures id in connectedDevices ==>
        var d := connectedDevices[id];
        d.Valid() && d.delivered == old(d.delivered) + [ValueUpdated(c, error)]
    {
      if id in connectedDevices {
        connectedDevices[id].DidUpdateValueFor(c, error);
      }
    }

    /** `peripheral(_:didWriteValueFor:error:)` for a characteristic. */
    method DidWriteValueFor(id: string, c: CBCharacteristic, error: Option<Error>)
      requires Routable(id)
      modifies DeviceFrame(id)
      ensures id in connectedDevices ==>
        var d := connectedDevices[id];
        d.Valid() && d.delivered == old(d.delivered) + [ValueWritten(c, error)]
    {
      if id in connectedDevices {
        connectedDevices[id].DidWriteValueFor(c, error);
      }
    }

    /** `peripheral(_:didUpdateNotificationStateFor:error:)`. */
    method DidUpdateNotificationStateFor(id: string, c: CBCharacteristic, error: Option<Error>)
      requires Routable(id)
      modifies DeviceFrame(id)
      ensures id in connectedDevices ==>
        var d := connectedDevices[id];
        d.Valid() && d.delivered == old(d.delivered) + [NotificationStateUpdated(c, error)]
    {
      if id in connectedDevices {
        connectedDevices[id].DidUpdateNotificationStateFor(c, error);
      }
    }
  }
}
