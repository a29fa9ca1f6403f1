/**
 * The intermediate `Device` revision (Sources/SwiftyTeeth/Models/Device.swift).  Like
 * the current one it queues every GATT request as a named `QueueItem` on a serial queue
 * and correlates platform completions with the executing item by name, but it speaks in
 * platform objects: services and characteristics are `CBService`/`CBCharacteristic`,
 * discovery fills a `[CBService: [CBCharacteristic]]` table, and the connection handler
 * receives a flag rather than a state.  Its manager is outside this module: the calls
 * the device makes on it are recorded.
 */
module QueuedDevice {
  import opened Optional
  import opened Results
  import opened Platform
  import opened Lookup
  import opened QueueItems
  import opened OperationQueues
  import opened ServiceTables

  /** The value each kind of queued operation delivers: the `T` of its `QueueItem<T>`. */
  datatype Payload =
    | ServiceObjects(services: set<CBService>)
    | DiscoveredOnPlatform(service: CBService, characteristics: seq<CBCharacteristic>)
    | Data(bytes: Bytes)
    | NoValue

  /** The result type of an item, which `as? QueueItem<T>` tests. */
  datatype PayloadKind = ServicesKind | CharacteristicsKind | DataKind | VoidKind

  /** The execution block of a queued operation, with the user's completion handler it reports to. */
  datatype GattOperation =
    | DiscoverServicesOp(uuids: Option<seq<string>>, complete: Option<Handler>)
    | DiscoverCharacteristicsOp(characteristicUuids: Option<seq<string>>, service: CBService, complete: Option<Handler>)
    | ReadOp(target: CBCharacteristic, complete: Option<Handler>)
    | WriteOp(data: Bytes, target: CBCharacteristic, writeType: WriteType, complete: Option<Handler>)
  {
    function Kind(): PayloadKind {
      match this
      case DiscoverServicesOp(_, _) => ServicesKind
      case DiscoverCharacteristicsOp(_, _, _) => CharacteristicsKind
      case ReadOp(_, _) => DataKind
      case WriteOp(_, _, _, _) => VoidKind
    }
  }

  type Item = QueueItem<Payload, GattOperation>
  type Handler = nat

  const DiscoverServicesKey: string := "discoverServices"

  /** What an execution block does when it runs: report a failure at once, or issue one request. */
  datatype Outcome = Outcome(report: Option<Result<Payload>>, request: Option<PeripheralRequest>)

  /**
   * The execution blocks of this revision: every one fails with `disconnected` when the
   * link is down, and otherwise issues its request; none looks anything up first.
   */
  function RunOperation(p: CBPeripheral, op: GattOperation): (o: Outcome)
    ensures p.state != PeripheralState.Connected <==> o.report.Some?
    ensures o.report.Some? ==> o.report.value == Failure(Error.Disconnected) && o.request.None?
    ensures p.state == PeripheralState.Connected ==> o.request == Some(match op
      case DiscoverServicesOp(uuids, _) => DiscoverServices(uuids)
      case DiscoverCharacteristicsOp(uuids, s, _) => DiscoverCharacteristics(uuids, s)
      case ReadOp(t, _) => ReadValue(t)
      case WriteOp(d, t, wt, _) => WriteValue(d, t, wt))
  {
    if p.state != PeripheralState.Connected then Outcome(Some(Failure(Error.Disconnected)), None)
    else match op
      case DiscoverServicesOp(uuids, _) => Outcome(None, Some(DiscoverServices(uuids)))
      case DiscoverCharacteristicsOp(uuids, s, _) => Outcome(None, Some(DiscoverCharacteristics(uuids, s)))
      case ReadOp(t, _) => Outcome(None, Some(ReadValue(t)))
      case WriteOp(d, t, wt, _) => Outcome(None, Some(WriteValue(d, t, wt)))
  }

  /** The first executing item named `key`, provided its result type is `kind`. */
  function CompletionTarget(items: seq<Item>, key: string, kind: PayloadKind): (r: Option<Item>)
    reads items
    ensures r.Some? ==> r.value in items && r.value.IsExecuting() && r.value.name == Some(key)
                        && r.value.execution.Some? && r.value.execution.value.Kind() == kind
    ensures NoneExecuting(items) ==> r.None?
  {
    match FirstExecutingNamed(items, key)
    case None => None
    case Some(it) => if it.execution.Some? && it.execution.value.Kind() == kind then Some(it) else None
  }
  /**
   * The converse of `CompletionTarget`'s contract: on a serial queue, a completion of the
   * right kind reaches the executing item named by its key.
   */
  lemma CompletionTargetReachesExecutingItem(items: seq<Item>, key: string, kind: PayloadKind, i: int)
    requires AtMostOneExecuting(items)
    requires 0 <= i < |items| && items[i].IsExecuting() && items[i].name == Some(key)
    requires items[i].execution.Some? && items[i].execution.value.Kind() == kind
    ensures CompletionTarget(items, key, kind) == Some(items[i])
  {
    FirstExecutingNamedFindsExecutingItem(items, key, i);
  }


  /** An invocation of one of the device's user closures. */
  datatype DeviceEvent =
    | ConnectionHandlerCalled(handler: Handler, connected: bool)
    | NotificationHandlerCalled(handler: Handler, result: Result<Bytes>)

  /** A call the device makes on its manager. */
  datatype ManagerCall = ConnectTo(device: string) | DisconnectFrom(device: string)

  function ConnectionCall(h: Option<Handler>, connected: bool): seq<DeviceEvent> {
    if h.Some? then [ConnectionHandlerCalled(h.value, connected)] else []
  }


  class Device {
    const queue: OperationQueue<Payload, GattOperation>
    /** The platform's view of the peripheral, which the platform keeps current. */
    var peripheral: CBPeripheral
    var discoveredServices: ServiceTable
    var connectionHandler: Option<Handler>
    /** Keyed by the characteristic object. */
    var notificationHandler: map<nat, Handler>
    var autoReconnect: bool
    ghost var requests: seq<PeripheralRequest>
    ghost var managerCalls: seq<ManagerCall>
    ghost var events: seq<DeviceEvent>
    ghost var Repr: set<object>

    /** The device owns its queue, and every queued item has an execution block and a callback that calls `done`. */
    ghost predicate Valid()
      reads this, Repr
    {
      && this in Repr && queue in Repr && queue.Repr <= Repr && this !in queue.Repr
      && queue.Valid()
      && forall i :: 0 <= i < |queue.items| ==>
           queue.items[i].execution.Some? && queue.items[i].callback == Some(CallbackBlock(true))
    }

    /** `init(manager:peripheral:)`. */
    constructor (peripheral: CBPeripheral)
      ensures Valid() && fresh(Repr)
      ensures this.peripheral == peripheral && queue.items == []
      ensures discoveredServices == map[] && notificationHandler == map[]
      ensures connectionHandler.None? && !autoReconnect
      ensures requests == [] && managerCalls == [] && events == []
    {
      this.peripheral := peripheral;
      var q := new OperationQueue<Payload, GattOperation>();
      queue := q;
      discoveredServices := map[];
      connectionHandler := None;
      notificationHandler := map[];
      autoReconnect := false;
      requests := [];
      managerCalls := [];
      events := [];
      Repr := {this} + q.Repr;
    }

    /** `init(copy:)`: a new device over the same peripheral, with none of the other's state. */
    constructor Copy(other: Device)
      ensures Valid() && fresh(Repr)
      ensures peripheral == other.peripheral && queue.items == []
      ensures discoveredServices == map[] && notificationHandler == map[]
      ensures connectionHandler.None? && !autoReconnect
      ensures requests == [] && managerCalls == [] && events == []
    {
      peripheral := other.peripheral;
      var q := new OperationQueue<Payload, GattOperation>();
      queue := q;
      discoveredServices := map[];
      connectionHandler := None;
      notificationHandler := map[];
      autoReconnect := false;
      requests := [];
      managerCalls := [];
      events := [];
      Repr := {this} + q.Repr;
    }

    /** `isConnected`. */
    predicate IsConnected()
      reads this
    {
      peripheral.state == PeripheralState.Connected
    }

    /** `name`: the advertised name, or empty. */
    function Name(): (r: string)
      reads this
      ensures peripheral.name.Some? ==> r == peripheral.name.value
      ensures peripheral.name.None? ==> r == ""
    {
      peripheral.name.OrElse("")
    }

    function Id(): string
      reads this
    {
      peripheral.identifier
    }

    /** `connect(with:autoReconnect:complete:)`: keep the handler and have the manager connect this device. */
    method Connect(autoReconnect: bool, complete: Option<Handler>)
      requires Valid()
      modifies this
      ensures Valid() && Repr == old(Repr)
      ensures connectionHandler == complete && this.autoReconnect == autoReconnect
      ensures managerCalls == old(managerCalls) + [ConnectTo(Id())]
      ensures unchanged(this`peripheral, this`discoveredServices, this`notificationHandler, this`requests, this`events)
    {
      connectionHandler := complete;
      this.autoReconnect := autoReconnect;
      managerCalls := managerCalls + [ConnectTo(Id())];
    }

    /** `disconnect(autoReconnect:)`. */
    method Disconnect(autoReconnect: bool)
      requires Valid()
      modifies this
      ensures Valid() && Repr == old(Repr)
      ensures this.autoReconnect == autoReconnect && connectionHandler == old(connectionHandler)
      ensures managerCalls == old(managerCalls) + [DisconnectFrom(Id())]
      ensures unchanged(this`peripheral, this`discoveredServices, this`notificationHandler, this`requests, this`events)
    {
      this.autoReconnect := autoReconnect;
      managerCalls := managerCalls + [DisconnectFrom(Id())];
    }

    /** The queue grew by one fresh, ready item with this name and operation. */
    ghost predicate PushedOnto(before: seq<Item>, name: string, op: GattOperation)
      reads this, queue, queue.items
    {
      && |queue.items| == |before| + 1 && queue.items[..|before|] == before
      && var it := queue.items[|before|];
         it.name == Some(name) && it.execution == Some(op) && it.callback == Some(CallbackBlock(true))
         && it.priority == Normal && it.Snap() == Snapshot(Ready, false, [])
    }

    method Push(name: string, op: GattOperation)
      requires Valid()
      modifies Repr
      ensures Valid() && fresh(Repr - old(Repr))
      ensures PushedOnto(old(queue.items), name, op)
      ensures forall o :: o in old(Repr) && o != this && o != queue ==> unchanged(o)
      ensures unchanged(this`peripheral, this`discoveredServices, this`notificationHandler, this`requests,
                        this`managerCalls, this`events, this`connectionHandler, this`autoReconnect)
    {
      var item := new QueueItem<Payload, GattOperation>(Some(name), Normal, Some(op), Some(CallbackBlock(true)));
      queue.PushBack(item);
      Repr := Repr + {item};
    }

    /** `discoverServices(with:complete:)`: queue an item named "discoverServices". */
    method DiscoverServices(uuids: Option<seq<string>>, complete: Option<Handler>)
      requires Valid()
      modifies Repr
      ensures Valid() && fresh(Repr - old(Repr))
      ensures PushedOnto(old(queue.items), DiscoverServicesKey, DiscoverServicesOp(uuids, complete))
      ensures forall o :: o in old(Repr) && o != this && o != queue ==> unchanged(o)
      ensures unchanged(this`peripheral, this`discoveredServices, this`notificationHandler, this`requests,
                        this`managerCalls, this`events, this`connectionHandler, this`autoReconnect)
    {
      Push(DiscoverServicesKey, DiscoverServicesOp(uuids, complete));
    }

    /** `discoverCharacteristics(with:for:complete:)`: queue an item named after the service's UUID string. */
    method DiscoverCharacteristics(uuids: Option<seq<string>>, service: CBService, complete: Option<Handler>)
      requires Valid()
      modifies Repr
      ensures Valid() && fresh(Repr - old(Repr))
      ensures PushedOnto(old(queue.items), service.uuidString, DiscoverCharacteristicsOp(uuids, service, complete))
      ensures forall o :: o in old(Repr) && o != this && o != queue ==> unchanged(o)
      ensures unchanged(this`peripheral, this`discoveredServices, this`notificationHandler, this`requests,
                        this`managerCalls, this`events, this`connectionHandler, this`autoReconnect)
    {
      Push(service.uuidString, DiscoverCharacteristicsOp(uuids, service, complete));
    }

    /** `read(from:in:complete:)`: queue a read keyed by `compositeId`, or do nothing for an unknown target. */
    method Read(characteristic: string, service: string, complete: Option<Handler>)
      requires Valid()
      modifies Repr
      ensures Valid() && fresh(Repr - old(Repr))
      ensures var t := ResolveTarget(peripheral.services, characteristic, service);
        && (t.None? ==> queue.items == old(queue.items) && Repr == old(Repr))
        && (t.Some? ==> PushedOnto(old(queue.items), CompositeId(t.value), ReadOp(t.value, complete)))
      ensures forall o :: o in old(Repr) && o != this && o != queue ==> unchanged(o)
      ensures unchanged(this`peripheral, this`discoveredServices, this`notificationHandler, this`requests,
                        this`managerCalls, this`events, this`connectionHandler, this`autoReconnect)
    {
      var t := ResolveTarget(peripheral.services, characteristic, service);
      if t.Some? {
        Push(CompositeId(t.value), ReadOp(t.value, complete));
      }
    }

    /** `write(data:to:in:type:complete:)`: queue a write keyed by `compositeId`, or do nothing for an unknown target. */
    method Write(data: Bytes, characteristic: string, service: string, writeType: WriteType, complete: Option<Handler>)
      requires Valid()
      modifies Repr
      ensures Valid() && fresh(Repr - old(Repr))
      ensures var t := ResolveTarget(peripheral.services, characteristic, service);
        && (t.None? ==> queue.items == old(queue.items) && Repr == old(Repr))
        && (t.Some? ==> PushedOnto(old(queue.items), CompositeId(t.value), WriteOp(data, t.value, writeType, complete)))
      ensures forall o :: o in old(Repr) && o != this && o != queue ==> unchanged(o)
      ensures unchanged(this`peripheral, this`discoveredServices, this`notificationHandler, this`requests,
                        this`managerCalls, this`events, this`connectionHandler, this`autoReconnect)
    {
      var t := ResolveTarget(peripheral.services, characteristic, service);
      if t.Some? {
        Push(CompositeId(t.value), WriteOp(data, t.value, writeType, complete));
      }
    }

    /** `subscribe(to:in:complete:)`: found, connected and not yet notifying, or nothing happens. */
    method Subscribe(characteristic: string, service: string, complete: Option<Handler>)
      requires Valid()
      modifies this
      ensures Valid() && Repr == old(Repr)
      ensures var t := ResolveTarget(peripheral.services, characteristic, service);
        if t.Some? && IsConnected() && !t.value.isNotifying then
          && notificationHandler == Store(old(notificationHandler), t.value.handle, complete)
          && requests == old(requests) + [SetNotifyValue(true, t.value)]
        else
          notificationHandler == old(notificationHandler) && requests == old(requests)
      ensures unchanged(this`peripheral, this`discoveredServices, this`managerCalls, this`events,
                        this`connectionHandler, this`autoReconnect)
    {
      var t := ResolveTarget(peripheral.services, characteristic, service);
      if t.None? || !IsConnected() || t.value.isNotifying {
        return;
      }
      notificationHandler := Store(notificationHandler, t.value.handle, complete);
      requests := requests + [SetNotifyValue(true, t.value)];
    }

    /** `unsubscribe(from:in:)`: found, connected and notifying, or nothing happens. */
    method Unsubscribe(characteristic: string, service: string)
      requires Valid()
      modifies this
      ensures Valid() && Repr == old(Repr)
      ensures var t := ResolveTarget(peripheral.services, characteristic, service);
        if t.Some? && IsConnected() && t.value.isNotifying then
          && notificationHandler == old(notificationHandler) - {t.value.handle}
          && requests == old(requests) + [SetNotifyValue(false, t.value)]
        else
          notificationHandler == old(notificationHandler) && requests == old(requests)
      ensures unchanged(this`peripheral, this`discoveredServices, this`managerCalls, this`events,
                        this`connectionHandler, this`autoReconnect)
    {
      var t := ResolveTarget(peripheral.services, characteristic, service);
      if t.None? || !IsConnected() || !t.value.isNotifying {
        return;
      }
      notificationHandler := notificationHandler - {t.value.handle};
      requests := requests + [SetNotifyValue(false, t.value)];
    }

    /**
     * Foundation starting an operation: if none is executing, the first ready item runs
     * `main` and its execution block is evaluated against the peripheral as it is now.
     */
    method StartNextOperation() returns (started: Option<Item>)
      requires Valid()
      modifies Repr
      ensures Valid() && Repr == old(Repr) && queue.items == old(queue.items)
      ensures started.None? <==> old(!NoneExecuting(queue.items) || FirstReady(queue.items).None?)
      ensures started.Some? ==>
        && started.value == old(queue.items[FirstReady(queue.items).value])
        && started.value.execution.Some?
        && var out := RunOperation(peripheral, started.value.execution.value);
           && started.value.Snap() == PerformSpec(old(started.value.Snap()), true, Some(CallbackBlock(true)), out.report)
           && requests == old(requests) + (if !old(started.value.cancelled) && out.request.Some? then [out.request.value] else [])
      ensures started.None? ==> requests == old(requests)
      ensures forall o :: o in Repr && o != this && o != queue && (started.None? || o != started.value) ==> unchanged(o)
      ensures unchanged(this`peripheral, this`discoveredServices, this`notificationHandler,
                        this`managerCalls, this`events, this`connectionHandler, this`autoReconnect)
    {
      var p := peripheral;
      started := queue.StartNext(op => RunOperation(p, op).report);
      if started.Some? && !started.value.cancelled {
        var out := RunOperation(p, started.value.execution.value);
        if out.request.Some? {
          requests := requests + [out.request.value];
        }
      }
    }

    /** One scheduling step of the device's queue: finished items leave it, then the next may start. */
    method RunQueue() returns (started: Option<Item>)
      requires Valid()
      modifies Repr
      ensures Valid() && Repr == old(Repr)
      ensures queue.items == old(Unfinished(queue.items))
      ensures started.None? <==>
        old(!NoneExecuting(Unfinished(queue.items)) || FirstReady(Unfinished(queue.items)).None?)
      ensures started.Some? ==>
        && started.value == old(Unfinished(queue.items)[FirstReady(Unfinished(queue.items)).value])
        && started.value.execution.Some?
        && var out := RunOperation(peripheral, started.value.execution.value);
           && started.value.Snap() == PerformSpec(old(started.value.Snap()), true, Some(CallbackBlock(true)), out.report)
           && requests == old(requests) + (if !old(started.value.cancelled) && out.request.Some? then [out.request.value] else [])
      ensures started.None? ==> requests == old(requests)
    {
      ghost var pending := Unfinished(queue.items);
      ghost var first := FirstReady(pending);
      ghost var busy := !NoneExecuting(pending);
      queue.Reap();
      assert queue.items == pending;
      assert FirstReady(queue.items) == first && !NoneExecuting(queue.items) == busy;
      started := StartNextOperation();
    }

    /** Hand `result` to the item a completion with this key and kind belongs to, if there is one. */
    method NotifyTarget(key: string, kind: PayloadKind, result: Result<Payload>)
      requires Valid()
      modifies Repr
      ensures Valid() && Repr == old(Repr) && queue.items == old(queue.items)
      ensures var t := old(CompletionTarget(queue.items, key, kind));
        && (t.Some? ==> t.value.Snap() == NotifySpec(old(t.value.Snap()), Some(CallbackBlock(true)), result))
        && forall o :: o in Repr && o != this && (t.None? || o != t.value) ==> unchanged(o)
      ensures unchanged(this)
    {
      var t := CompletionTarget(queue.items, key, kind);
      if t.Some? {
        t.value.Notify(result);
      }
    }

    /** `didConnect()`: the connection handler receives `true`. */
    method DidConnect()
      requires Valid()
      modifies this
      ensures Valid() && Repr == old(Repr)
      ensures events == old(events) + ConnectionCall(connectionHandler, true)
      ensures unchanged(this`peripheral, this`discoveredServices, this`notificationHandler, this`requests,
                        this`managerCalls, this`connectionHandler, this`autoReconnect)
    {
      events := events + ConnectionCall(connectionHandler, true);
    }

    /**
     * `didDisconnect()`: the connection handler receives `false`, and with auto-reconnect
     * on the device connects again with the same handler.  The queue is left as it is.
     */
    method DidDisconnect()
      requires Valid()
      modifies this
      ensures Valid() && Repr == old(Repr)
      ensures events == old(events) + ConnectionCall(connectionHandler, false)
      ensures managerCalls == old(managerCalls) + (if autoReconnect then [ConnectTo(Id())] else [])
      ensures connectionHandler == old(connectionHandler) && autoReconnect == old(autoReconnect)
      ensures unchanged(this`peripheral, this`discoveredServices, this`notificationHandler, this`requests)
    {
      events := events + ConnectionCall(connectionHandler, false);
      if autoReconnect {
        Connect(true, connectionHandler);
      }
    }

    /**
     * `didDiscoverServices(error:)`: clear the table and enter every peripheral service
     * with an empty list, then deliver the table's services (or the error) to the
     * executing "discoverServices" item.
     */
    method DidDiscoverServices(error: Option<Error>)
      requires Valid()
      modifies Repr
      ensures Valid() && Repr == old(Repr) && queue.items == old(queue.items) && peripheral == old(peripheral)
      ensures discoveredServices == EmptySlots(peripheral.services.OrElse([]))
      ensures var t := old(CompletionTarget(queue.items, DiscoverServicesKey, ServicesKind));
        && (t.Some? ==> t.value.Snap() == NotifySpec(old(t.value.Snap()), Some(CallbackBlock(true)),
                                                     FromCallback(error, ServiceObjects(KeyServices(discoveredServices)))))
        && forall o :: o in Repr && o != this && (t.None? || o != t.value) ==> unchanged(o)
      ensures unchanged(this`notificationHandler, this`requests, this`managerCalls, this`events,
                        this`connectionHandler, this`autoReconnect)
    {
      discoveredServices := FillEmptySlots(peripheral.services.OrElse([]));
      NotifyTarget(DiscoverServicesKey, ServicesKind, FromCallback(error, ServiceObjects(KeyServices(discoveredServices))));
    }

    /**
     * `didDiscoverCharacteristicsFor(service:error:)`: copy the service's characteristics,
     * store them only for a service already in the table, and deliver them (or the
     * error) to the executing item named after the service's UUID string.
     */
    method DidDiscoverCharacteristicsFor(service: CBService, error: Option<Error>)
      requires Valid()
      modifies Repr
      ensures Valid() && Repr == old(Repr) && queue.items == old(queue.items)
      ensures var cs := service.characteristics.OrElse([]);
        discoveredServices == Refill(old(discoveredServices), service, cs)
      ensures var t := old(CompletionTarget(queue.items, service.uuidString, CharacteristicsKind));
        && (t.Some? ==> t.value.Snap() == NotifySpec(old(t.value.Snap()), Some(CallbackBlock(true)),
              FromCallback(error, DiscoveredOnPlatform(service, service.characteristics.OrElse([])))))
        && forall o :: o in Repr && o != this && (t.None? || o != t.value) ==> unchanged(o)
      ensures unchanged(this`peripheral, this`notificationHandler, this`requests, this`managerCalls, this`events,
                        this`connectionHandler, this`autoReconnect)
    {
      if service.handle in discoveredServices {
        discoveredServices := discoveredServices[service.handle := discoveredServices[service.handle].(characteristics := [])];
      }
      var characteristics := CopyCharacteristics(service.characteristics.OrElse([]));
      if service.handle in discoveredServices {
        discoveredServices := discoveredServices[service.handle := discoveredServices[service.handle].(characteristics := characteristics)];
      }
      NotifyTarget(service.uuidString, CharacteristicsKind, FromCallback(error, DiscoveredOnPlatform(service, characteristics)));
    }

    /**
     * `didUpdateValueFor(characteristic:error:)`: deliver the value (empty when absent) or
     * the error to the executing read keyed by `compositeId`, then to the subscription handler.
     */
    method DidUpdateValueFor(c: CBCharacteristic, error: Option<Error>)
      requires Valid()
      modifies Repr
      ensures Valid() && Repr == old(Repr) && queue.items == old(queue.items)
      ensures var t := old(CompletionTarget(queue.items, CompositeId(c), DataKind));
        && (t.Some? ==> t.value.Snap() == NotifySpec(old(t.value.Snap()), Some(CallbackBlock(true)),
                                                     FromCallback(error, Data(c.value.OrElse([])))))
        && forall o :: o in Repr && o != this && (t.None? || o != t.value) ==> unchanged(o)
      ensures events == old(events) + (if c.handle in notificationHandler
        then [NotificationHandlerCalled(notificationHandler[c.handle], FromCallback(error, c.value.OrElse([])))]
        else [])
      ensures unchanged(this`peripheral, this`discoveredServices, this`notificationHandler, this`requests,
                        this`managerCalls, this`connectionHandler, this`autoReconnect)
    {
      NotifyTarget(CompositeId(c), DataKind, FromCallback(error, Data(c.value.OrElse([]))));
      if c.handle in notificationHandler {
        events := events + [NotificationHandlerCalled(notificationHandler[c.handle], FromCallback(error, c.value.OrElse([])))];
      }
    }

    /** `didWriteValueFor(characteristic:error:)`: deliver success or the error to the executing write. */
    method DidWriteValueFor(c: CBCharacteristic, error: Option<Error>)
      requires Valid()
      modifies Repr
      ensures Valid() && Repr == old(Repr) && queue.items == old(queue.items)
      ensures var t := old(CompletionTarget(queue.items, CompositeId(c), VoidKind));
        && (t.Some? ==> t.value.Snap() == NotifySpec(old(t.value.Snap()), Some(CallbackBlock(true)),
                                                     FromCallback(error, NoValue)))
        && forall o :: o in Repr && o != this && (t.None? || o != t.value) ==> unchanged(o)
      ensures unchanged(this)
    {
      NotifyTarget(CompositeId(c), VoidKind, FromCallback(error, NoValue));
    }

    /** `didUpdateNotificationStateFor(characteristic:error:)`: the subscription handler only. */
    method DidUpdateNotificationStateFor(c: CBCharacteristic, error: Option<Error>)
      requires Valid()
      modifies this
      ensures Valid() && Repr == old(Repr)
      ensures events == old(events) + (if c.handle in notificationHandler
        then [NotificationHandlerCalled(notificationHandler[c.handle], FromCallback(error, c.value.OrElse([])))]
        else [])
      ensures unchanged(this`peripheral, this`discoveredServices, this`notificationHandler, this`requests,
                        this`managerCalls, this`connectionHandler, this`autoReconnect)
    {
      if c.handle in notificationHandler {
        events := events + [NotificationHandlerCalled(notificationHandler[c.handle], FromCallback(error, c.value.OrElse([])))];
      }
    }
  }
}
