/**
 * The oldest `Device` (Sources/Models/Device.swift).  There is no queue: each kind of
 * request keeps one pending completion handler, which a new request overwrites and the
 * platform's delegate callback invokes.  Discovery fills a `[CBService: [CBCharacteristic]]`
 * table exactly as the queued revision does.  Handlers are opaque ids and their
 * invocations are recorded, like the requests the device sends to its peripheral and
 * the calls it makes on its manager.
 */
module LegacyDevice {
  import opened Optional
  import opened Results
  import opened Platform
  import opened Lookup
  import opened ServiceTables

  type Handler = nat

  /** An invocation of one of the device's user closures, with the arguments it receives. */
  datatype DeviceEvent =
    | ConnectionHandlerCalled(handler: Handler, connected: bool)
    | ServiceDiscoveryCalled(handler: Handler, services: set<CBService>, error: Option<Error>)
    | CharacteristicDiscoveryCalled(handler: Handler, service: CBService, characteristics: seq<CBCharacteristic>, error: Option<Error>)
    | ReadHandlerCalled(handler: Handler, value: Option<Bytes>, error: Option<Error>)
    | WriteHandlerCalled(handler: Handler, error: Option<Error>)

  /** A call the device makes on its manager. */
  datatype ManagerCall = ConnectTo(device: string) | DisconnectFrom(device: string)

  /** The write type `write` chooses: a write without a completion asks for no response. */
  function WriteTypeFor(complete: Option<Handler>): (t: WriteType)
    ensures t == WithoutResponse <==> complete.None?
    ensures t == WithResponse <==> complete.Some?
  {
    if complete.None? then WithoutResponse else WithResponse
  }

  // The call a handler slot makes: one event when the slot holds a handler, none when it is empty.

  function ConnectionCall(h: Option<Handler>, connected: bool): seq<DeviceEvent> {
    if h.Some? then [ConnectionHandlerCalled(h.value, connected)] else []
  }

  function ServiceDiscoveryCall(h: Option<Handler>, services: set<CBService>, error: Option<Error>): seq<DeviceEvent> {
    if h.Some? then [ServiceDiscoveryCalled(h.value, services, error)] else []
  }

  function CharacteristicDiscoveryCall(h: Option<Handler>, service: CBService, cs: seq<CBCharacteristic>, error: Option<Error>)
    : seq<DeviceEvent>
  {
    if h.Some? then [CharacteristicDiscoveryCalled(h.value, service, cs, error)] else []
  }

  function ReadCall(h: Option<Handler>, value: Option<Bytes>, error: Option<Error>): seq<DeviceEvent> {
    if h.Some? then [ReadHandlerCalled(h.value, value, error)] else []
  }

  function WriteCall(h: Option<Handler>, error: Option<Error>): seq<DeviceEvent> {
    if h.Some? then [WriteHandlerCalled(h.value, error)] else []
  }



  class Device {
    /** The platform's view of the peripheral, which the platform keeps current. */
    var peripheral: CBPeripheral
    var discoveredServices: ServiceTable
    var connectionHandler: Option<Handler>
    var serviceDiscoveryHandler: Option<Handler>
    var characteristicDiscoveryHandler: Option<Handler>
    var readHandler: Option<Handler>
    var writeHandler: Option<Handler>
    /** Keyed by the characteristic object. */
    var notificationHandler: map<nat, Handler>
    var autoReconnect: bool
    ghost var requests: seq<PeripheralRequest>
    ghost var managerCalls: seq<ManagerCall>
    ghost var events: seq<DeviceEvent>

    /** `init(manager:peripheral:)`: no handlers, an empty table, auto-reconnect off. */
    constructor (peripheral: CBPeripheral)
      ensures this.peripheral == peripheral && discoveredServices == map[]
      ensures connectionHandler.None? && serviceDiscoveryHandler.None? && characteristicDiscoveryHandler.None?
      ensures readHandler.None? && writeHandler.None? && notificationHandler == map[] && !autoReconnect
      ensures requests == [] && managerCalls == [] && events == []
    {
      this.peripheral := peripheral;
      discoveredServices := map[];
      connectionHandler := None;
      serviceDiscoveryHandler := None;
      characteristicDiscoveryHandler := None;
      readHandler := None;
      writeHandler := None;
      notificationHandler := map[];
      autoReconnect := false;
      requests := [];
      managerCalls := [];
      events := [];
    }

    /** `init(copy:)`: a new device over the same peripheral, with none of the other's state. */
    constructor Copy(other: Device)
      ensures peripheral == other.peripheral && discoveredServices == map[]
      ensures connectionHandler.None? && serviceDiscoveryHandler.None? && characteristicDiscoveryHandler.None?
      ensures readHandler.None? && writeHandler.None? && notificationHandler == map[] && !autoReconnect
      ensures requests == [] && managerCalls == [] && events == []
    {
      peripheral := other.peripheral;
      discoveredServices := map[];
      connectionHandler := None;
      serviceDiscoveryHandler := None;
      characteristicDiscoveryHandler := None;
      readHandler := None;
      writeHandler := None;
      notificationHandler := map[];
      autoReconnect := false;
      requests := [];
      managerCalls := [];
      events := [];
    }

    predicate IsConnected()
      reads this
    {
      peripheral.state == PeripheralState.Connected
    }

    /** `name`: the advertised name, or empty. */
    function Name(): (r: string)
      reads this
      ensures peripheral.name.Some? ==> r == peripheral.name.value
      ensures peripheral.name.None? ==> r == ""
    {
      peripheral.name.OrElse("")
    }

    function Id(): string
      reads this
    {
      peripheral.identifier
    }

    /** `connect(with:autoReconnect:complete:)`: keep the handler and have the manager connect this device. */
    method Connect(autoReconnect: bool, complete: Option<Handler>)
      modifies this
      ensures connectionHandler == complete && this.autoReconnect == autoReconnect
      ensures managerCalls == old(managerCalls) + [ConnectTo(Id())]
      ensures unchanged(this`peripheral, this`discoveredServices, this`serviceDiscoveryHandler,
                        this`characteristicDiscoveryHandler, this`readHandler, this`writeHandler,
                        this`notificationHandler, this`requests, this`events)
    {
      connectionHandler := complete;
      this.autoReconnect := autoReconnect;
      managerCalls := managerCalls + [ConnectTo(Id())];
    }

    /** `disconnect(autoReconnect:)`. */
    method Disconnect(autoReconnect: bool)
      modifies this
      ensures this.autoReconnect == autoReconnect
      ensures managerCalls == old(managerCalls) + [DisconnectFrom(Id())]
      ensures unchanged(this`peripheral, this`discoveredServices, this`connectionHandler, this`serviceDiscoveryHandler,
                        this`characteristicDiscoveryHandler, this`readHandler, this`writeHandler,
                        this`notificationHandler, this`requests, this`events)
    {
      this.autoReconnect := autoReconnect;
      managerCalls := managerCalls + [DisconnectFrom(Id())];
    }

    /** `discoverServices(with:complete:)`: only while connected, the handler takes the slot and the request goes out. */
    method DiscoverServices(uuids: Option<seq<string>>, complete: Option<Handler>)
      modifies this
      ensures IsConnected() ==> serviceDiscoveryHandler == complete && requests == old(requests) + [PeripheralRequest.DiscoverServices(uuids)]
      ensures !IsConnected() ==> serviceDiscoveryHandler == old(serviceDiscoveryHandler) && requests == old(requests)
      ensures unchanged(this`peripheral, this`discoveredServices, this`connectionHandler, this`characteristicDiscoveryHandler,
                        this`readHandler, this`writeHandler, this`notificationHandler, this`autoReconnect,
                        this`managerCalls, this`events)
    {
      if !IsConnected() {
        return;
      }
      serviceDiscoveryHandler := complete;
      requests := requests + [PeripheralRequest.DiscoverServices(uuids)];
    }

    /** `discoverCharacteristics(with:for:complete:)`: only while connected, like `discoverServices`. */
    method DiscoverCharacteristics(uuids: Option<seq<string>>, service: CBService, complete: Option<Handler>)
      modifies this
      ensures IsConnected() ==> characteristicDiscoveryHandler == complete
                                && requests == old(requests) + [PeripheralRequest.DiscoverCharacteristics(uuids, service)]
      ensures !IsConnected() ==> characteristicDiscoveryHandler == old(characteristicDiscoveryHandler) && requests == old(requests)
      ensures unchanged(this`peripheral, this`discoveredServices, this`connectionHandler, this`serviceDiscoveryHandler,
                        this`readHandler, this`writeHandler, this`notificationHandler, this`autoReconnect,
                        this`managerCalls, this`events)
    {
      if !IsConnected() {
        return;
      }
      characteristicDiscoveryHandler := complete;
      requests := requests + [PeripheralRequest.DiscoverCharacteristics(uuids, service)];
    }

    /** `read(from:in:complete:)`: for a known target while connected, the handler takes the read slot. */
    method Read(characteristic: string, service: string, complete: Option<Handler>)
      modifies this
      ensures var t := ResolveTarget(peripheral.services, characteristic, service);
        if t.Some? && IsConnected() then
          readHandler == complete && requests == old(requests) + [ReadValue(t.value)]
        else
          readHandler == old(readHandler) && requests == old(requests)
      ensures unchanged(this`peripheral, this`discoveredServices, this`connectionHandler, this`serviceDiscoveryHandler,
                        this`characteristicDiscoveryHandler, this`writeHandler, this`notificationHandler,
                        this`autoReconnect, this`managerCalls, this`events)
    {
      var t := ResolveTarget(peripheral.services, characteristic, service);
      if t.None? || !IsConnected() {
        return;
      }
      readHandler := complete;
      requests := requests + [ReadValue(t.value)];
    }

    /**
     * `write(data:to:in:complete:)`: for a known target while connected, the handler
     * takes the write slot and the write asks for a response only when there is a handler.
     */
    method Write(data: Bytes, characteristic: string, service: string, complete: Option<Handler>)
      modifies this
      ensures var t := ResolveTarget(peripheral.services, characteristic, service);
        if t.Some? && IsConnected() then
          writeHandler == complete && requests == old(requests) + [WriteValue(data, t.value, WriteTypeFor(complete))]
        else
          writeHandler == old(writeHandler) && requests == old(requests)
      ensures unchanged(this`peripheral, this`discoveredServices, this`connectionHandler, this`serviceDiscoveryHandler,
                        this`characteristicDiscoveryHandler, this`readHandler, this`notificationHandler,
                        this`autoReconnect, this`managerCalls, this`events)
    {
      var t := ResolveTarget(peripheral.services, characteristic, service);
      if t.None? || !IsConnected() {
        return;
      }
      writeHandler := complete;
      var writeType := WithResponse;
      if complete.None? {
        writeType := WithoutResponse;
      }
      requests := requests + [WriteValue(data, t.value, writeType)];
    }

    /** `subscribe(to:in:complete:)`: found, connected and not yet notifying, or nothing happens. */
    method Subscribe(characteristic: string, service: string, complete: Option<Handler>)
      modifies this
      ensures var t := ResolveTarget(peripheral.services, characteristic, service);
        if t.Some? && IsConnected() && !t.value.isNotifying then
          && notificationHandler == Store(old(notificationHandler), t.value.handle, complete)
          && requests == old(requests) + [SetNotifyValue(true, t.value)]
        else
          notificationHandler == old(notificationHandler) && requests == old(requests)
      ensures unchanged(this`peripheral, this`discoveredServices, this`connectionHandler, this`serviceDiscoveryHandler,
                        this`characteristicDiscoveryHandler, this`readHandler, this`writeHandler,
                        this`autoReconnect, this`managerCalls, this`events)
    {
      var t := ResolveTarget(peripheral.services, characteristic, service);
      if t.None? || !IsConnected() || t.value.isNotifying {
        return;
      }
      notificationHandler := Store(notificationHandler, t.value.handle, complete);
      requests := requests + [SetNotifyValue(true, t.value)];
    }

    /** `unsubscribe(from:in:)`: found, connected and notifying, or nothing happens. */
    method Unsubscribe(characteristic: string, service: string)
      modifies this
      ensures var t := ResolveTarget(peripheral.services, characteristic, service);
        if t.Some? && IsConnected() && t.value.isNotifying then
          && notificationHandler == old(notificationHandler) - {t.value.handle}
          && requests == old(requests) + [SetNotifyValue(false, t.value)]
        else
          notificationHandler == old(notificationHandler) && requests == old(requests)
      ensures unchanged(this`peripheral, this`discoveredServices, this`connectionHandler, this`serviceDiscoveryHandler,
                        this`characteristicDiscoveryHandler, this`readHandler, this`writeHandler,
                        this`autoReconnect, this`managerCalls, this`events)
    {
      var t := ResolveTarget(peripheral.services, characteristic, service);
      if t.None? || !IsConnected() || !t.value.isNotifying {
        return;
      }
      notificationHandler := notificationHandler - {t.value.handle};
      requests := requests + [SetNotifyValue(false, t.value)];
    }

    /** `didConnect()`: the connection handler receives `true`. */
    method DidConnect()
      modifies this
      ensures events == old(events) + ConnectionCall(connectionHandler, true)
      ensures unchanged(this`peripheral, this`discoveredServices, this`connectionHandler, this`serviceDiscoveryHandler,
                        this`characteristicDiscoveryHandler, this`readHandler, this`writeHandler,
                        this`notificationHandler, this`autoReconnect, this`requests, this`managerCalls)
    {
      events := events + ConnectionCall(connectionHandler, true);
    }

    /** `didDisconnect()`: the handler receives `false`, and with auto-reconnect the device connects again with it. */
    method DidDisconnect()
      modifies this
      ensures events == old(events) + ConnectionCall(connectionHandler, false)
      ensures managerCalls == old(managerCalls) + (if autoReconnect then [ConnectTo(Id())] else [])
      ensures connectionHandler == old(connectionHandler) && autoReconnect == old(autoReconnect)
      ensures unchanged(this`peripheral, this`discoveredServices, this`serviceDiscoveryHandler,
                        this`characteristicDiscoveryHandler, this`readHandler, this`writeHandler,
                        this`notificationHandler, this`requests)
    {
      events := events + ConnectionCall(connectionHandler, false);
      if autoReconnect {
        Connect(true, connectionHandler);
      }
    }

    /**
     * `didDiscoverServices(error:)`: rebuild the table with every peripheral service and
     * an empty list, then hand its services and the error to the discovery handler, which
     * stays in its slot.
     */
    method DidDiscoverServices(error: Option<Error>)
      modifies this
      ensures peripheral == old(peripheral)
      ensures discoveredServices == EmptySlots(peripheral.services.OrElse([]))
      ensures events == old(events) + ServiceDiscoveryCall(serviceDiscoveryHandler, KeyServices(discoveredServices), error)
      ensures unchanged(this`connectionHandler, this`serviceDiscoveryHandler, this`characteristicDiscoveryHandler,
                        this`readHandler, this`writeHandler, this`notificationHandler, this`autoReconnect,
                        this`requests, this`managerCalls)
    {
      discoveredServices := FillEmptySlots(peripheral.services.OrElse([]));
      var services := KeyServices(discoveredServices);
      events := events + ServiceDiscoveryCall(serviceDiscoveryHandler, services, error);
    }

    /**
     * `didDiscoverCharacteristicsFor(service:error:)`: store the service's characteristics
     * only for a service already in the table, and hand them and the error to the handler.
     */
    method DidDiscoverCharacteristicsFor(service: CBService, error: Option<Error>)
      modifies this
      ensures discoveredServices == Refill(old(discoveredServices), service, service.characteristics.OrElse([]))
      ensures events == old(events) + CharacteristicDiscoveryCall(characteristicDiscoveryHandler, service, service.characteristics.OrElse([]), error)
      ensures unchanged(this`peripheral, this`connectionHandler, this`serviceDiscoveryHandler, this`characteristicDiscoveryHandler,
                        this`readHandler, this`writeHandler, this`notificationHandler, this`autoReconnect,
                        this`requests, this`managerCalls)
    {
      if service.handle in discoveredServices {
        discoveredServices := discoveredServices[service.handle := discoveredServices[service.handle].(characteristics := [])];
      }
      var characteristics := CopyCharacteristics(service.characteristics.OrElse([]));
      if service.handle in discoveredServices {
        discoveredServices := discoveredServices[service.handle := discoveredServices[service.handle].(characteristics := characteristics)];
      }
      events := events + CharacteristicDiscoveryCall(characteristicDiscoveryHandler, service, characteristics, error);
    }

    /**
     * `didUpdateValueFor(characteristic:error:)`: the pending read handler receives the
     * value and the error once and its slot is emptied; then the characteristic's
     * subscription handler receives them too.
     */
    method DidUpdateValueFor(c: CBCharacteristic, error: Option<Error>)
      modifies this
      ensures readHandler.None?
      ensures events == old(events)
        + ReadCall(old(readHandler), c.value, error)
        + (if c.handle in notificationHandler then [ReadHandlerCalled(notificationHandler[c.handle], c.value, error)] else [])
      ensures unchanged(this`peripheral, this`discoveredServices, this`connectionHandler, this`serviceDiscoveryHandler,
                        this`characteristicDiscoveryHandler, this`writeHandler, this`notificationHandler,
                        this`autoReconnect, this`requests, this`managerCalls)
    {
      events := events + ReadCall(readHandler, c.value, error);
      readHandler := None;
      if c.handle in notificationHandler {
        events := events + [ReadHandlerCalled(notificationHandler[c.handle], c.value, error)];
      }
    }

    /** `didWriteValueFor(characteristic:error:)`: the pending write handler receives the error once and its slot is emptied. */
    method DidWriteValueFor(c: CBCharacteristic, error: Option<Error>)
      modifies this
      ensures writeHandler.None?
      ensures events == old(events) + WriteCall(old(writeHandler), error)
      ensures unchanged(this`peripheral, this`discoveredServices, this`connectionHandler, this`serviceDiscoveryHandler,
                        this`characteristicDiscoveryHandler, this`readHandler, this`notificationHandler,
                        this`autoReconnect, this`requests, this`managerCalls)
    {
      events := events + WriteCall(writeHandler, error);
      writeHandler := None;
    }

    /** `didUpdateNotificationStateFor(characteristic:error:)`: the subscription handler only. */
    method DidUpdateNotificationStateFor(c: CBCharacteristic, error: Option<Error>)
      modifies this
      ensures events == old(events)
        + (if c.handle in notificationHandler then [ReadHandlerCalled(notificationHandler[c.handle], c.value, error)] else [])
      ensures unchanged(this`peripheral, this`discoveredServices, this`connectionHandler, this`serviceDiscoveryHandler,
                        this`characteristicDiscoveryHandler, this`readHandler, this`writeHandler,
                        this`notificationHandler, this`autoReconnect, this`requests, this`managerCalls)
    {
      if c.handle in notificationHandler {
        events := events + [ReadHandlerCalled(notificationHandler[c.handle], c.value, error)];
      }
    }
  }

  /**
   * A read handler is called at most once: a second value update that arrives without a
   * new `read` reaches only the subscription handler.
   */
  method ReadHandlerCalledOnce(d: Device, c: CBCharacteristic, h: Handler)
    requires d.readHandler == Some(h) && c.handle !in d.notificationHandler
    modifies d
    ensures d.events == old(d.events) + [ReadHandlerCalled(h, c.value, None)]
    ensures d.readHandler.None?
  {
    d.DidUpdateValueFor(c, None);
    d.DidUpdateValueFor(c, None);
  }
}
