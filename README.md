# SwiftyTeeth in Dafny

SwiftyTeeth is a Swift wrapper around CoreBluetooth's central role. A `SwiftyTeeth`
manager scans for peripherals. It keeps the devices it has been asked to connect in an
id-to-device table, and it routes every platform callback to the device registered
under the peripheral's identifier. Each `Device` wraps GATT requests (discover
services, discover characteristics, read, write) in named `QueueItem` operations on a
serial `OperationQueue`. When the platform answers, the device hands the answer to the
one executing item whose name equals the answer's correlation key.

This project models that core, revision by revision:

- **Values and helpers.**
  - `Optional` models Swift's `T?` and optional dictionary assignment.
  - `Results` models the library's `Result` enum and the conversion of a platform callback's `(value, error)` into it.
  - `Common` models `Property`, `Characteristic` and `Service`.
  - `Deques` models the `Deque` struct of the peripheral role, as a class over a sequence.
  - `Platform` holds the records standing for CoreBluetooth objects and the requests sent to them.
  - `Lookup` and `LegacyLookup` model the case-insensitive `equals`/`find` helpers and both versions of `compositeId`.
  - `ServiceTables` models the `[CBService: [CBCharacteristic]]` table of the two older devices.
- **Queue items.**
  - `QueueItems` models the current `QueueItem<T>` state machine as a class. Each method is proved against a transition function. On top of that sits a proof that on a serial queue an item's execution block and callback each run at most once.
  - `LegacyQueueItems` models the older `QueueItem`.
  - `OperationQueues` models the serial queue: push, cancel all, drop finished items, and start the first ready item when none is executing.
- **Devices and managers.**
  - `Central` covers the current `Device` and `SwiftyTeeth`. They share one module because each calls the other.
  - `QueuedDevice` covers the intermediate queue-based `Device`.
  - `LegacyDevice` covers the oldest `Device`, which has one handler slot per request kind and no queue.
  - `LegacyCentral` covers the oldest `SwiftyTeeth`.

**How the platform is represented.**
- CoreBluetooth objects are records. Object identity, which Swift compares by reference, is an explicit `handle`.
- The peripheral a device wraps is a field that the platform keeps current.
- Requests to the platform go into ghost logs.
- User closures are opaque handler ids. Each invocation of one is a ghost event, recorded with its arguments.
- A queue item's execution closure is an operation descriptor. The device evaluates it when the queue starts the item (`RunOperation`).
- A queue item's callback is reduced to whether it calls its `done` continuation. Every device-built callback does.

**Completions of cancelled operations.** A caller of `read`, `write` or a discovery might
expect its completion to fire exactly once, with a failure when the operation is cancelled.
The code does not do that, and the model follows the code:
- `cancel()` (Sources/SwiftyTeeth/QueueItem.swift:84-87) finishes an item without calling its callback, so a cancelled operation's completion never fires.
- `QueueItems.AtMostOnceOnSerialQueue` proves "at most once" and no more.
- `Central.Device.DidDisconnect` shows that the completions of cancelled items are not called.

## Model

| member | source | states |
|---|---|---|
| Optional.Store | Sources/SwiftyTeeth/Device.swift:238-258 | dictionary assignment and removal: Some stores the value, nil removes the key, every other key keeps its entry |
| Results.Result.Value | Sources/Enums/Result.swift:24-31 | the payload exactly for `.success`, nil for `.failure` |
| Results.Result.ErrorValue | Sources/Enums/Result.swift:33-40 | nil for `.success`, the carried error exactly for `.failure` |
| Results.FromValue | Sources/Enums/Result.swift:14-16 | `init(value:)` builds `.success` carrying the value |
| Results.FromError | Sources/Enums/Result.swift:18-20 | `init(error:)` builds `.failure` carrying the error |
| Results.FromCallback | Sources/SwiftyTeeth/Device.swift:336-339 | a callback's result is a failure iff the callback carries an error; the failure carries that error, the success carries the value |
| Results.ExactlyOneOfValueAndError | Sources/Enums/Result.swift:24-53 | exactly one of `value`/`error` is non-nil; `isSuccess` holds exactly for `.success`; `isFailure == !isSuccess` |
| Results.ConstructorsRoundTrip | Sources/Enums/Result.swift:14-40 | `Result(value: v).value == v` and `Result(error: e).error == e`, with the other accessor nil |
| Common.MakeCharacteristic | Sources/Common/Characteristic.swift:42-45 | `Characteristic.init` keeps the uuid and the properties verbatim, order and duplicates included |
| Common.ReadabilityByCase | Sources/Common/Characteristic.swift:23-34 | `.read`/`.notify` are readable, `.write`/`.writeNoResponse` are not, and every property is exactly one of readable and writeable |
| Common.ReadabilityIgnoresHandler | Sources/Common/Characteristic.swift:23-30 | readability depends on the case tag only, never on the attached handler |
| Deques.Deque.constructor | Sources/SwiftyTooth/Deque.swift:11-12 | a new deque is empty |
| Deques.Deque.IsEmpty | Sources/SwiftyTooth/Deque.swift:14-20 | `isEmpty` holds iff `count == 0` |
| Deques.Deque.PeekFront | Sources/SwiftyTooth/Deque.swift:46-48 | the first element, nil exactly when empty; reads only |
| Deques.Deque.PeekBack | Sources/SwiftyTooth/Deque.swift:50-52 | the last element, nil exactly when empty; reads only |
| Deques.Deque.Enqueue | Sources/SwiftyTooth/Deque.swift:22-24 | appends: count grows by one, the element is the new back, earlier elements unchanged |
| Deques.Deque.EnqueueFront | Sources/SwiftyTooth/Deque.swift:26-28 | prepends: count grows by one, the element is the new front, old contents follow in order |
| Deques.Deque.Dequeue | Sources/SwiftyTooth/Deque.swift:30-36 | nil and no change when empty; otherwise the old first element, leaving exactly the tail |
| Deques.Deque.DequeueBack | Sources/SwiftyTooth/Deque.swift:38-44 | nil and no change when empty; otherwise the old last element, leaving exactly the prefix |
| Deques.PushBackThenTake | Sources/SwiftyTooth/Deque.swift:1-3 | an element pushed back to the front is the next one taken, and taking it restores the previous contents |
| Deques.EnqueueAllThenDrain | Sources/SwiftyTooth/Deque.swift:22-36 | FIFO: enqueueing `xs` onto an empty deque and dequeueing as many times yields `xs` in order and ends empty |
| Platform.Lowercased | Sources/SwiftyTeeth/Extensions/CBService+String.swift:13 | `lowercased()` keeps the length and folds each letter |
| Platform.Uppercased | Sources/SwiftyTeeth/Extensions/CBService+String.swift:13 | the opposite case folding, used to state case-insensitivity |
| Platform.LowercasedAbsorbs | Sources/SwiftyTeeth/Extensions/CBService+String.swift:13 | lowercasing is idempotent and erases an earlier upper-casing |
| Platform.ParseUuid | Sources/SwiftyTeeth/Device.swift:332 | the partial `UUID(cbuuid:)` conversion succeeds exactly on the 8-4-4-4-12 hex form and keeps the string up to case |
| Lookup.FindCharacteristic | Sources/SwiftyTeeth/Extensions/CBCharacterisic+String.swift:20-29 | nil iff no characteristic `equals` the string; otherwise a member that matches, with no earlier match |
| Lookup.FindService | Sources/SwiftyTeeth/Extensions/CBService+String.swift:12-21 | nil iff no service `equals` the string; otherwise a member that matches, with no earlier match |
| Lookup.ResolveTarget | Sources/SwiftyTeeth/Models/Device.swift:154-157 | the target exists iff the service is found on the peripheral and the characteristic in that service, and it is a matching member of that service |
| Lookup.CompositeIdIsNeverConcatenation | Sources/SwiftyTeeth/Extensions/CBCharacterisic+String.swift:12-18 | `compositeId` as written is the service's UUID string when the back-reference is set, otherwise the characteristic's own |
| Lookup.SameServiceSameCompositeId | Sources/SwiftyTeeth/Extensions/CBCharacterisic+String.swift:15-17 | two characteristics of the same service get the same `compositeId` |
| Lookup.CharacteristicEqualsIgnoresCase | Sources/SwiftyTeeth/Extensions/CBCharacterisic+String.swift:20-22 | `equals` ignores the argument's letter case, and a characteristic equals its own UUID string |
| Lookup.ServiceEqualsIgnoresCase | Sources/SwiftyTeeth/Extensions/CBService+String.swift:12-14 | a service equals its own UUID string in any letter case |
| Lookup.CompositeIdCollidesWithinService | Sources/SwiftyTeeth/Extensions/CBCharacterisic+String.swift:17 | two different characteristics of one service share a key as written |
| Lookup.IntendedCompositeIdSeparatesCharacteristics | Sources/Extensions/CBCharacterisic+String.swift:12-14 | the concatenated key separates the characteristics of one service and keeps the service as prefix and the characteristic as suffix |
| LegacyLookup.CompositeId | Sources/Extensions/CBCharacterisic+String.swift:12-14 | the older key is the concatenation: its length is the sum, the service UUID string is its prefix and the characteristic's its suffix |
| LegacyLookup.CompositeIdSeparatesCharacteristics | Sources/Extensions/CBCharacterisic+String.swift:12-14 | within one service the older keys are equal iff the characteristic UUID strings are |
| LegacyLookup.AgreesWithIntendedKey | Sources/Extensions/CBCharacterisic+String.swift:12-14 | the older key is the key the current `compositeId` was meant to compute |
| QueueItems.QueueItem.constructor | Sources/SwiftyTeeth/QueueItem.swift:59-73 | a new item is ready, not cancelled, neither executing nor finished, with the given name, priority and blocks |
| QueueItems.QueueItem.Done | Sources/SwiftyTeeth/QueueItem.swift:90-92 | `done()` finishes the item and changes nothing else |
| QueueItems.QueueItem.Cancel | Sources/SwiftyTeeth/QueueItem.swift:84-87 | `cancel()` sets the flag and finishes the item, from any state, without running the callback |
| QueueItems.QueueItem.Notify | Sources/SwiftyTeeth/QueueItem.swift:115-124 | the callback receives the result; the item finishes only through `done`, directly when there is no callback |
| QueueItems.QueueItem.Execute | Sources/SwiftyTeeth/QueueItem.swift:98-113 | no execution block: finish; otherwise run it, and a reported failure is notified while a reported success is ignored |
| QueueItems.QueueItem.Perform | Sources/SwiftyTeeth/QueueItem.swift:75-82 | a cancelled item finishes without executing; any other becomes executing and executes |
| QueueItems.CancelledPerformSkipsExecution | Sources/SwiftyTeeth/QueueItem.swift:75-79 | `main` on a cancelled item finishes it and runs neither block |
| QueueItems.PerformRunsExecution | Sources/SwiftyTeeth/QueueItem.swift:80-81 | `main` on a live item runs the execution block once and then stays executing unless a failure was reported and `done` was called |
| QueueItems.NoExecutionFinishes | Sources/SwiftyTeeth/QueueItem.swift:110-112 | without an execution block an item finishes as soon as it executes |
| QueueItems.NotifyFinishesOnlyThroughDone | Sources/SwiftyTeeth/QueueItem.swift:115-124 | after `notify` the item is finished iff there is no callback or the callback calls `done`; the callback runs once per notify |
| QueueItems.CancelFinishesSilently | Sources/SwiftyTeeth/QueueItem.swift:84-87 | `cancel` always leaves the item finished and cancelled, and invokes no block |
| QueueItems.FinishedIsAbsorbing | Sources/SwiftyTeeth/QueueItem.swift:35-36 | finished is absorbing under `done`, `cancel` and `notify`, and `done` is idempotent |
| QueueItems.CountsOfAppend | Sources/SwiftyTeeth/QueueItem.swift:98-124 | the execution and callback counters of a trace grow by one exactly with an event of their own kind |
| QueueItems.ApplyKeepsInvariant | Sources/SwiftyTeeth/QueueItem.swift:75-124 | every queue step (start, platform completion, cancel) keeps the life invariant of an item whose callback calls `done` |
| QueueItems.AtMostOnceOnSerialQueue | Sources/SwiftyTeeth/QueueItem.swift:75-124 | in any interleaving of steps, the execution block and the callback each run at most once, and an item whose callback has run is finished |
| QueueItems.FreshItemStartsLife | Sources/SwiftyTeeth/QueueItem.swift:38 | a new item satisfies the invariant the serial-queue lemma starts from |
| LegacyQueueItems.LegacyQueueItem.constructor | Sources/Models/QueueItem.swift:40-49 | a new item is ready; timeout, failure handler, priority and completion are stored as given |
| LegacyQueueItems.LegacyQueueItem.Finish | Sources/Models/QueueItem.swift:60-62 | `finish()` is idempotent and leaves the item finished |
| LegacyQueueItems.LegacyQueueItem.Cancel | Sources/Models/QueueItem.swift:20 | the inherited `cancel()` only raises the flag |
| LegacyQueueItems.LegacyQueueItem.Execute | Sources/Models/QueueItem.swift:68-70 | the default `execute()` finishes the item |
| LegacyQueueItems.LegacyQueueItem.Perform | Sources/Models/QueueItem.swift:51-58 | a cancelled item finishes without executing; any other executes exactly once and so finishes; the item is never executing |
| OperationQueues.FirstReady | Sources/SwiftyTeeth/Device.swift:46-50 | the position of the first ready item, nil iff no item is ready |
| OperationQueues.FirstExecutingNamed | Sources/SwiftyTeeth/Device.swift:345-347 | the first executing item with that name: nil iff no item matches, otherwise an executing item with that name and no matching item before it |
| OperationQueues.FirstExecutingNamedFindsExecutingItem | Sources/SwiftyTeeth/Device.swift:345-347 | on a serial queue (at most one item executing), the lookup returns the executing item whenever it carries the name |
| OperationQueues.Unfinished | Sources/SwiftyTeeth/Extensions/OperationQueue+SwiftyQueue.swift:12-14 | `items` holds exactly the unfinished items: each of them is unfinished, and every unfinished item is kept |
| OperationQueues.UnfinishedKeepsDistinct | Sources/SwiftyTeeth/Extensions/OperationQueue+SwiftyQueue.swift:12-14 | dropping finished items keeps the items distinct |
| OperationQueues.OperationQueue.constructor | Sources/SwiftyTeeth/Device.swift:46-50 | a new serial queue is empty |
| OperationQueues.OperationQueue.PushBack | Sources/SwiftyTeeth/Extensions/OperationQueue+SwiftyQueue.swift:16-23 | `pushBack` appends one ready item not yet queued, at the back, and its footprint grows by that item |
| OperationQueues.OperationQueue.CancelAll | Sources/SwiftyTeeth/Extensions/OperationQueue+SwiftyQueue.swift:25-31 | `cancelAll` applies `cancel` to every queued item and touches nothing else |
| OperationQueues.OperationQueue.Reap | Sources/SwiftyTeeth/Extensions/OperationQueue+SwiftyQueue.swift:12-14 | the queue becomes exactly its unfinished items |
| OperationQueues.OperationQueue.StartNext | Sources/SwiftyTeeth/Device.swift:46-50 | with none executing, `main` runs on the first ready item; otherwise nothing happens |
| ServiceTables.EmptySlots | Sources/SwiftyTeeth/Models/Device.swift:305-308 | every peripheral service has an entry; every entry is a listed service under its own key with an empty list; the last duplicate wins |
| ServiceTables.KeyServices | Sources/SwiftyTeeth/Models/Device.swift:310 | `Array(discoveredServices.keys)`: exactly the services the table holds |
| ServiceTables.Refill | Sources/SwiftyTeeth/Models/Device.swift:333 | `table[service]? = list`: only an existing entry is replaced, and no entry is added |
| ServiceTables.EmptySlotsKeys | Sources/SwiftyTeeth/Models/Device.swift:302-310 | every service a rebuilt table reports is one of the peripheral's services, and every peripheral service is reported under its handle |
| ServiceTables.RefillKeepsOthers | Sources/SwiftyTeeth/Models/Device.swift:324-333 | refilling one service leaves the other entries and the set of services unchanged |
| ServiceTables.FillEmptySlots | Sources/SwiftyTeeth/Models/Device.swift:305-308 | the `forEach` loop builds exactly `EmptySlots` of the services |
| ServiceTables.CopyCharacteristics | Sources/SwiftyTeeth/Models/Device.swift:327-331 | the `forEach`/`append` loop collects exactly the service's characteristics, in order |
| Central.BluetoothStateFromRaw | Sources/SwiftyTeeth/Models/BluetoothState.swift:9-16 | `BluetoothState(rawValue:)` is defined exactly for 0 to 5 |
| Central.ConnectionStateOf | Sources/SwiftyTeeth/Device.swift:65-78 | connected, connecting and disconnecting exactly for their platform namesakes; disconnected exactly for a disconnected or an unknown platform state |
| Central.RunOperation | Sources/SwiftyTeeth/Device.swift:124-218 | not connected: fail with `.disconnected` and send nothing; a characteristic discovery for a service missing from the peripheral fails the same way; otherwise the operation's one request |
| Central.CompletionTarget | Sources/SwiftyTeeth/Device.swift:345-348 | only an executing item with that name whose result type matches receives a completion, and none when nothing executes |
| Central.CompletionTargetReachesExecutingItem | Sources/SwiftyTeeth/Device.swift:345-348 | on a serial queue, a completion whose kind matches reaches the executing item named by its key |
| Central.ServicesFrom | Sources/SwiftyTeeth/Device.swift:329-334 | the peripheral's services whose UUID converts, each with no characteristics |
| Central.CharacteristicsFrom | Sources/SwiftyTeeth/Device.swift:361-365 | the service's characteristics whose UUID converts, with no properties |
| Central.ServicesFromSound | Sources/SwiftyTeeth/Device.swift:329-334 | every converted service comes from a platform service whose UUID converts to it |
| Central.CharacteristicsFromSound | Sources/SwiftyTeeth/Device.swift:361-365 | every converted characteristic comes from a platform characteristic whose UUID converts to it |
| Central.ServiceTable | Sources/SwiftyTeeth/Device.swift:335 | `Dictionary(uniqueKeysWithValues:)`: each service under its own UUID |
| Central.ServiceTableValues | Sources/SwiftyTeeth/Device.swift:335-338 | the table's values are exactly the services it was built from |
| Central.Device.constructor | Sources/SwiftyTeeth/Device.swift:52-56 | a new device over the manager and peripheral, with an empty queue, tables and handlers |
| Central.Device.Copy | Sources/SwiftyTeeth/Device.swift:58-60 | the copy shares manager and peripheral and nothing else |
| Central.Device.Name | Sources/SwiftyTeeth/Device.swift:84-86 | the advertised name, or empty |
| Central.Device.SetConnectionStateChangedHandler | Sources/SwiftyTeeth/Device.swift:33-38 | the new handler is called at once with the current connection state |
| Central.Device.Connect | Sources/SwiftyTeeth/Device.swift:101-108 | reports `connecting`, stores the completion and the flag, and the manager registers the device and asks the platform to connect |
| Central.Device.Disconnect | Sources/SwiftyTeeth/Device.swift:110-116 | reports `disconnecting`, stores the flag, and the manager registers the device and cancels the link |
| Central.Device.Push | Sources/SwiftyTeeth/Device.swift:142 | one fresh ready item with the given name, operation and a `done`-calling callback joins the queue |
| Central.Device.DiscoverServices | Sources/SwiftyTeeth/Device.swift:124-144 | pushes exactly one item, named "discoverServices" |
| Central.Device.DiscoverCharacteristics | Sources/SwiftyTeeth/Device.swift:146-172 | pushes exactly one item, named after the service's UUID |
| Central.Device.Read | Sources/SwiftyTeeth/Device.swift:174-196 | an unknown target changes nothing; otherwise one read item named by the target's `compositeId` |
| Central.Device.Write | Sources/SwiftyTeeth/Device.swift:198-219 | an unknown target changes nothing; otherwise one write item named by the target's `compositeId` |
| Central.Device.Subscribe | Sources/SwiftyTeeth/Device.swift:221-241 | registers the handler and enables notify exactly when the target is found, connected and not notifying |
| Central.Device.Unsubscribe | Sources/SwiftyTeeth/Device.swift:243-260 | removes the handler and disables notify exactly when the target is found, connected and notifying |
| Central.Device.StartNextOperation | Sources/SwiftyTeeth/Device.swift:125-140 | the started item runs `main` on what its execution block reports now, and its request goes out unless it was cancelled |
| Central.Device.RunQueue | Sources/SwiftyTeeth/Device.swift:46-50 | finished items leave the queue, then the first ready item starts when none executes |
| Central.Device.NotifyTarget | Sources/SwiftyTeeth/Device.swift:345-348 | only the completion target is notified, and nothing else changes |
| Central.Device.DidConnect | Sources/SwiftyTeeth/Device.swift:288-292 | the completion and then the state handler receive `connected` |
| Central.Device.DidDisconnect | Sources/SwiftyTeeth/Device.swift:294-303 | every queued item is cancelled first, then both handlers receive `disconnected`, then the device reconnects with the same completion iff auto-reconnect |
| Central.Device.DidDiscoverServices | Sources/SwiftyTeeth/Device.swift:327-349 | the table is replaced wholesale, even on error, and the "discoverServices" target gets a failure iff there is an error, else all services |
| Central.Device.DidDiscoverCharacteristicsFor | Sources/SwiftyTeeth/Device.swift:354-380 | an unconvertible service UUID changes nothing; otherwise only that service's entry is written (inserted if absent) and its target is notified |
| Central.Device.DidUpdateValueFor | Sources/SwiftyTeeth/Device.swift:382-395 | the read target gets the value (empty when absent) or the error, then the subscription handler does |
| Central.Device.DidWriteValueFor | Sources/SwiftyTeeth/Device.swift:397-409 | the write target gets success or the error |
| Central.Device.DidUpdateNotificationStateFor | Sources/SwiftyTeeth/Device.swift:412-419 | only the subscription handler is called |
| Central.SwiftyTeeth.constructor | Sources/SwiftyTeeth/SwiftyTeeth.swift:36-48 | a new manager has nothing scanned, nothing registered and no handlers |
| Central.SwiftyTeeth.State | Sources/SwiftyTeeth/SwiftyTeeth.swift:31-33 | the platform state's counterpart, `.unknown` when there is none |
| Central.SwiftyTeeth.SetStateChangedHandler | Sources/SwiftyTeeth/SwiftyTeeth.swift:18-22 | the new handler is called at once with the current state |
| Central.SwiftyTeeth.Scan | Sources/SwiftyTeeth/SwiftyTeeth.swift:73-76 | empties the scanned set, then starts a scan that allows duplicates |
| Central.SwiftyTeeth.ScanWithChanges | Sources/SwiftyTeeth/SwiftyTeeth.swift:78-81 | installs the changes handler, then scans |
| Central.SwiftyTeeth.ScanFor | Sources/SwiftyTeeth/SwiftyTeeth.swift:83-91 | installs both handlers, then scans |
| Central.SwiftyTeeth.StopScan | Sources/SwiftyTeeth/SwiftyTeeth.swift:93-101 | stops, hands the scanned devices to the completion, then clears both handlers, so a second stop calls nothing |
| Central.SwiftyTeeth.ConnectTo | Sources/SwiftyTeeth/SwiftyTeeth.swift:109-116 | registers the device under its id, overwriting, then asks to connect |
| Central.SwiftyTeeth.DisconnectFrom | Sources/SwiftyTeeth/SwiftyTeeth.swift:119-126 | registers the device under its id, overwriting, then cancels the link |
| Central.SwiftyTeeth.CentralManagerDidUpdateState | Sources/SwiftyTeeth/SwiftyTeeth.swift:133-157 | the state handler receives the new state when it has a counterpart, and a powered-on central issues the retrieval of known peripherals |
| Central.SwiftyTeeth.DidDiscover | Sources/SwiftyTeeth/SwiftyTeeth.swift:159-167 | a nameless peripheral is ignored; otherwise a new device joins the set unless its id is there, and the changes handler sees every advertisement |
| Central.SwiftyTeeth.DidConnect | Sources/SwiftyTeeth/SwiftyTeeth.swift:169-172 | only the device registered under the id receives `didConnect` |
| Central.SwiftyTeeth.DidFailToConnect | Sources/SwiftyTeeth/SwiftyTeeth.swift:174-177 | handled as a disconnection of the registered device: its queue is cancelled and it reconnects iff auto-reconnect, which re-registers it under its id; no registered device is removed and the scan side is unchanged; an unregistered id changes nothing |
| Central.SwiftyTeeth.DidDisconnectPeripheral | Sources/SwiftyTeeth/SwiftyTeeth.swift:179-182 | the registered device's queue is cancelled and it reconnects iff auto-reconnect, which re-registers it under its id; no registered device is removed and the scan side is unchanged; an unregistered id changes nothing |
| Central.SwiftyTeeth.DidDiscoverServices | Sources/SwiftyTeeth/SwiftyTeeth.swift:208-210 | forwarded only to the device registered under the id |
| Central.SwiftyTeeth.DidDiscoverCharacteristicsFor | Sources/SwiftyTeeth/SwiftyTeeth.swift:216-218 | forwarded only to the device registered under the id |
| Central.SwiftyTeeth.DidUpdateValueFor | Sources/SwiftyTeeth/SwiftyTeeth.swift:220-222 | forwarded only to the device registered under the id |
| Central.SwiftyTeeth.DidWriteValueFor | Sources/SwiftyTeeth/SwiftyTeeth.swift:224-226 | forwarded only to the device registered under the id |
| Central.SwiftyTeeth.DidUpdateNotificationStateFor | Sources/SwiftyTeeth/SwiftyTeeth.swift:228-230 | forwarded only to the device registered under the id |
| QueuedDevice.RunOperation | Sources/SwiftyTeeth/Models/Device.swift:111-197 | not connected: fail with `.disconnected` and send nothing; otherwise the operation's one request, with no lookup |
| QueuedDevice.CompletionTarget | Sources/SwiftyTeeth/Models/Device.swift:315-318 | only an executing item with that name whose result type matches receives a completion |
| QueuedDevice.CompletionTargetReachesExecutingItem | Sources/SwiftyTeeth/Models/Device.swift:315-318 | on a serial queue, a completion whose kind matches reaches the executing item named by its key |
| QueuedDevice.Device.constructor | Sources/SwiftyTeeth/Models/Device.swift:51-55 | a new device with an empty queue, tables and handlers |
| QueuedDevice.Device.Copy | Sources/SwiftyTeeth/Models/Device.swift:57-59 | the copy shares the peripheral and nothing else |
| QueuedDevice.Device.Name | Sources/SwiftyTeeth/Models/Device.swift:68-70 | the advertised name, or empty |
| QueuedDevice.Device.Connect | Sources/SwiftyTeeth/Models/Device.swift:90-96 | stores the completion and the flag, and asks the manager to connect this device |
| QueuedDevice.Device.Disconnect | Sources/SwiftyTeeth/Models/Device.swift:98-103 | stores the flag and asks the manager to disconnect this device |
| QueuedDevice.Device.Push | Sources/SwiftyTeeth/Models/Device.swift:128 | one fresh ready item with the given name and operation joins the queue |
| QueuedDevice.Device.DiscoverServices | Sources/SwiftyTeeth/Models/Device.swift:111-129 | pushes exactly one item, named "discoverServices" |
| QueuedDevice.Device.DiscoverCharacteristics | Sources/SwiftyTeeth/Models/Device.swift:133-151 | pushes exactly one item, named after the service's UUID string |
| QueuedDevice.Device.Read | Sources/SwiftyTeeth/Models/Device.swift:153-175 | an unknown target changes nothing; otherwise one read item named by `compositeId` |
| QueuedDevice.Device.Write | Sources/SwiftyTeeth/Models/Device.swift:177-197 | an unknown target changes nothing; otherwise one write item named by `compositeId` |
| QueuedDevice.Device.Subscribe | Sources/SwiftyTeeth/Models/Device.swift:200-219 | registers and enables notify exactly when found, connected and not notifying |
| QueuedDevice.Device.Unsubscribe | Sources/SwiftyTeeth/Models/Device.swift:222-239 | removes and disables notify exactly when found, connected and notifying |
| QueuedDevice.Device.StartNextOperation | Sources/SwiftyTeeth/Models/Device.swift:111-128 | the started item runs `main` on what its execution block reports now, and its request goes out unless it was cancelled |
| QueuedDevice.Device.RunQueue | Sources/SwiftyTeeth/Models/Device.swift:44-48 | finished items leave the queue, then the first ready item starts when none executes |
| QueuedDevice.Device.NotifyTarget | Sources/SwiftyTeeth/Models/Device.swift:315-318 | only the completion target is notified |
| QueuedDevice.Device.DidConnect | Sources/SwiftyTeeth/Models/Device.swift:267-270 | the connection handler receives `true` |
| QueuedDevice.Device.DidDisconnect | Sources/SwiftyTeeth/Models/Device.swift:272-278 | the handler receives `false`, then the device reconnects with it iff auto-reconnect; the queue is not cancelled |
| QueuedDevice.Device.DidDiscoverServices | Sources/SwiftyTeeth/Models/Device.swift:302-319 | the table is rebuilt with empty lists, and the target gets a failure iff there is an error, else the table's services |
| QueuedDevice.Device.DidDiscoverCharacteristicsFor | Sources/SwiftyTeeth/Models/Device.swift:324-343 | only an entry already present gets the list, and the target gets the service and its characteristics or the error |
| QueuedDevice.Device.DidUpdateValueFor | Sources/SwiftyTeeth/Models/Device.swift:345-358 | the read target gets the value (empty when absent) or the error, then the subscription handler does |
| QueuedDevice.Device.DidWriteValueFor | Sources/SwiftyTeeth/Models/Device.swift:360-372 | the write target gets success or the error |
| QueuedDevice.Device.DidUpdateNotificationStateFor | Sources/SwiftyTeeth/Models/Device.swift:375-382 | only the subscription handler is called |
| LegacyDevice.WriteTypeFor | Sources/Models/Device.swift:146-151 | `.withoutResponse` exactly when there is no completion |
| LegacyDevice.Device.constructor | Sources/Models/Device.swift:63-67 | no handlers, an empty table, auto-reconnect off |
| LegacyDevice.Device.Copy | Sources/Models/Device.swift:69-71 | the copy shares the peripheral and nothing else |
| LegacyDevice.Device.Name | Sources/Models/Device.swift:29-31 | the advertised name, or empty |
| LegacyDevice.Device.Connect | Sources/Models/Device.swift:78-83 | stores the completion and the flag, and asks the manager to connect |
| LegacyDevice.Device.Disconnect | Sources/Models/Device.swift:85-89 | stores the flag and asks the manager to disconnect |
| LegacyDevice.Device.DiscoverServices | Sources/Models/Device.swift:96-105 | while disconnected nothing happens; otherwise the handler takes its slot, overwriting, and the request goes out |
| LegacyDevice.Device.DiscoverCharacteristics | Sources/Models/Device.swift:109-118 | while disconnected nothing happens; otherwise the handler takes its slot, overwriting, and the request goes out |
| LegacyDevice.Device.Read | Sources/Models/Device.swift:120-133 | an unknown target or a disconnected device changes nothing; otherwise the read slot is overwritten and the read goes out |
| LegacyDevice.Device.Write | Sources/Models/Device.swift:135-152 | an unknown target or a disconnected device changes nothing; otherwise the write slot is overwritten and the write asks for a response iff there is a completion |
| LegacyDevice.Device.Subscribe | Sources/Models/Device.swift:155-173 | registers and enables notify exactly when found, connected and not notifying |
| LegacyDevice.Device.Unsubscribe | Sources/Models/Device.swift:176-193 | removes and disables notify exactly when found, connected and notifying |
| LegacyDevice.Device.DidConnect | Sources/Models/Device.swift:221-223 | the connection handler receives `true` |
| LegacyDevice.Device.DidDisconnect | Sources/Models/Device.swift:225-230 | the handler receives `false`, then the device reconnects with it iff auto-reconnect |
| LegacyDevice.Device.DidDiscoverServices | Sources/Models/Device.swift:254-263 | the table is rebuilt with empty lists and its services and the error go to the discovery handler |
| LegacyDevice.Device.DidDiscoverCharacteristicsFor | Sources/Models/Device.swift:268-279 | only an entry already present gets the list; the handler gets the service, its characteristics and the error |
| LegacyDevice.Device.DidUpdateValueFor | Sources/Models/Device.swift:281-286 | the pending read handler is called once and its slot is emptied, then the subscription handler is called |
| LegacyDevice.Device.DidWriteValueFor | Sources/Models/Device.swift:288-292 | the pending write handler is called once and its slot is emptied |
| LegacyDevice.Device.DidUpdateNotificationStateFor | Sources/Models/Device.swift:295-298 | only the subscription handler is called |
| LegacyDevice.ReadHandlerCalledOnce | Sources/Models/Device.swift:281-286 | two value updates after one read reach the read handler once |
| LegacyCentral.Insert | Sources/SwiftyTeeth.swift:124 | `Set.insert`: the peripheral is present afterwards; one already present by identity stays as it was; nothing else changes |
| LegacyCentral.InsertIdempotent | Sources/SwiftyTeeth.swift:124 | discovering the same peripheral twice is the same as once |
| LegacyCentral.InsertCommutes | Sources/SwiftyTeeth.swift:124 | the order of discoveries of different peripherals does not matter |
| LegacyCentral.SwiftyTeeth.constructor | Sources/SwiftyTeeth.swift:39-45 | no central manager yet, nothing scanned, no device |
| LegacyCentral.SwiftyTeeth.UseCentral | Sources/SwiftyTeeth.swift:19-26 | the first use creates the central manager and sends the throwaway retrieval; later uses send nothing |
| LegacyCentral.SwiftyTeeth.IsScanning | Sources/SwiftyTeeth.swift:34-36 | the platform's scanning flag, creating the central manager if needed |
| LegacyCentral.SwiftyTeeth.Scan | Sources/SwiftyTeeth.swift:51-54 | empties the scanned set, then starts a scan that allows duplicates |
| LegacyCentral.SwiftyTeeth.ScanWithChanges | Sources/SwiftyTeeth.swift:56-59 | installs the changes handler, then scans |
| LegacyCentral.SwiftyTeeth.ScanFor | Sources/SwiftyTeeth.swift:61-69 | installs both handlers, then scans |
| LegacyCentral.SwiftyTeeth.StopScan | Sources/SwiftyTeeth.swift:71-79 | stops, hands the scanned set to the completion, then clears both handlers |
| LegacyCentral.SwiftyTeeth.ConnectTo | Sources/SwiftyTeeth.swift:81-83 | the stub calls its completion with no device at once and has no other effect |
| LegacyCentral.SwiftyTeeth.DisconnectFrom | Sources/SwiftyTeeth.swift:85-87 | the stub calls its completion at once and has no other effect |
| LegacyCentral.SwiftyTeeth.DidDiscover | Sources/SwiftyTeeth.swift:122-126 | every peripheral joins the set, with no name filter, and the changes handler sees each one |
| LegacyCentral.SwiftyTeeth.DidConnect | Sources/SwiftyTeeth.swift:128-130 | the single device slot is replaced by the connected peripheral |

## Left out

- Logging (`Log`, `print`, the logger protocol) has no effect on the modelled state and is omitted.
- Threading is not modelled: the `DispatchSemaphore` around `QueueItem.state`, KVO notifications, and the dispatch queues callbacks arrive on. Each method runs atomically.
- Timers are not modelled. `scan(for:...)` schedules `stopScan` after a timeout; the model leaves that call to the caller. The `timeout` parameter of `connect` is unused in the source.
- Foundation's `OperationQueue` scheduling is reduced to `StartNext`: queue priorities other than `.normal`, dependencies and concurrency above one are outside the model. Every device-built item is normal priority on a serial queue.
- The `completionBlock` setter of the current `QueueItem` is a fatal error; it is not modelled.
- The peripheral role (`SwiftyTooth`, advertising and its notification queue) is outside the model, apart from its `Deque`.
- CoreBluetooth is not modelled beyond records and request logs. `CBUUID`/`UUID` conversion is the partial `Platform.ParseUuid`. Case folding covers ASCII letters only.
- `retrievePeripherals(withIdentifiers:)` of the current manager wraps a platform lookup whose answer the model cannot see; it is left out.
- Delegate callbacks with empty bodies (name, RSSI, modified services, included services, descriptors, restore state) and `unsubscribeAll`, an empty TODO, are left out: they do nothing.
- The oldest manager's `readValue`/`write` TODO stubs and its `centralManagerDidUpdateState`, which only prints, are left out: they have no effect.
- `Device(delegate:peripheral:)`, called by the oldest manager's `didConnect`, matches no initializer of any `Device` shown; the model records the connected peripheral in `device` instead.
- `hash`/`isEqual` of `Device` compare identifiers; the model represents them by keying the scanned and connected tables by identifier.
- The equals/find helpers of Sources/Extensions/CBCharacterisic+String.swift are the same code as the current ones and are modelled once, by `Lookup`.
- Dictionary key and value order is unspecified in Swift, so `Array(dict.keys)` and `Array(dict.values)` become sets.
- Central.Device.DidDiscoverServices: requires that no two converted services share a UUID, because `Dictionary(uniqueKeysWithValues:)` traps on duplicates.
- Central.SwiftyTeeth.DidConnect: requires `Routable(id)`, i.e. the registered device is consistent and belongs to this manager, which every device the manager registers is.
- Central.SwiftyTeeth.DidDiscoverServices: requires `Routable(id)`, as above, and the same UUID uniqueness for the routed device, for the same reason as the device method.
- Central.SwiftyTeeth.DidFailToConnect: requires `Routable(id)`, as above.
- Central.SwiftyTeeth.DidDisconnectPeripheral: requires `Routable(id)`, as above.
- Central.SwiftyTeeth.DidDiscoverCharacteristicsFor: requires `Routable(id)`, as above.
- Central.SwiftyTeeth.DidUpdateValueFor: requires `Routable(id)`, as above.
- Central.SwiftyTeeth.DidWriteValueFor: requires `Routable(id)`, as above.
- Central.SwiftyTeeth.DidUpdateNotificationStateFor: requires `Routable(id)`, as above.
- QueueItems.AtMostOnceOnSerialQueue: proves at most once, not exactly once, because `cancel()` finishes an item without calling its callback.

## Findings

| source | as written | input that shows it | evidently intended | confidence | as-written member | corrected member |
|---|---|---|---|---|---|---|
| Sources/SwiftyTeeth/Extensions/CBCharacterisic+String.swift:17 | `maybeService?.uuid.uuidString ?? "" + uuid.uuidString` parses as `service ?? ("" + uuid)`, so the key is the service UUID alone | characteristics 2A37 and 2A38 of service 180D both get the key "180D", so a read of one can complete with the other's value, and "180D" is also the name of that service's characteristic discovery | the service UUID string followed by the characteristic UUID string, as in Sources/Extensions/CBCharacterisic+String.swift:13 | not executed | Lookup.CompositeIdCollidesWithinService | Lookup.IntendedCompositeIdSeparatesCharacteristics |
