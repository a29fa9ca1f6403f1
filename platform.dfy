/**
 * The platform Bluetooth stack (CoreBluetooth) and the Foundation string and UUID
 * operations the library relies on, reduced to what the library reads and asks for.
 * Platform objects become records; the identity of a platform object, which Swift
 * compares by reference, is an explicit `handle`.  Requests the library issues to the
 * stack are not executed: the device and manager models append them to a ghost log.
 */
module Platform {
  import opened Optional

  type Bytes = seq<bv8>

  /** `CBPeripheralState`; `Other` stands for a raw value added by a later platform release. */
  datatype PeripheralState = Disconnected | Connecting | Connected | Disconnecting | Other(raw: int)

  /**
   * `CBCharacteristic`: its UUID string, whether the peer is notifying, its last value,
   * and the back-reference to its service (nil when the service object is gone).
   */
  datatype CBCharacteristic = CBCharacteristic(
    handle: nat,
    uuidString: string,
    isNotifying: bool,
    value: Option<Bytes>,
    service: Option<string>)

  /** `CBService`: its UUID string and, once discovered, its characteristics. */
  datatype CBService = CBService(
    handle: nat,
    uuidString: string,
    characteristics: Option<seq<CBCharacteristic>>)

  /** `CBPeripheral`: identifier, advertised name, link state and, once discovered, services. */
  datatype CBPeripheral = CBPeripheral(
    identifier: string,
    name: Option<string>,
    state: PeripheralState,
    services: Option<seq<CBService>>)

  /** `CBCharacteristicWriteType`. */
  datatype WriteType = WithResponse | WithoutResponse

  /** A request the library issues to a `CBPeripheral`. */
  datatype PeripheralRequest =
    | DiscoverServices(filter: Option<seq<string>>)
    | DiscoverCharacteristics(characteristicFilter: Option<seq<string>>, service: CBService)
    | ReadValue(target: CBCharacteristic)
    | WriteValue(data: Bytes, target: CBCharacteristic, writeType: WriteType)
    | SetNotifyValue(enabled: bool, target: CBCharacteristic)

  /** A request the library issues to the `CBCentralManager`. */
  datatype CentralRequest =
    | ScanForPeripherals(allowDuplicates: bool)
    | StopScan
    | Connect(peripheral: string)
    | CancelPeripheralConnection(peripheral: string)
    | RetrievePeripherals(identifiers: seq<string>)

  // ---------------------------------------------------------------------------------
  // Case folding (`String.lowercased()`), restricted to ASCII letters.

  function LowerChar(c: char): char {
    if 'A' <= c <= 'Z' then (c as int - 'A' as int + 'a' as int) as char else c
  }

  function UpperChar(c: char): char {
    if 'a' <= c <= 'z' then (c as int - 'a' as int + 'A' as int) as char else c
  }

  function Lowercased(s: string): (r: string)
    ensures |r| == |s|
    ensures forall i :: 0 <= i < |s| ==> r[i] == LowerChar(s[i])
  {
    if s == [] then [] else [LowerChar(s[0])] + Lowercased(s[1..])
  }

  function Uppercased(s: string): (r: string)
    ensures |r| == |s|
    ensures forall i :: 0 <= i < |s| ==> r[i] == UpperChar(s[i])
  {
    if s == [] then [] else [UpperChar(s[0])] + Uppercased(s[1..])
  }

  /** Lowercasing is idempotent and erases any earlier change of case. */
  lemma LowercasedAbsorbs(s: string)
    ensures Lowercased(Lowercased(s)) == Lowercased(s)
    ensures Lowercased(Uppercased(s)) == Lowercased(s)
  {
    assert forall i :: 0 <= i < |s| ==> Lowercased(Lowercased(s))[i] == Lowercased(s)[i];
    assert forall i :: 0 <= i < |s| ==> Lowercased(Uppercased(s))[i] == Lowercased(s)[i];
  }

  // ---------------------------------------------------------------------------------
  // `UUID(uuidString:)`: accepts the 8-4-4-4-12 hexadecimal form in either case and
  // yields the canonical upper-case `uuidString`; anything else (a 16-bit Bluetooth
  // short UUID such as "180D", say) gives nil.

  predicate IsHexDigit(c: char) {
    ('0' <= c <= '9') || ('a' <= c <= 'f') || ('A' <= c <= 'F')
  }

  predicate IsUuidForm(s: string) {
    && |s| == 36
    && (forall i :: 0 <= i < 36 && (i == 8 || i == 13 || i == 18 || i == 23) ==> s[i] == '-')
    && (forall i :: 0 <= i < 36 && !(i == 8 || i == 13 || i == 18 || i == 23) ==> IsHexDigit(s[i]))
  }

  function ParseUuid(s: string): (r: Option<string>)
    ensures r.Some? <==> IsUuidForm(s)
    ensures r.Some? ==> |r.value| == 36 && Lowercased(r.value) == Lowercased(s)
  {
    if IsUuidForm(s) then
      LowercasedAbsorbs(s);
      Some(Uppercased(s))
    else None
  }
}
