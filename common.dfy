/**
 * The platform-independent descriptors of Sources/Common: a characteristic's declared
 * properties (each carrying the handler the peripheral role registers for it), the
 * characteristic, and the service that groups characteristics.
 */
module Common {

  /** A UUID, held as its `uuidString`. */
  type Uuid = string

  /**
   * A registered closure.  What a handler computes is outside the model; the model only
   * records that, and with what arguments, it is invoked.
   */
  type Handler = nat

  datatype Property =
    | Read(onRead: Handler)
    | Notify(onNotify: Handler)
    | Write(onWrite: Handler)
    | WriteNoResponse(onWrite: Handler)
  {
    /** `.read` and `.notify` are readable; `.write` and `.writeNoResponse` are not. */
    predicate IsReadable() {
      match this
      case Read(_) => true
      case Notify(_) => true
      case Write(_) => false
      case WriteNoResponse(_) => false
    }

    /** Defined as the negation of `isReadable`. */
    predicate IsWriteable() {
      !IsReadable()
    }
  }

  datatype Characteristic = Characteristic(uuid: Uuid, properties: seq<Property>)

  datatype Service = Service(uuid: Uuid, characteristics: seq<Characteristic>)

  /** `Characteristic.init(uuid:properties:)` stores both arguments as given. */
  function MakeCharacteristic(uuid: Uuid, properties: seq<Property>): (c: Characteristic)
    ensures c.uuid == uuid
    ensures |c.properties| == |properties|
    ensures forall i :: 0 <= i < |properties| ==> c.properties[i] == properties[i]
  {
    Characteristic(uuid, properties)
  }

  /** The readable cases, the non-readable cases, and writeable as the exact complement. */
  lemma ReadabilityByCase(h: Handler, p: Property)
    ensures Read(h).IsReadable() && Notify(h).IsReadable()
    ensures !Write(h).IsReadable() && !WriteNoResponse(h).IsReadable()
    ensures p.IsWriteable() != p.IsReadable()
  {
  }

  /** Readability depends on the case tag only, never on the attached handler. */
  lemma ReadabilityIgnoresHandler(p: Property, q: Property)
    requires (p.Read? && q.Read?) || (p.Notify? && q.Notify?)
          || (p.Write? && q.Write?) || (p.WriteNoResponse? && q.WriteNoResponse?)
    ensures p.IsReadable() == q.IsReadable()
    ensures p.IsWriteable() == q.IsWriteable()
  {
  }
}
