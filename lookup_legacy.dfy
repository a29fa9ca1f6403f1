/**
 * The older characteristic helpers of Sources/Extensions/CBCharacterisic+String.swift.
 * Before iOS 15 `CBCharacteristic.service` was not optional, and `compositeId` really
 * is the concatenation of the two UUID strings.  Its `equals` and `find` are the same
 * code as the current revision's and are modelled once, by `Lookup`.
 */
module LegacyLookup {
  import opened Platform
  import Lookup

  /** `service.uuid.uuidString + uuid.uuidString`; the non-optional `service` is a back-reference that is set. */
  function CompositeId(c: CBCharacteristic): (r: string)
    requires c.service.Some?
    ensures |r| == |c.service.value| + |c.uuidString|
    ensures r[..|c.service.value|] == c.service.value
    ensures r[|c.service.value|..] == c.uuidString
  {
    c.service.value + c.uuidString
  }

  /** Two characteristics of one service get different keys exactly when their UUID strings differ. */
  lemma CompositeIdSeparatesCharacteristics(a: CBCharacteristic, b: CBCharacteristic)
    requires a.service.Some? && a.service == b.service
    ensures CompositeId(a) == CompositeId(b) <==> a.uuidString == b.uuidString
  {
    if CompositeId(a) == CompositeId(b) {
      assert CompositeId(a)[|a.service.value|..] == CompositeId(b)[|b.service.value|..];
    }
  }

  /** This key is the one the current revision's `compositeId` was meant to compute. */
  lemma AgreesWithIntendedKey(c: CBCharacteristic)
    requires c.service.Some?
    ensures CompositeId(c) == Lookup.IntendedCompositeId(c)
  {
  }
}
