/**
 * The string helpers the device models use to resolve user-supplied UUID strings to
 * platform objects and to name queued operations:
 * Sources/SwiftyTeeth/Extensions/CBCharacterisic+String.swift and
 * Sources/SwiftyTeeth/Extensions/CBService+String.swift.
 */
module Lookup {
  import opened Optional
  import opened Platform

  /**
   * `CBCharacteristic.compositeId` as written.  In
   * `maybeService?.uuid.uuidString ?? "" + uuid.uuidString` Swift's `+` binds tighter
   * than `??`, so the expression is the service's UUID string when the back-reference is
   * set and `"" + uuid.uuidString` only when it is nil: never a concatenation.
   */
  function CompositeId(c: CBCharacteristic): string {
    match c.service
    case Some(serviceUuid) => serviceUuid
    case None => [] + c.uuidString
  }

  /** `CBCharacteristic.equals`: the UUID strings agree up to letter case. */
  predicate CharacteristicEquals(c: CBCharacteristic, uuidString: string) {
    Lowercased(c.uuidString) == Lowercased(uuidString)
  }

  /** `CBService.equals`: the UUID strings agree up to letter case. */
  predicate ServiceEquals(s: CBService, uuidString: string) {
    Lowercased(s.uuidString) == Lowercased(uuidString)
  }

  /** `[CBCharacteristic].find(uuidString:)`, which is `first(where: { $0.equals(uuidString) })`. */
  function FindCharacteristic(cs: seq<CBCharacteristic>, uuidString: string): (r: Option<CBCharacteristic>)
    ensures r.None? <==> forall i :: 0 <= i < |cs| ==> !CharacteristicEquals(cs[i], uuidString)
    ensures r.Some? ==> exists i :: 0 <= i < |cs| && cs[i] == r.value
                          && CharacteristicEquals(cs[i], uuidString)
                          && forall j :: 0 <= j < i ==> !CharacteristicEquals(cs[j], uuidString)
  {
    if cs == [] then None
    else if CharacteristicEquals(cs[0], uuidString) then Some(cs[0])
    else
      var r := FindCharacteristic(cs[1..], uuidString);
      assert forall i :: 1 <= i < |cs| ==> cs[i] == cs[1..][i - 1];
      r
  }

  /** `[CBService].find(uuidString:)`, which is `first(where: { $0.equals(uuidString) })`. */
  function FindService(ss: seq<CBService>, uuidString: string): (r: Option<CBService>)
    ensures r.None? <==> forall i :: 0 <= i < |ss| ==> !ServiceEquals(ss[i], uuidString)
    ensures r.Some? ==> exists i :: 0 <= i < |ss| && ss[i] == r.value
                          && ServiceEquals(ss[i], uuidString)
                          && forall j :: 0 <= j < i ==> !ServiceEquals(ss[j], uuidString)
  {
    if ss == [] then None
    else if ServiceEquals(ss[0], uuidString) then Some(ss[0])
    else
      var r := FindService(ss[1..], uuidString);
      assert forall i :: 1 <= i < |ss| ==> ss[i] == ss[1..][i - 1];
      r
  }

  /** The optional-chained lookups `services?.find(...)` and `characteristics?.find(...)`. */
  function FindServiceIn(ss: Option<seq<CBService>>, uuidString: string): Option<CBService> {
    if ss.None? then None else FindService(ss.value, uuidString)
  }

  function FindCharacteristicIn(cs: Option<seq<CBCharacteristic>>, uuidString: string): Option<CBCharacteristic> {
    if cs.None? then None else FindCharacteristic(cs.value, uuidString)
  }

  /**
   * The guard every read, write, subscribe and unsubscribe starts with: find the service
   * on the peripheral, then the characteristic in that service.
   */
  function ResolveTarget(services: Option<seq<CBService>>, characteristic: string, service: string)
    : (r: Option<CBCharacteristic>)
    ensures r.Some? ==>
      && FindServiceIn(services, service).Some?
      && var s := FindServiceIn(services, service).value;
         s.characteristics.Some? && r.value in s.characteristics.value
         && CharacteristicEquals(r.value, characteristic)
    ensures r.None? <==>
      || FindServiceIn(services, service).None?
      || FindCharacteristicIn(FindServiceIn(services, service).value.characteristics, characteristic).None?
  {
    match FindServiceIn(services, service)
    case None => None
    case Some(s) => FindCharacteristicIn(s.characteristics, characteristic)
  }

  // ---------------------------------------------------------------------------------
  // Properties

  /** compositeId is the service's UUID string when the back-reference is set, else the characteristic's own. */
  lemma CompositeIdIsNeverConcatenation(c: CBCharacteristic)
    ensures c.service.Some? ==> CompositeId(c) == c.service.value
    ensures c.service.None? ==> CompositeId(c) == c.uuidString
  {
  }

  /** Characteristics of the same service share their compositeId, whatever their own UUIDs. */
  lemma SameServiceSameCompositeId(a: CBCharacteristic, b: CBCharacteristic)
    requires a.service.Some? && a.service == b.service
    ensures CompositeId(a) == CompositeId(b)
  {
  }

  /** equals ignores the letter case of its argument, and a characteristic equals its own UUID string. */
  lemma CharacteristicEqualsIgnoresCase(c: CBCharacteristic, s: string)
    ensures CharacteristicEquals(c, s) == CharacteristicEquals(c, Lowercased(s))
    ensures CharacteristicEquals(c, s) == CharacteristicEquals(c, Uppercased(s))
    ensures CharacteristicEquals(c, c.uuidString)
    ensures CharacteristicEquals(c, Uppercased(c.uuidString))
  {
    LowercasedAbsorbs(s);
    LowercasedAbsorbs(c.uuidString);
  }

  /** A service equals its own UUID string in any letter case. */
  lemma ServiceEqualsIgnoresCase(sv: CBService, s: string)
    ensures ServiceEquals(sv, s) == ServiceEquals(sv, Lowercased(s))
    ensures ServiceEquals(sv, s) == ServiceEquals(sv, Uppercased(s))
    ensures ServiceEquals(sv, sv.uuidString)
    ensures ServiceEquals(sv, Lowercased(sv.uuidString)) && ServiceEquals(sv, Uppercased(sv.uuidString))
  {
    LowercasedAbsorbs(s);
    LowercasedAbsorbs(sv.uuidString);
  }

  // ---------------------------------------------------------------------------------
  // The key the authors evidently meant: `(maybeService?.uuid.uuidString ?? "") + uuid.uuidString`,
  // the service's UUID string followed by the characteristic's, as the older revision
  // of this extension computes it.

  function IntendedCompositeId(c: CBCharacteristic): string {
    c.service.OrElse([]) + c.uuidString
  }

  /**
   * The key as written collides for two different characteristics of one service, so a
   * completion for one can be routed to the queued operation of the other.
   */
  lemma CompositeIdCollidesWithinService()
    ensures var a := CBCharacteristic(1, "2A37", false, None, Some("180D"));
            var b := CBCharacteristic(2, "2A38", false, None, Some("180D"));
            a.uuidString != b.uuidString && CompositeId(a) == CompositeId(b)
  {
  }

  /**
   * The intended key tells the characteristics of one service apart, and keeps the
   * service as its prefix and the characteristic's UUID string as its suffix.
   */
  lemma IntendedCompositeIdSeparatesCharacteristics(a: CBCharacteristic, b: CBCharacteristic)
    requires a.service == b.service
    ensures IntendedCompositeId(a) == IntendedCompositeId(b) <==> a.uuidString == b.uuidString
    ensures var p := a.service.OrElse([]);
            IntendedCompositeId(a)[..|p|] == p && IntendedCompositeId(a)[|p|..] == a.uuidString
  {
    var p := a.service.OrElse([]);
    if IntendedCompositeId(a) == IntendedCompositeId(b) {
      assert IntendedCompositeId(a)[|p|..] == a.uuidString;
      assert IntendedCompositeId(b)[|p|..] == b.uuidString;
    }
  }
}
