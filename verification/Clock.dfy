/** Clock and port identities, clock class and accuracy, and their raw values. */
module Clock {
  import opened Base

  /** The eight identity octets read as one big-endian number: the derived order on `[u8; 8]` is
  numeric order on this value (`Wire.IdentityOrderIsByteOrder`). */
  type ClockIdentity = x: int | 0 <= x < 0x1_0000_0000_0000_0000

  datatype PortIdentity = PortIdentity(clock: ClockIdentity, port: uint16)

  /** Derived `Ord`: clock identity first, then port number. */
  function ComparePorts(a: PortIdentity, b: PortIdentity): Ordering {
    CompareInt(a.clock, b.clock).Then(CompareInt(a.port, b.port))
  }

  /** That order in plain numbers. */
  predicate PortBefore(a: PortIdentity, b: PortIdentity) {
    a.clock < b.clock || (a.clock == b.clock && a.port < b.port)
  }

  datatype ClockClass =
    | ReservedClass(raw: byte)
    | PrimaryReference
    | PrimaryHoldover
    | ApplicationSpecific
    | ApplicationHoldover
    | PrimaryHoldoverDegradedA
    | ApplicationHoldoverDegradedA
    | PrimaryHoldoverDegradedB
    | ApplicationHoldoverDegradedB
    | DefaultClass
    | V1Compatibility
    | SlaveOnly
    | AlternateProfileClass(raw: byte)

  predicate IsAlternateProfileClass(v: byte) {
    68 <= v <= 122 || 133 <= v <= 170 || 216 <= v <= 232
  }

  /** Raw class values that have a constructor of their own. */
  const NAMED_CLASSES: seq<byte> := [6, 7, 13, 14, 52, 58, 187, 193, 248, 251, 255]

  function ClassOf(v: byte): (c: ClockClass)
    ensures ClassValue(c) == v
  {
    match v
    case 6 => PrimaryReference
    case 7 => PrimaryHoldover
    case 13 => ApplicationSpecific
    case 14 => ApplicationHoldover
    case 52 => PrimaryHoldoverDegradedA
    case 58 => ApplicationHoldoverDegradedA
    case 187 => PrimaryHoldoverDegradedB
    case 193 => ApplicationHoldoverDegradedB
    case 248 => DefaultClass
    case 251 => V1Compatibility
    case 255 => SlaveOnly
    case _ => if IsAlternateProfileClass(v) then AlternateProfileClass(v) else ReservedClass(v)
  }

  function ClassValue(c: ClockClass): byte {
    match c
    case ReservedClass(v) => v
    case AlternateProfileClass(v) => v
    case PrimaryReference => 6
    case PrimaryHoldover => 7
    case ApplicationSpecific => 13
    case ApplicationHoldover => 14
    case PrimaryHoldoverDegradedA => 52
    case ApplicationHoldoverDegradedA => 58
    case PrimaryHoldoverDegradedB => 187
    case ApplicationHoldoverDegradedB => 193
    case DefaultClass => 248
    case V1Compatibility => 251
    case SlaveOnly => 255
  }

  /** Clock classes 1 through 127. */
  predicate IsAuthoritativeClass(c: ClockClass) {
    1 <= ClassValue(c) <= 127
  }

  datatype ClockAccuracy =
    | ReservedAccuracy(raw: byte)
    | Within25ns | Within100ns | Within250ns
    | Within1us | Within2_5us | Within10us | Within25us | Within100us | Within250us
    | Within1ms | Within2_5ms | Within10ms | Within25ms | Within100ms | Within250ms
    | Within1s | Within10s | GreaterThan10s
    | AlternateProfileAccuracy(raw: byte)
    | UnknownAccuracy

  function AccuracyOf(v: byte): (a: ClockAccuracy)
    ensures AccuracyValue(a) == v
  {
    match v
    case 0x20 => Within25ns
    case 0x21 => Within100ns
    case 0x22 => Within250ns
    case 0x23 => Within1us
    case 0x24 => Within2_5us
    case 0x25 => Within10us
    case 0x26 => Within25us
    case 0x27 => Within100us
    case 0x28 => Within250us
    case 0x29 => Within1ms
    case 0x2A => Within2_5ms
    case 0x2B => Within10ms
    case 0x2C => Within25ms
    case 0x2D => Within100ms
    case 0x2E => Within250ms
    case 0x2F => Within1s
    case 0x30 => Within10s
    case 0x31 => GreaterThan10s
    case 0xFE => UnknownAccuracy
    case _ => if 0x80 <= v <= 0xFD then AlternateProfileAccuracy(v) else ReservedAccuracy(v)
  }

  function AccuracyValue(a: ClockAccuracy): byte {
    match a
    case ReservedAccuracy(v) => v
    case AlternateProfileAccuracy(v) => v
    case Within25ns => 0x20
    case Within100ns => 0x21
    case Within250ns => 0x22
    case Within1us => 0x23
    case Within2_5us => 0x24
    case Within10us => 0x25
    case Within25us => 0x26
    case Within100us => 0x27
    case Within250us => 0x28
    case Within1ms => 0x29
    case Within2_5ms => 0x2A
    case Within10ms => 0x2B
    case Within25ms => 0x2C
    case Within100ms => 0x2D
    case Within250ms => 0x2E
    case Within1s => 0x2F
    case Within10s => 0x30
    case GreaterThan10s => 0x31
    case UnknownAccuracy => 0xFE
  }

  datatype ClockQuality = ClockQuality(clockClass: ClockClass, accuracy: ClockAccuracy, variance: uint16)

  /** `Ord for ClockQuality`: by raw class, raw accuracy and variance. */
  function CompareQuality(a: ClockQuality, b: ClockQuality): Ordering {
    CompareInt(ClassValue(a.clockClass), ClassValue(b.clockClass))
      .Then(CompareInt(AccuracyValue(a.accuracy), AccuracyValue(b.accuracy)))
      .Then(CompareInt(a.variance, b.variance))
  }

  /** A class or accuracy value that the decoding constructors can produce. */
  predicate CanonicalClass(c: ClockClass) {
    match c
    case ReservedClass(v) => v !in NAMED_CLASSES && !IsAlternateProfileClass(v)
    case AlternateProfileClass(v) => IsAlternateProfileClass(v)
    case _ => true
  }

  predicate CanonicalAccuracy(a: ClockAccuracy) {
    match a
    case ReservedAccuracy(v) => v < 0x20 || 0x32 <= v < 0x80 || v == 0xFF
    case AlternateProfileAccuracy(v) => 0x80 <= v <= 0xFD
    case _ => true
  }

  /** Decoding the raw value gives the value back exactly for the canonical ones: values such as
  `ReservedClass(6)` are lost. */
  lemma RawValuesRoundTrip(q: ClockQuality)
    ensures ClassOf(ClassValue(q.clockClass)) == q.clockClass <==> CanonicalClass(q.clockClass)
    ensures AccuracyOf(AccuracyValue(q.accuracy)) == q.accuracy <==> CanonicalAccuracy(q.accuracy)
  {
  }

  /** Which raw values decode to reserved and to alternate-profile values. */
  lemma DecodedRanges(v: byte)
    ensures ClassOf(v).AlternateProfileClass? <==> 68 <= v <= 122 || 133 <= v <= 170 || 216 <= v <= 232
    ensures ClassOf(v).ReservedClass? <==>
              && !(68 <= v <= 122 || 133 <= v <= 170 || 216 <= v <= 232)
              && v !in {6, 7, 13, 14, 52, 58, 187, 193, 248, 251, 255}
    ensures AccuracyOf(v).AlternateProfileAccuracy? <==> 128 <= v <= 253
    ensures AccuracyOf(v).ReservedAccuracy? <==> v < 32 || 50 <= v < 128 || v == 255
  {
  }

  /** The failing input: a reserved class with the raw value of a named one comes back as the named
  one. */
  lemma ReservedSixIsLost()
    ensures ClassOf(ClassValue(ReservedClass(6))) == PrimaryReference
    ensures AccuracyOf(AccuracyValue(ReservedAccuracy(0x20))) == Within25ns
  {
  }
}
