/** The PTPv2 wire format of the five supported message types (IEEE 1588-2019 clause 13). */
module Wire {
  import opened Base
  import opened Clock
  import opened Dataset
  import opened Messages
  import opened Time

  // ---- Big-endian numbers ----

  function Pow256(n: nat): nat {
    if n == 0 then 1 else 256 * Pow256(n - 1)
  }

  /** `to_be_bytes`, truncated to the lowest `n` octets. */
  function ToBytes(x: nat, n: nat): (r: seq<byte>)
    ensures |r| == n
  {
    if n == 0 then [] else ToBytes(x / 256, n - 1) + [x % 256]
  }

  /** `from_be_bytes`. */
  function FromBytes(b: seq<byte>): nat {
    if b == [] then 0 else 256 * FromBytes(b[..|b| - 1]) + b[|b| - 1]
  }

  lemma {:induction false} NumberRoundTrip(x: nat, n: nat)
    requires x < Pow256(n)
    ensures FromBytes(ToBytes(x, n)) == x
  {
    if n > 0 {
      NumberRoundTrip(x / 256, n - 1);
      assert ToBytes(x, n)[..n - 1] == ToBytes(x / 256, n - 1);
    }
  }

  lemma {:induction false} BytesRoundTrip(b: seq<byte>)
    ensures FromBytes(b) < Pow256(|b|)
    ensures ToBytes(FromBytes(b), |b|) == b
  {
    if b != [] {
      BytesRoundTrip(b[..|b| - 1]);
    }
  }

  lemma Widths()
    ensures Pow256(2) == 0x1_0000
    ensures Pow256(4) == 0x1_0000_0000
    ensures Pow256(8) == 0x1_0000_0000_0000_0000
  {
    assert Pow256(4) == 256 * (256 * Pow256(2));
    assert Pow256(8) == 256 * (256 * (256 * (256 * Pow256(4))));
  }

  function ReadU16(b: seq<byte>): uint16
    requires |b| == 2
  {
    BytesRoundTrip(b);
    Widths();
    FromBytes(b)
  }

  function ReadU32(b: seq<byte>): (r: nat)
    requires |b| == 4
    ensures r < 0x1_0000_0000
  {
    BytesRoundTrip(b);
    Widths();
    FromBytes(b)
  }

  function ReadIdentity(b: seq<byte>): ClockIdentity
    requires |b| == 8
  {
    BytesRoundTrip(b);
    Widths();
    FromBytes(b)
  }

  /** The derived order on octet arrays: the first difference decides. */
  function CompareBytes(a: seq<byte>, b: seq<byte>): Ordering
    requires |a| == |b|
  {
    if a == [] then Equal else CompareInt(a[0], b[0]).Then(CompareBytes(a[1..], b[1..]))
  }

  lemma {:induction false} CompareLast(a: seq<byte>, b: seq<byte>)
    requires |a| == |b| > 0
    ensures CompareBytes(a, b) ==
            CompareBytes(a[..|a| - 1], b[..|b| - 1]).Then(CompareInt(a[|a| - 1], b[|b| - 1]))
  {
    if |a| > 1 {
      CompareLast(a[1..], b[1..]);
      assert a[1..][..|a| - 2] == a[..|a| - 1][1..] && b[1..][..|b| - 2] == b[..|b| - 1][1..];
    }
  }

  /** Identities compare as numbers exactly as their octets compare as arrays. */
  lemma {:induction false} IdentityOrderIsByteOrder(a: seq<byte>, b: seq<byte>)
    requires |a| == |b|
    ensures CompareBytes(a, b) == CompareInt(FromBytes(a), FromBytes(b))
  {
    if a != [] {
      CompareLast(a, b);
      IdentityOrderIsByteOrder(a[..|a| - 1], b[..|b| - 1]);
    }
  }

  // ---- Slices of a buffer ----

  predicate Field(b: seq<byte>, at: nat, x: seq<byte>) {
    at + |x| <= |b| && b[at..at + |x|] == x
  }

  /** `b[at..at + x.len()].copy_from_slice(x)`. */
  function Patch(b: seq<byte>, at: nat, x: seq<byte>): (r: seq<byte>)
    requires at + |x| <= |b|
    ensures |r| == |b|
    ensures forall i :: 0 <= i < |b| ==> r[i] == if at <= i < at + |x| then x[i - at] else b[i]
    ensures Field(r, at, x)
  {
    b[..at] + x + b[at + |x|..]
  }

  lemma PatchKeeps(b: seq<byte>, at: nat, x: seq<byte>, k: nat, y: seq<byte>)
    requires at + |x| <= |b| && Field(b, k, y)
    requires k + |y| <= at || at + |x| <= k
    ensures Field(Patch(b, at, x), k, y)
  {
    var was, now := b[k..k + |y|], Patch(b, at, x)[k..k + |y|];
    assert forall i :: 0 <= i < |y| ==> now[i] == was[i];
  }

  lemma FieldOfPrefix(b: seq<byte>, n: nat, at: nat, x: seq<byte>)
    requires n <= |b| && at + |x| <= n && Field(b, at, x)
    ensures Field(b[..n], at, x)
  {
    assert b[..n][at..at + |x|] == b[at..at + |x|];
  }

  // ---- Field codecs ----

  const PORT_IDENTITY_LEN: nat := 10
  const TIMESTAMP_LEN: nat := 10
  const DATASET_LEN: nat := 16

  function PortBytes(p: PortIdentity): (r: seq<byte>)
    ensures |r| == PORT_IDENTITY_LEN
  {
    ToBytes(p.clock, 8) + ToBytes(p.port, 2)
  }

  function PortFrom(b: seq<byte>): PortIdentity
    requires |b| == PORT_IDENTITY_LEN
  {
    PortIdentity(ReadIdentity(b[..8]), ReadU16(b[8..]))
  }

  lemma PortRoundTrip(p: PortIdentity)
    ensures PortFrom(PortBytes(p)) == p
  {
    Widths();
    NumberRoundTrip(p.clock, 8);
    NumberRoundTrip(p.port, 2);
    assert PortBytes(p)[..8] == ToBytes(p.clock, 8) && PortBytes(p)[8..] == ToBytes(p.port, 2);
  }

  function StampBytes(t: TimeStamp): (r: seq<byte>)
    ensures |r| == TIMESTAMP_LEN
  {
    ToBytes(t.seconds / 0x1_0000_0000, 2) + ToBytes(t.seconds % 0x1_0000_0000, 4) + ToBytes(t.nanos, 4)
  }

  function StampFrom(b: seq<byte>): Result<TimeStamp, WireError>
    requires |b| == TIMESTAMP_LEN
  {
    var nanos := ReadU32(b[6..10]);
    if nanos < NANOS_PER_SECOND then
      Ok(Stamp(ReadU16(b[0..2]) * 0x1_0000_0000 + ReadU32(b[2..6]), nanos))
    else
      Err(InvalidTimestamp(nanos))
  }

  lemma StampRoundTrip(t: TimeStamp)
    ensures StampFrom(StampBytes(t)) == Ok(t)
  {
    var b := StampBytes(t);
    Widths();
    NumberRoundTrip(t.seconds / 0x1_0000_0000, 2);
    NumberRoundTrip(t.seconds % 0x1_0000_0000, 4);
    NumberRoundTrip(t.nanos, 4);
    assert b[0..2] == ToBytes(t.seconds / 0x1_0000_0000, 2);
    assert b[2..6] == ToBytes(t.seconds % 0x1_0000_0000, 4);
    assert b[6..10] == ToBytes(t.nanos, 4);
  }

  function DatasetBytes(ds: ClockDS): (r: seq<byte>)
    ensures |r| == DATASET_LEN
  {
    [ds.priority1, ClassValue(ds.quality.clockClass), AccuracyValue(ds.quality.accuracy)]
    + ToBytes(ds.quality.variance, 2)
    + [ds.priority2]
    + ToBytes(ds.identity, 8)
    + ToBytes(ds.steps, 2)
  }

  function DatasetFrom(b: seq<byte>): ClockDS
    requires |b| == DATASET_LEN
  {
    ClockDS(
      ReadIdentity(b[6..14]),
      b[0],
      b[5],
      ClockQuality(ClassOf(b[1]), AccuracyOf(b[2]), ReadU16(b[3..5])),
      ReadU16(b[14..16]))
  }

  /** What a dataset becomes on its way over the wire: its class and accuracy are re-read from
  their raw values. */
  function Transit(ds: ClockDS): ClockDS {
    ds.(quality := ds.quality.(clockClass := ClassOf(ClassValue(ds.quality.clockClass)),
                               accuracy := AccuracyOf(AccuracyValue(ds.quality.accuracy))))
  }

  predicate CanonicalDataset(ds: ClockDS) {
    CanonicalClass(ds.quality.clockClass) && CanonicalAccuracy(ds.quality.accuracy)
  }

  lemma MiddleOf(x: seq<byte>, y: seq<byte>, z: seq<byte>)
    ensures (x + y + z)[|x|..|x| + |y|] == y
  {
  }

  /** The fields of an encoded dataset, at their offsets. */
  lemma DatasetLayout(ds: ClockDS)
    ensures var b := DatasetBytes(ds);
            && b[0] == ds.priority1
            && b[1] == ClassValue(ds.quality.clockClass)
            && b[2] == AccuracyValue(ds.quality.accuracy)
            && b[3..5] == ToBytes(ds.quality.variance, 2)
            && b[5] == ds.priority2
            && b[6..14] == ToBytes(ds.identity, 8)
            && b[14..16] == ToBytes(ds.steps, 2)
  {
    var head := [ds.priority1, ClassValue(ds.quality.clockClass), AccuracyValue(ds.quality.accuracy)];
    var variance, identity, steps := ToBytes(ds.quality.variance, 2), ToBytes(ds.identity, 8), ToBytes(ds.steps, 2);
    var b := DatasetBytes(ds);
    MiddleOf(head, variance, [ds.priority2] + identity + steps);
    assert b == head + variance + ([ds.priority2] + identity + steps);
    MiddleOf(head + variance + [ds.priority2], identity, steps);
    MiddleOf(head + variance + [ds.priority2] + identity, steps, []);
    assert b == head + variance + [ds.priority2] + identity + steps + [];
  }

  /** Decoding undoes encoding exactly on the canonical datasets. */
  lemma DatasetRoundTrip(ds: ClockDS)
    ensures DatasetFrom(DatasetBytes(ds)) == Transit(ds)
    ensures Transit(ds) == ds <==> CanonicalDataset(ds)
  {
    Widths();
    DatasetLayout(ds);
    NumberRoundTrip(ds.quality.variance, 2);
    NumberRoundTrip(ds.identity, 8);
    NumberRoundTrip(ds.steps, 2);
    RawValuesRoundTrip(ds.quality);
  }

  /** Every sixteen octets are the encoding of the canonical dataset they decode to. */
  lemma DatasetBytesRoundTrip(b: seq<byte>)
    requires |b| == DATASET_LEN
    ensures DatasetBytes(DatasetFrom(b)) == b
    ensures CanonicalDataset(DatasetFrom(b))
  {
    BytesRoundTrip(b[3..5]);
    BytesRoundTrip(b[6..14]);
    BytesRoundTrip(b[14..16]);
    assert b == b[0..3] + b[3..5] + [b[5]] + b[6..14] + b[14..16];
    RawValuesRoundTrip(DatasetFrom(b).quality);
  }

  /** A non-canonical dataset is changed by the wire, but no comparison can tell, whichever of the two
  sides has passed over it: a local D_0 against a received dataset, or two received ones. */
  lemma TransitKeepsComparison(a: TopologyDS, b: TopologyDS)
    ensures var x, y := a.(ds := Transit(a.ds)), b.(ds := Transit(b.ds));
            && IsBetter(x, y) == IsBetter(a, y) == IsBetter(x, b) == IsBetter(a, b)
            && IsBetterByTopology(x, y) == IsBetterByTopology(a, y) == IsBetterByTopology(x, b)
               == IsBetterByTopology(a, b)
    ensures IsAuthoritative(Transit(a.ds)) == IsAuthoritative(a.ds)
    ensures WithAddedStep(Transit(a.ds)) == Transit(WithAddedStep(a.ds))
  {
  }

  // ---- Header ----

  const BUFFER_LEN: nat := 2048
  const HEADER_LEN: nat := 34
  const LENGTH_AT: nat := 2
  const DOMAIN_AT: nat := 4
  const FLAGS_AT: nat := 6
  const SOURCE_AT: nat := 20
  const SEQUENCE_AT: nat := 30
  const CONTROL_AT: nat := 32
  const LOG_INTERVAL_AT: nat := 33

  const TWO_STEP: uint16 := 0x0200
  const PTP_TIMESCALE: uint16 := 0x0008

  /** `flags.contains(mask)` for a mask of one bit. */
  predicate HasFlag(flags: nat, mask: nat)
    requires mask > 0
  {
    flags / mask % 2 == 1
  }

  datatype MessageType = SyncType | DelayRequestType | FollowUpType | DelayResponseType | AnnounceType

  function ToNibble(t: MessageType): (n: byte)
    ensures n < 16 && FromNibble(n) == Ok(t)
  {
    match t
    case SyncType => 0x0
    case DelayRequestType => 0x1
    case FollowUpType => 0x8
    case DelayResponseType => 0x9
    case AnnounceType => 0xB
  }

  function FromNibble(n: byte): Result<MessageType, WireError> {
    match n
    case 0x0 => Ok(SyncType)
    case 0x1 => Ok(DelayRequestType)
    case 0x8 => Ok(FollowUpType)
    case 0x9 => Ok(DelayResponseType)
    case 0xB => Ok(AnnounceType)
    case _ => Err(UnknownMessageType(n))
  }

  /** The control field of each message type. */
  function Control(t: MessageType): byte {
    match t
    case SyncType => 0
    case DelayRequestType => 1
    case FollowUpType => 2
    case DelayResponseType => 3
    case AnnounceType => 5
  }

  function LogToByte(l: int8): byte {
    if l < 0 then l + 0x100 else l
  }

  function LogFromByte(b: byte): int8 {
    if b >= 0x80 then b - 0x100 else b
  }

  datatype WireError =
    | HeaderTooShort(found: nat)
    | LengthMismatch(declared: nat, actual: nat)
    | PayloadTooShort(field: string, expected: nat, found: nat)
    | UnsupportedPtpVersion(version: byte)
    | DomainNotFound(domain: byte)
    | InvalidTimestamp(nanos: nat)
    | UnknownMessageType(nibble: byte)

  // ---- Parsing ----

  datatype Received<+M> = Received(source: PortIdentity, message: M)

  /** `length_checked_v2`, then the domain lookup of a single-domain port map; `None` accepts. */
  function HeaderError(w: seq<byte>, domain: byte): Option<WireError> {
    if |w| < HEADER_LEN then Some(HeaderTooShort(|w|))
    else if w[1] % 16 != 2 then Some(UnsupportedPtpVersion(w[1] % 16))
    else
      var declared := ReadU16(w[LENGTH_AT..LENGTH_AT + 2]);
      if declared != |w| then Some(LengthMismatch(declared, |w|))
      else if w[DOMAIN_AT] != domain then Some(DomainNotFound(w[DOMAIN_AT]))
      else None
  }

  function SourceOf(w: seq<byte>): PortIdentity
    requires |w| >= HEADER_LEN
  {
    PortFrom(w[SOURCE_AT..SOURCE_AT + PORT_IDENTITY_LEN])
  }

  function SequenceOf(w: seq<byte>): uint16
    requires |w| >= HEADER_LEN
  {
    ReadU16(w[SEQUENCE_AT..SEQUENCE_AT + 2])
  }

  function FlagsOf(w: seq<byte>): uint16
    requires |w| >= HEADER_LEN
  {
    ReadU16(w[FLAGS_AT..FLAGS_AT + 2])
  }

  /** The timestamp at the start of a payload. */
  function StampField(payload: seq<byte>, field: string): Result<TimeStamp, WireError> {
    if |payload| < TIMESTAMP_LEN then Err(PayloadTooShort(field, TIMESTAMP_LEN, |payload|))
    else StampFrom(payload[0..TIMESTAMP_LEN])
  }

  function RequesterField(payload: seq<byte>): Result<PortIdentity, WireError> {
    if |payload| < 20 then
      Err(PayloadTooShort("DelayResponse.requesting_port_identity", 10,
                          if |payload| < 10 then 0 else |payload| - 10))
    else Ok(PortFrom(payload[10..20]))
  }

  function DatasetField(payload: seq<byte>): Result<ClockDS, WireError> {
    if |payload| < 29 then
      Err(PayloadTooShort("Announce.foreign_clock_ds", DATASET_LEN,
                          if |payload| < 13 then 0 else |payload| - 13))
    else Ok(DatasetFrom(payload[13..29]))
  }

  /** `EventMessage::new`. */
  function EventOf(t: MessageType, seqId: uint16, flags: uint16, log: int8, payload: seq<byte>)
    : Result<EventMessage, WireError>
  {
    match t
    case SyncType =>
      if HasFlag(flags, TWO_STEP) then Ok(TwoStepSync(seqId, log))
      else
        (match StampField(payload, "Sync.origin_timestamp")
         case Err(e) => Err(e)
         case Ok(origin) => Ok(OneStepSync(seqId, log, origin)))
    case DelayRequestType => Ok(DelayReq(seqId))
    case _ => Err(UnknownMessageType(ToNibble(t)))
  }

  /** `GeneralMessage::new`. */
  function GeneralOf(t: MessageType, seqId: uint16, flags: uint16, log: int8, payload: seq<byte>)
    : Result<GeneralMessage, WireError>
  {
    match t
    case AnnounceType =>
      (match DatasetField(payload)
       case Err(e) => Err(e)
       case Ok(ds) => Ok(Announce(seqId, log, ds, if HasFlag(flags, PTP_TIMESCALE) then Ptp else Arb)))
    case FollowUpType =>
      (match StampField(payload, "FollowUp.precise_origin_timestamp")
       case Err(e) => Err(e)
       case Ok(origin) => Ok(FollowUp(seqId, log, origin)))
    case DelayResponseType =>
      (match StampField(payload, "DelayResponse.receive_timestamp")
       case Err(e) => Err(e)
       case Ok(received) =>
         match RequesterField(payload)
         case Err(e) => Err(e)
         case Ok(requester) => Ok(DelayResp(seqId, log, received, requester)))
    case _ => Err(UnknownMessageType(ToNibble(t)))
  }

  /** `MessageIngress::receive_event`, up to the call of the port: total on every byte string. */
  function ReceiveEvent(w: seq<byte>, domain: byte): Result<Received<EventMessage>, WireError> {
    match HeaderError(w, domain)
    case Some(e) => Err(e)
    case None =>
      match FromNibble(w[0] % 16)
      case Err(e) => Err(e)
      case Ok(t) =>
        match EventOf(t, SequenceOf(w), FlagsOf(w), LogFromByte(w[LOG_INTERVAL_AT]), w[HEADER_LEN..])
        case Err(e) => Err(e)
        case Ok(m) => Ok(Received(SourceOf(w), m))
  }

  /** `MessageIngress::receive_general`, likewise. */
  function ReceiveGeneral(w: seq<byte>, domain: byte): Result<Received<GeneralMessage>, WireError> {
    match HeaderError(w, domain)
    case Some(e) => Err(e)
    case None =>
      match FromNibble(w[0] % 16)
      case Err(e) => Err(e)
      case Ok(t) =>
        match GeneralOf(t, SequenceOf(w), FlagsOf(w), LogFromByte(w[LOG_INTERVAL_AT]), w[HEADER_LEN..])
        case Err(e) => Err(e)
        case Ok(m) => Ok(Received(SourceOf(w), m))
  }

  // ---- Printing ----

  /** What one message puts into a buffer: header fields, and `body` at payload offset `at`. */
  datatype Frame = Frame(kind: MessageType, flags: uint16, seqId: uint16, log: int8,
                         at: nat, body: seq<byte>, length: nat)

  predicate FrameFits(f: Frame) {
    f.at + |f.body| <= f.length <= BUFFER_LEN - HEADER_LEN
  }

  const UNSPECIFIED_INTERVAL: int8 := 0x7F

  function EventFrame(m: EventMessage): (f: Frame)
    ensures FrameFits(f)
  {
    match m
    case DelayReq(seqId) => Frame(DelayRequestType, 0, seqId, UNSPECIFIED_INTERVAL, 0, [], 10)
    case OneStepSync(seqId, log, origin) => Frame(SyncType, 0, seqId, log, 0, StampBytes(origin), 10)
    case TwoStepSync(seqId, log) => Frame(SyncType, TWO_STEP, seqId, log, 0, [], 10)
  }

  function GeneralFrame(m: GeneralMessage): (f: Frame)
    ensures FrameFits(f)
  {
    match m
    case Announce(seqId, log, ds, scale) =>
      Frame(AnnounceType, if scale == Ptp then PTP_TIMESCALE else 0, seqId, log, 13, DatasetBytes(ds), 30)
    case FollowUp(seqId, log, origin) => Frame(FollowUpType, 0, seqId, log, 0, StampBytes(origin), 10)
    case DelayResp(seqId, log, received, requester) =>
      Frame(DelayResponseType, 0, seqId, log, 0, StampBytes(received) + PortBytes(requester), 20)
  }

  /** Replace the low nibble of an octet by a message type. */
  function Tagged(octet: byte, kind: MessageType): (r: byte)
    ensures r % 16 == ToNibble(kind) && r / 16 == octet / 16
  {
    octet - octet % 16 + ToNibble(kind)
  }

  function Typed(b: seq<byte>, kind: MessageType): seq<byte>
    requires |b| == BUFFER_LEN
  {
    Patch(Patch(b, 0, [Tagged(b[0], kind)]), CONTROL_AT, [Control(kind)])
  }

  function HeaderWritten(b: seq<byte>, f: Frame): (r: seq<byte>)
    requires |b| == BUFFER_LEN
    ensures |r| == BUFFER_LEN
  {
    var flagged := Patch(Typed(b, f.kind), FLAGS_AT, ToBytes(f.flags, 2));
    var sequenced := Patch(flagged, SEQUENCE_AT, ToBytes(f.seqId, 2));
    Patch(sequenced, LOG_INTERVAL_AT, [LogToByte(f.log)])
  }

  /** The buffer after the whole builder chain. */
  function Written(b: seq<byte>, f: Frame): (r: seq<byte>)
    requires |b| == BUFFER_LEN && FrameFits(f)
    ensures |r| == BUFFER_LEN
  {
    Patch(Patch(HeaderWritten(b, f), HEADER_LEN + f.at, f.body),
          LENGTH_AT, ToBytes(HEADER_LEN + f.length, 2))
  }

  /** A buffer that `MessageBuffer::new` prepared for a domain and a sender. */
  predicate Prepared(b: seq<byte>, domain: byte, source: PortIdentity) {
    && |b| == BUFFER_LEN
    && b[1] % 16 == 2
    && b[DOMAIN_AT] == domain
    && Field(b, SOURCE_AT, PortBytes(source))
  }

  /** A fresh buffer holds nothing but the version, the domain and the sender. */
  predicate Blank(b: seq<byte>, domain: byte, source: PortIdentity) {
    && Prepared(b, domain, source)
    && b[1] == 2
    && forall i :: 0 <= i < BUFFER_LEN && i != 1 && i != 4 && !(20 <= i < 30) ==> b[i] == 0
  }

  /** The layout of a datagram, field by field (IEEE 1588-2019 clause 13). */
  predicate Carries(w: seq<byte>, f: Frame, domain: byte, source: PortIdentity) {
    && |w| == HEADER_LEN + f.length
    && w[0] % 16 == ToNibble(f.kind)
    && w[1] % 16 == 2
    && Field(w, LENGTH_AT, ToBytes(|w|, 2))
    && w[DOMAIN_AT] == domain
    && Field(w, FLAGS_AT, ToBytes(f.flags, 2))
    && Field(w, SOURCE_AT, PortBytes(source))
    && Field(w, SEQUENCE_AT, ToBytes(f.seqId, 2))
    && w[CONTROL_AT] == Control(f.kind)
    && w[LOG_INTERVAL_AT] == LogToByte(f.log)
    && Field(w, HEADER_LEN + f.at, f.body)
  }

  lemma TypedFields(b: seq<byte>, kind: MessageType, domain: byte, source: PortIdentity)
    requires Prepared(b, domain, source)
    ensures var t := Typed(b, kind);
      Prepared(t, domain, source) && t[0] % 16 == ToNibble(kind) && t[CONTROL_AT] == Control(kind)
  {
    var first := [Tagged(b[0], kind)];
    PatchKeeps(b, 0, first, SOURCE_AT, PortBytes(source));
    PatchKeeps(Patch(b, 0, first), CONTROL_AT, [Control(kind)], SOURCE_AT, PortBytes(source));
  }

  lemma HeaderFields(b: seq<byte>, f: Frame, domain: byte, source: PortIdentity)
    requires Prepared(b, domain, source)
    ensures var h := HeaderWritten(b, f);
      && Prepared(h, domain, source)
      && h[0] % 16 == ToNibble(f.kind)
      && Field(h, FLAGS_AT, ToBytes(f.flags, 2))
      && Field(h, SEQUENCE_AT, ToBytes(f.seqId, 2))
      && h[CONTROL_AT] == Control(f.kind)
      && h[LOG_INTERVAL_AT] == LogToByte(f.log)
  {
    var typed := Typed(b, f.kind);
    var flagged := Patch(typed, FLAGS_AT, ToBytes(f.flags, 2));
    var sequenced := Patch(flagged, SEQUENCE_AT, ToBytes(f.seqId, 2));
    TypedFields(b, f.kind, domain, source);
    PatchKeeps(typed, FLAGS_AT, ToBytes(f.flags, 2), SOURCE_AT, PortBytes(source));
    PatchKeeps(flagged, SEQUENCE_AT, ToBytes(f.seqId, 2), SOURCE_AT, PortBytes(source));
    PatchKeeps(flagged, SEQUENCE_AT, ToBytes(f.seqId, 2), FLAGS_AT, ToBytes(f.flags, 2));
    PatchKeeps(sequenced, LOG_INTERVAL_AT, [LogToByte(f.log)], SOURCE_AT, PortBytes(source));
    PatchKeeps(sequenced, LOG_INTERVAL_AT, [LogToByte(f.log)], FLAGS_AT, ToBytes(f.flags, 2));
    PatchKeeps(sequenced, LOG_INTERVAL_AT, [LogToByte(f.log)], SEQUENCE_AT, ToBytes(f.seqId, 2));
  }

  /** The builder chain lays a message out correctly on any prepared buffer, whatever earlier
  messages left in it, and leaves the buffer prepared. */
  lemma WrittenCarries(b: seq<byte>, f: Frame, domain: byte, source: PortIdentity)
    requires Prepared(b, domain, source) && FrameFits(f)
    ensures Prepared(Written(b, f), domain, source)
    ensures Carries(Written(b, f)[..HEADER_LEN + f.length], f, domain, source)
  {
    var h := HeaderWritten(b, f);
    var filled := Patch(h, HEADER_LEN + f.at, f.body);
    var n := HEADER_LEN + f.length;
    HeaderFields(b, f, domain, source);
    KeptByPayload(h, f, SOURCE_AT, PortBytes(source));
    KeptByPayload(h, f, FLAGS_AT, ToBytes(f.flags, 2));
    KeptByPayload(h, f, SEQUENCE_AT, ToBytes(f.seqId, 2));
    PatchKeeps(filled, LENGTH_AT, ToBytes(n, 2), HEADER_LEN + f.at, f.body);
    FieldOfPrefix(Written(b, f), n, HEADER_LEN + f.at, f.body);
    FieldOfPrefix(Written(b, f), n, LENGTH_AT, ToBytes(n, 2));
  }

  /** Neither the payload nor the length overwrites a header field. */
  lemma KeptByPayload(h: seq<byte>, f: Frame, k: nat, y: seq<byte>)
    requires |h| == BUFFER_LEN && FrameFits(f) && Field(h, k, y)
    requires LENGTH_AT + 2 <= k && k + |y| <= HEADER_LEN
    ensures var filled := Patch(h, HEADER_LEN + f.at, f.body);
            var r := Patch(filled, LENGTH_AT, ToBytes(HEADER_LEN + f.length, 2));
            Field(r, k, y) && Field(r[..HEADER_LEN + f.length], k, y)
  {
    var filled := Patch(h, HEADER_LEN + f.at, f.body);
    PatchKeeps(h, HEADER_LEN + f.at, f.body, k, y);
    PatchKeeps(filled, LENGTH_AT, ToBytes(HEADER_LEN + f.length, 2), k, y);
    FieldOfPrefix(Patch(filled, LENGTH_AT, ToBytes(HEADER_LEN + f.length, 2)), HEADER_LEN + f.length, k, y);
  }

  // ---- Round trips ----

  /** The header of a well laid out datagram reads back. */
  lemma HeaderReadsBack(w: seq<byte>, f: Frame, domain: byte, source: PortIdentity, local: byte)
    requires Carries(w, f, domain, source) && FrameFits(f)
    ensures HeaderError(w, local) == if local == domain then None else Some(DomainNotFound(domain))
    ensures FromNibble(w[0] % 16) == Ok(f.kind)
    ensures SourceOf(w) == source
    ensures SequenceOf(w) == f.seqId
    ensures FlagsOf(w) == f.flags
    ensures LogFromByte(w[LOG_INTERVAL_AT]) == f.log
    ensures w[HEADER_LEN..][f.at..f.at + |f.body|] == f.body
  {
    Widths();
    NumberRoundTrip(|w|, 2);
    NumberRoundTrip(f.seqId, 2);
    NumberRoundTrip(f.flags, 2);
    PortRoundTrip(source);
    var payload := w[HEADER_LEN..];
    assert payload[f.at..f.at + |f.body|] == w[HEADER_LEN + f.at..HEADER_LEN + f.at + |f.body|];
  }

  /** Every datagram that carries an event message parses to that message and its sender in the
  sender's domain, is refused in any other domain, and is refused as a general message. */
  lemma EventRoundTrip(w: seq<byte>, m: EventMessage, domain: byte, source: PortIdentity, local: byte)
    requires Carries(w, EventFrame(m), domain, source)
    ensures ReceiveEvent(w, local) ==
            if local == domain then Ok(Received(source, m)) else Err(DomainNotFound(domain))
    ensures ReceiveGeneral(w, local) ==
            Err(if local == domain then UnknownMessageType(w[0] % 16) else DomainNotFound(domain))
  {
    HeaderReadsBack(w, EventFrame(m), domain, source, local);
    if m.OneStepSync? {
      StampRoundTrip(m.origin);
    }
  }

  /** The general message a receiver sees in place of `m`. */
  function Seen(m: GeneralMessage): GeneralMessage {
    if m.Announce? then m.(ds := Transit(m.ds)) else m
  }

  predicate Canonical(m: GeneralMessage) {
    m.Announce? ==> CanonicalDataset(m.ds)
  }

  /** A payload that holds the body of `m` is read as `m`, up to the wire's effect on datasets. */
  lemma GeneralBodyReadsBack(m: GeneralMessage, payload: seq<byte>)
    requires var f := GeneralFrame(m);
      |payload| == f.length && payload[f.at..f.at + |f.body|] == f.body
    ensures var f := GeneralFrame(m);
      GeneralOf(f.kind, f.seqId, f.flags, f.log, payload) == Ok(Seen(m))
  {
    var f := GeneralFrame(m);
    match m
    case Announce(_, _, ds, _) => DatasetRoundTrip(ds);
    case FollowUp(_, _, origin) => StampRoundTrip(origin);
    case DelayResp(_, _, received, requester) =>
      StampRoundTrip(received);
      PortRoundTrip(requester);
      assert f.body[0..10] == StampBytes(received) && f.body[10..20] == PortBytes(requester);
      assert payload[0..10] == f.body[0..10] && payload[10..20] == f.body[10..20];
  }

  /** As `EventRoundTrip` for general messages: the message comes back exactly when it is
  canonical. */
  lemma GeneralRoundTrip(w: seq<byte>, m: GeneralMessage, domain: byte, source: PortIdentity, local: byte)
    requires Carries(w, GeneralFrame(m), domain, source)
    ensures ReceiveGeneral(w, local) ==
            if local == domain then Ok(Received(source, Seen(m))) else Err(DomainNotFound(domain))
    ensures Seen(m) == m <==> Canonical(m)
    ensures ReceiveEvent(w, local) ==
            Err(if local == domain then UnknownMessageType(w[0] % 16) else DomainNotFound(domain))
  {
    HeaderReadsBack(w, GeneralFrame(m), domain, source, local);
    GeneralBodyReadsBack(m, w[HEADER_LEN..]);
    if m.Announce? {
      DatasetRoundTrip(m.ds);
    }
  }

  /** Whatever parses can be sent on unchanged: for every byte string, a received general message
  is canonical, so printing it on any prepared buffer and parsing again returns it. */
  lemma ReceivedGeneralRelays(w: seq<byte>, local: byte, b: seq<byte>, domain: byte, source: PortIdentity)
    requires ReceiveGeneral(w, local).Ok? && Prepared(b, domain, source)
    ensures var m := ReceiveGeneral(w, local).value.message;
      && Canonical(m)
      && ReceiveGeneral(Written(b, GeneralFrame(m))[..HEADER_LEN + GeneralFrame(m).length], domain)
         == Ok(Received(source, m))
  {
    var m := ReceiveGeneral(w, local).value.message;
    if m.Announce? {
      DatasetBytesRoundTrip(w[HEADER_LEN..][13..29]);
    }
    WrittenCarries(b, GeneralFrame(m), domain, source);
    GeneralRoundTrip(Written(b, GeneralFrame(m))[..HEADER_LEN + GeneralFrame(m).length], m, domain, source, domain);
  }

  /** The checks that do not depend on the message type. */
  predicate Framed(w: seq<byte>, domain: byte) {
    && HEADER_LEN <= |w| < 0x1_0000
    && w[1] % 16 == 2
    && Field(w, LENGTH_AT, ToBytes(|w|, 2))
    && w[DOMAIN_AT] == domain
  }

  lemma FramedExactly(w: seq<byte>, domain: byte)
    ensures HeaderError(w, domain) == None <==> Framed(w, domain)
  {
    if |w| >= HEADER_LEN {
      Widths();
      BytesRoundTrip(w[LENGTH_AT..LENGTH_AT + 2]);
      if |w| < 0x1_0000 { NumberRoundTrip(|w|, 2); }
    }
  }

  /** A whole timestamp with a legal nanosecond field follows the header. */
  predicate LegalStamp(w: seq<byte>) {
    |w| >= 44 && FromBytes(w[40..44]) < NANOS_PER_SECOND
  }

  lemma SliceOfSlice(w: seq<byte>, i: nat, j: nat, k: nat, l: nat)
    requires i <= j <= |w| && k <= l <= j - i
    ensures w[i..j][k..l] == w[i + k..i + l]
  {
    var inner, outer := w[i..j][k..l], w[i + k..i + l];
    assert forall n :: 0 <= n < l - k ==> inner[n] == outer[n];
    assert inner == outer;
  }

  lemma LegalStampExactly(w: seq<byte>, field: string)
    requires |w| >= HEADER_LEN
    ensures StampField(w[HEADER_LEN..], field).Ok? <==> LegalStamp(w)
  {
    if |w| >= 44 {
      var stamp := w[34..44];
      assert w[HEADER_LEN..][0..10] == stamp;
      SliceOfSlice(w, 34, 44, 6, 10);
    }
  }

  /** Exactly which byte strings are event messages and which are general ones. */
  lemma AcceptedExactly(w: seq<byte>, domain: byte)
    ensures ReceiveEvent(w, domain).Ok? <==>
      && Framed(w, domain)
      && (w[0] % 16 == 1 || (w[0] % 16 == 0 && (w[FLAGS_AT] / 2 % 2 == 1 || LegalStamp(w))))
    ensures ReceiveGeneral(w, domain).Ok? <==>
      && Framed(w, domain)
      && (|| (w[0] % 16 == 0xB && |w| >= 63)
          || (w[0] % 16 == 8 && LegalStamp(w))
          || (w[0] % 16 == 9 && LegalStamp(w) && |w| >= 54))
  {
    FramedExactly(w, domain);
    if |w| >= HEADER_LEN {
      TwoStepBit(w[FLAGS_AT..FLAGS_AT + 2]);
      LegalStampExactly(w, "Sync.origin_timestamp");
      LegalStampExactly(w, "FollowUp.precise_origin_timestamp");
      LegalStampExactly(w, "DelayResponse.receive_timestamp");
    }
  }

  lemma TwoStepBit(b: seq<byte>)
    requires |b| == 2
    ensures HasFlag(FromBytes(b), TWO_STEP) <==> b[0] / 2 % 2 == 1
  {
    assert b[..1][..0] == [];
    var high: int, low: int := b[0], b[1];
    assert FromBytes(b[..1]) == high;
    assert FromBytes(b) == 256 * high + low;
    assert (256 * high + low) / 512 == high / 2;
  }

  // ---- The buffer, in place ----

  /** `copy_from_slice`. */
  method CopyFrom(dst: array<byte>, at: nat, src: seq<byte>)
    requires at + |src| <= dst.Length
    modifies dst
    ensures dst[..] == Patch(old(dst[..]), at, src)
  {
    for i := 0 to |src|
      invariant forall k :: 0 <= k < dst.Length ==>
        dst[k] == if at <= k < at + i then src[k - at] else old(dst[k])
    {
      dst[at + i] := src[i];
    }
  }

  /** `ClockDS::to_wire` fills a zeroed local array. */
  method DatasetToWire(ds: ClockDS) returns (bytes: array<byte>)
    ensures fresh(bytes) && bytes[..] == DatasetBytes(ds)
  {
    bytes := new byte[DATASET_LEN](_ => 0);
    bytes[0] := ds.priority1;
    CopyFrom(bytes, 1, [ClassValue(ds.quality.clockClass), AccuracyValue(ds.quality.accuracy)]
                       + ToBytes(ds.quality.variance, 2));
    bytes[5] := ds.priority2;
    CopyFrom(bytes, 6, ToBytes(ds.identity, 8));
    CopyFrom(bytes, 14, ToBytes(ds.steps, 2));
    assert forall i :: 0 <= i < DATASET_LEN ==> bytes[..][i] == DatasetBytes(ds)[i];
  }

  class MessageBuffer {
    const buf: array<byte>

    ghost predicate Valid(domain: byte, source: PortIdentity)
      reads buf
    {
      Prepared(buf[..], domain, source)
    }

    constructor (domain: byte, source: PortIdentity)
      ensures fresh(buf)
      ensures Valid(domain, source)
      ensures Blank(buf[..], domain, source)
    {
      var bytes := new byte[BUFFER_LEN](_ => 0);
      bytes[1] := 2;
      bytes[DOMAIN_AT] := domain;
      CopyFrom(bytes, SOURCE_AT, PortBytes(source));
      buf := bytes;
    }

    method WithMessageType(kind: MessageType)
      requires buf.Length == BUFFER_LEN
      modifies buf
      ensures buf[..] == Typed(old(buf[..]), kind)
    {
      CopyFrom(buf, 0, [Tagged(buf[0], kind)]);
      CopyFrom(buf, CONTROL_AT, [Control(kind)]);
    }

    method WithHeader(f: Frame)
      requires buf.Length == BUFFER_LEN
      modifies buf
      ensures buf[..] == HeaderWritten(old(buf[..]), f)
    {
      WithMessageType(f.kind);
      CopyFrom(buf, FLAGS_AT, ToBytes(f.flags, 2));
      CopyFrom(buf, SEQUENCE_AT, ToBytes(f.seqId, 2));
      CopyFrom(buf, LOG_INTERVAL_AT, [LogToByte(f.log)]);
    }

    method Finalize(length: nat) returns (wire: seq<byte>)
      requires buf.Length == BUFFER_LEN && HEADER_LEN + length <= BUFFER_LEN
      modifies buf
      ensures buf[..] == Patch(old(buf[..]), LENGTH_AT, ToBytes(HEADER_LEN + length, 2))
      ensures wire == buf[..HEADER_LEN + length]
    {
      CopyFrom(buf, LENGTH_AT, ToBytes(HEADER_LEN + length, 2));
      wire := buf[..HEADER_LEN + length];
    }

    /** `to_wire` of either message class: the buffer may hold earlier messages. */
    method ToWire(f: Frame, ghost domain: byte, ghost source: PortIdentity) returns (wire: seq<byte>)
      requires Valid(domain, source) && FrameFits(f)
      modifies buf
      ensures Valid(domain, source)
      ensures buf[..] == Written(old(buf[..]), f) && wire == buf[..HEADER_LEN + f.length]
      ensures Carries(wire, f, domain, source)
    {
      WrittenCarries(buf[..], f, domain, source);
      WithHeader(f);
      CopyFrom(buf, HEADER_LEN + f.at, f.body);
      wire := Finalize(f.length);
      assert wire == buf[..][..HEADER_LEN + f.length];
    }
  }
}
