/** The datagrams of the five message types octet by octet, as plain as the standard's tables (IEEE
1588-2019 clause 13), and the proof that the printer and the parser agree with them. */
module Datagram {
  import opened Base
  import opened Clock
  import opened Dataset
  import opened Messages
  import opened Time
  import opened Wire

  // ---- What a datagram is ----

  function Zeros(n: nat): (r: seq<byte>)
    ensures |r| == n && forall i :: 0 <= i < n ==> r[i] == 0
  {
    seq(n, _ => 0)
  }

  /** The 34 header octets of a datagram shorter than 256 octets. */
  function Header(kind: byte, length: byte, domain: byte, flagsHigh: byte, flagsLow: byte,
                  source: PortIdentity, seqId: uint16, control: byte, log: byte): (r: seq<byte>)
    ensures |r| == 34
  {
    [kind, 2, 0, length, domain, 0, flagsHigh, flagsLow]
    + Zeros(12)
    + (ToBytes(source.clock, 8) + ToBytes(source.port, 2))
    + ToBytes(seqId, 2)
    + [control, log]
  }

  /** Two's complement. */
  function Octet(log: int8): byte {
    if log < 0 then 256 + log else log
  }

  function StampOctets(t: TimeStamp): seq<byte> {
    ToBytes(t.seconds, 6) + ToBytes(t.nanos, 4)
  }

  function EventDatagram(m: EventMessage, domain: byte, source: PortIdentity): seq<byte> {
    match m
    case DelayReq(id) => Header(0x1, 44, domain, 0, 0, source, id, 1, 0x7F) + Zeros(10)
    case OneStepSync(id, log, origin) => Header(0x0, 44, domain, 0, 0, source, id, 0, Octet(log)) + StampOctets(origin)
    case TwoStepSync(id, log) => Header(0x0, 44, domain, 2, 0, source, id, 0, Octet(log)) + Zeros(10)
  }

  function GeneralDatagram(m: GeneralMessage, domain: byte, source: PortIdentity): seq<byte> {
    match m
    case Announce(id, log, ds, scale) =>
      Header(0xB, 64, domain, 0, if scale == Ptp then 8 else 0, source, id, 5, Octet(log))
      + Zeros(13)
      + ([ds.priority1, ClassValue(ds.quality.clockClass), AccuracyValue(ds.quality.accuracy)]
         + ToBytes(ds.quality.variance, 2) + [ds.priority2] + ToBytes(ds.identity, 8) + ToBytes(ds.steps, 2))
      + [0]
    case FollowUp(id, log, origin) => Header(0x8, 44, domain, 0, 0, source, id, 2, Octet(log)) + StampOctets(origin)
    case DelayResp(id, log, received, requester) =>
      Header(0x9, 54, domain, 0, 0, source, id, 3, Octet(log))
      + (StampOctets(received) + (ToBytes(requester.clock, 8) + ToBytes(requester.port, 2)))
  }

  // ---- What a byte string means ----

  function Signed(octet: byte): int8 {
    if octet < 128 then octet else octet - 256
  }

  function ReadSeconds(b: seq<byte>): (r: nat)
    requires |b| == 6
    ensures r < 281_474_976_710_656
  {
    BytesRoundTrip(b);
    Widths();
    assert Pow256(6) == 65536 * Pow256(4);
    FromBytes(b)
  }

  /** The first failed check decides the error; octets 34 to 43 are the only timestamp position. */
  function HeaderFault(w: seq<byte>, domain: byte): Option<WireError> {
    if |w| < 34 then Some(HeaderTooShort(|w|))
    else if w[1] % 16 != 2 then Some(UnsupportedPtpVersion(w[1] % 16))
    else if ReadU16(w[2..4]) != |w| then Some(LengthMismatch(ReadU16(w[2..4]), |w|))
    else if w[4] != domain then Some(DomainNotFound(w[4]))
    else None
  }

  function Sender(w: seq<byte>): PortIdentity
    requires |w| >= 34
  {
    PortIdentity(ReadIdentity(w[20..28]), ReadU16(w[28..30]))
  }

  function StampAt34(w: seq<byte>, field: string): Result<TimeStamp, WireError>
    requires |w| >= 34
  {
    if |w| < 44 then Err(PayloadTooShort(field, 10, |w| - 34))
    else if ReadU32(w[40..44]) >= 1_000_000_000 then Err(InvalidTimestamp(ReadU32(w[40..44])))
    else Ok(Stamp(ReadSeconds(w[34..40]), ReadU32(w[40..44])))
  }

  function EventMeaning(w: seq<byte>, domain: byte): Result<Received<EventMessage>, WireError> {
    if HeaderFault(w, domain).Some? then Err(HeaderFault(w, domain).value)
    else
      var id, log := ReadU16(w[30..32]), Signed(w[33]);
      if w[0] % 16 == 1 then Ok(Received(Sender(w), DelayReq(id)))
      else if w[0] % 16 != 0 then Err(UnknownMessageType(w[0] % 16))
      else if w[6] / 2 % 2 == 1 then Ok(Received(Sender(w), TwoStepSync(id, log)))
      else
        match StampAt34(w, "Sync.origin_timestamp")
        case Err(e) => Err(e)
        case Ok(t) => Ok(Received(Sender(w), OneStepSync(id, log, t)))
  }

  function DatasetAt47(w: seq<byte>): ClockDS
    requires |w| >= 63
  {
    ClockDS(
      ReadIdentity(w[53..61]),
      w[47],
      w[52],
      ClockQuality(ClassOf(w[48]), AccuracyOf(w[49]), ReadU16(w[50..52])),
      ReadU16(w[61..63]))
  }

  function GeneralMeaning(w: seq<byte>, domain: byte): Result<Received<GeneralMessage>, WireError> {
    if HeaderFault(w, domain).Some? then Err(HeaderFault(w, domain).value)
    else
      var id, log := ReadU16(w[30..32]), Signed(w[33]);
      match w[0] % 16
      case 0xB =>
        if |w| < 63 then Err(PayloadTooShort("Announce.foreign_clock_ds", 16, if |w| < 47 then 0 else |w| - 47))
        else Ok(Received(Sender(w), Announce(id, log, DatasetAt47(w), if w[7] / 8 % 2 == 1 then Ptp else Arb)))
      case 0x8 => (
        match StampAt34(w, "FollowUp.precise_origin_timestamp")
        case Err(e) => Err(e)
        case Ok(t) => Ok(Received(Sender(w), FollowUp(id, log, t)))
      )
      case 0x9 => (
        match StampAt34(w, "DelayResponse.receive_timestamp")
        case Err(e) => Err(e)
        case Ok(t) =>
          if |w| < 54 then Err(PayloadTooShort("DelayResponse.requesting_port_identity", 10, |w| - 44))
          else Ok(Received(Sender(w), DelayResp(id, log, t, PortIdentity(ReadIdentity(w[44..52]), ReadU16(w[52..54])))))
      )
      case nibble => Err(UnknownMessageType(nibble))
  }

  // ---- The parser ----

  lemma SixOctets(b: seq<byte>)
    requires |b| == 6
    ensures FromBytes(b) == FromBytes(b[0..2]) * 0x1_0000_0000 + FromBytes(b[2..6])
  {
    FourMore(b[0..2], b[2..6]);
    assert b[0..2] + b[2..6] == b;
  }

  lemma FourMore(x: seq<byte>, y: seq<byte>)
    requires |y| == 4
    ensures FromBytes(x + y) == FromBytes(x) * 0x1_0000_0000 + FromBytes(y)
  {
    var y1, y2 := y[..2], y[2..];
    assert y == y1 + y2 && x + y == (x + y1) + y2;
    TwoMore(x + y1, y2);
    TwoMore(x, y1);
    TwoMore(y1, y2);
  }

  lemma TwoMore(x: seq<byte>, y: seq<byte>)
    requires |y| == 2
    ensures FromBytes(x + y) == FromBytes(x) * 65536 + FromBytes(y)
  {
    var a, b := y[0], y[1];
    assert x + y == (x + [a]) + [b] && y == [a] + [b] && [a] == [] + [a];
    OneMore(x + [a], b);
    OneMore(x, a);
    OneMore([a], b);
    OneMore([], a);
  }

  lemma OneMore(x: seq<byte>, d: byte)
    ensures FromBytes(x + [d]) == 256 * FromBytes(x) + d
  {
    assert (x + [d])[..|x|] == x;
  }

  lemma PortReads(w: seq<byte>, at: nat)
    requires at + 10 <= |w|
    ensures PortFrom(w[at..at + 10]) == PortIdentity(ReadIdentity(w[at..at + 8]), ReadU16(w[at + 8..at + 10]))
  {
    SliceOfSlice(w, at, at + 10, 0, 8);
    SliceOfSlice(w, at, at + 10, 8, 10);
  }

  lemma StampReads(w: seq<byte>, field: string)
    requires |w| >= 34
    ensures StampField(w[34..], field) == StampAt34(w, field)
  {
    if |w| >= 44 {
      assert w[34..][0..10] == w[34..44];
      SliceOfSlice(w, 34, 44, 0, 2);
      SliceOfSlice(w, 34, 44, 2, 6);
      SliceOfSlice(w, 34, 44, 6, 10);
      SliceOfSlice(w, 34, 40, 0, 2);
      SliceOfSlice(w, 34, 40, 2, 6);
      SixOctets(w[34..40]);
    }
  }

  lemma DatasetReads(w: seq<byte>)
    requires |w| >= 63
    ensures DatasetFrom(w[34..][13..29]) == DatasetAt47(w)
  {
    assert w[34..][13..29] == w[47..63];
    SliceOfSlice(w, 47, 63, 3, 5);
    SliceOfSlice(w, 47, 63, 6, 14);
    SliceOfSlice(w, 47, 63, 14, 16);
  }

  lemma DatasetFieldReads(w: seq<byte>)
    requires |w| >= 34
    ensures DatasetField(w[34..]) ==
              if |w| < 63 then Err(PayloadTooShort("Announce.foreign_clock_ds", 16, if |w| < 47 then 0 else |w| - 47))
              else Ok(DatasetAt47(w))
  {
    if |w| >= 63 {
      DatasetReads(w);
    }
  }

  lemma RequesterReads(w: seq<byte>)
    requires |w| >= 44
    ensures RequesterField(w[34..]) ==
              if |w| < 54 then Err(PayloadTooShort("DelayResponse.requesting_port_identity", 10, |w| - 44))
              else Ok(PortIdentity(ReadIdentity(w[44..52]), ReadU16(w[52..54])))
  {
    if |w| >= 54 {
      assert w[34..][10..20] == w[44..54];
      PortReads(w, 44);
    }
  }

  lemma FlagBits(w: seq<byte>)
    requires |w| >= 34
    ensures HasFlag(FlagsOf(w), TWO_STEP) <==> w[6] / 2 % 2 == 1
    ensures HasFlag(FlagsOf(w), PTP_TIMESCALE) <==> w[7] / 8 % 2 == 1
  {
    var b := w[6..8];
    TwoStepBit(b);
    assert b[..1] == [] + [b[0]] && b == b[..1] + [b[1]];
    OneMore([], b[0]);
    OneMore(b[..1], b[1]);
    var high: int, low: int := b[0], b[1];
    assert FromBytes(b) == 256 * high + low;
    assert (256 * high + low) / 8 == 32 * high + low / 8;
  }

  lemma HeaderReads(w: seq<byte>, domain: byte)
    ensures HeaderError(w, domain) == HeaderFault(w, domain)
    ensures |w| >= 34 ==>
              && SourceOf(w) == Sender(w)
              && SequenceOf(w) == ReadU16(w[30..32])
              && LogFromByte(w[LOG_INTERVAL_AT]) == Signed(w[33])
  {
    if |w| >= 34 {
      PortReads(w, 20);
    }
  }

  /** The parser reads every byte string, in every domain, as the octet tables say: the message, the
  sender, and which error where. */
  lemma EventParserReadsOctets(w: seq<byte>, domain: byte)
    ensures ReceiveEvent(w, domain) == EventMeaning(w, domain)
  {
    HeaderReads(w, domain);
    if |w| >= 34 {
      FlagBits(w);
      StampReads(w, "Sync.origin_timestamp");
    }
  }

  lemma GeneralParserReadsOctets(w: seq<byte>, domain: byte)
    ensures ReceiveGeneral(w, domain) == GeneralMeaning(w, domain)
  {
    HeaderReads(w, domain);
    if |w| >= 34 {
      FlagBits(w);
      StampReads(w, "FollowUp.precise_origin_timestamp");
      StampReads(w, "DelayResponse.receive_timestamp");
      DatasetFieldReads(w);
      if |w| >= 44 {
        RequesterReads(w);
      }
    }
  }

  // ---- The printer ----

  /** What a frame is on the wire when nothing was in the buffer before. */
  function FrameDatagram(f: Frame, domain: byte, source: PortIdentity): seq<byte>
    requires FrameFits(f) && f.length < 222
  {
    Header(ToNibble(f.kind), 34 + f.length, domain, f.flags / 256, f.flags % 256, source, f.seqId, Control(f.kind), Octet(f.log))
    + Zeros(f.at) + f.body + Zeros(f.length - f.at - |f.body|)
  }

  /** What the builder chain leaves alone. */
  lemma RestIsKept(b: seq<byte>, f: Frame)
    requires |b| == BUFFER_LEN && FrameFits(f)
    ensures var r := Written(b, f);
      && r[0] / 16 == b[0] / 16
      && r[1] == b[1] && r[4] == b[4] && r[5] == b[5]
      && (forall i :: 8 <= i < 30 ==> r[i] == b[i])
      && (forall i :: 34 <= i < BUFFER_LEN && !(34 + f.at <= i < 34 + f.at + |f.body|) ==> r[i] == b[i])
  {
    var typed := Typed(b, f.kind);
    assert typed[0] == Tagged(b[0], f.kind);
  }

  lemma TwoOctets(x: nat)
    requires x < 65536
    ensures ToBytes(x, 2) == [x / 256, x % 256]
  {
    assert ToBytes(x / 256, 1) == ToBytes(x / 256 / 256, 0) + [x / 256 % 256];
  }

  /** On a fresh buffer the builder chain prints exactly the frame's datagram. */
  lemma FreshFrame(b: seq<byte>, f: Frame, domain: byte, source: PortIdentity)
    requires Blank(b, domain, source) && FrameFits(f) && f.length < 222
    ensures Written(b, f)[..34 + f.length] == FrameDatagram(f, domain, source)
  {
    var w := Written(b, f)[..34 + f.length];
    FreshHeader(b, f, domain, source);
    FreshPayload(b, f, domain, source);
    assert w == w[..34] + w[34..];
  }

  lemma ZeroSlice(w: seq<byte>, i: nat, j: nat)
    requires i <= j <= |w| && forall k :: i <= k < j ==> w[k] == 0
    ensures w[i..j] == Zeros(j - i)
  {
    var slice, zeros := w[i..j], Zeros(j - i);
    assert forall k :: 0 <= k < j - i ==> slice[k] == zeros[k];
    assert slice == zeros;
  }

  lemma UntouchedIsZero(b: seq<byte>, f: Frame, domain: byte, source: PortIdentity)
    requires Blank(b, domain, source) && FrameFits(f)
    ensures var w := Written(b, f)[..34 + f.length];
            forall i :: 34 <= i < |w| && !(34 + f.at <= i < 34 + f.at + |f.body|) ==> w[i] == 0
  {
    RestIsKept(b, f);
  }

  lemma FreshPayload(b: seq<byte>, f: Frame, domain: byte, source: PortIdentity)
    requires Blank(b, domain, source) && FrameFits(f) && f.length < 222
    ensures Written(b, f)[..34 + f.length][34..] == Zeros(f.at) + f.body + Zeros(f.length - f.at - |f.body|)
  {
    var n, start, end := 34 + f.length, 34 + f.at, 34 + f.at + |f.body|;
    var w := Written(b, f)[..n];
    UntouchedIsZero(b, f, domain, source);
    assert w[start..end] == f.body by {
      WrittenCarries(b, f, domain, source);
    }
    ZeroSlice(w, 34, start);
    ZeroSlice(w, end, n);
    ThreeParts(w, 34, start, end);
  }

  lemma ThreeParts(w: seq<byte>, i: nat, j: nat, k: nat)
    requires i <= j <= k <= |w|
    ensures w[i..] == w[i..j] + w[j..k] + w[k..|w|]
  {
    assert w[i..] == w[i..j] + w[j..];
    assert w[j..] == w[j..k] + w[k..|w|];
    assert w[i..j] + (w[j..k] + w[k..|w|]) == w[i..j] + w[j..k] + w[k..|w|];
  }

  lemma FirstOctets(w: seq<byte>, f: Frame, domain: byte, source: PortIdentity)
    requires FrameFits(f) && f.length < 222 && Carries(w, f, domain, source)
    requires w[0] < 16 && w[1] == 2 && w[5] == 0
    ensures w[0..8] == [ToNibble(f.kind), 2, 0, 34 + f.length, domain, 0, f.flags / 256, f.flags % 256]
  {
    TwoOctets(34 + f.length);
    TwoOctets(f.flags);
    var length, flags := w[2..4], w[6..8];
    assert w[2] == length[0] && w[3] == length[1] && w[6] == flags[0] && w[7] == flags[1];
  }

  lemma FreshHeader(b: seq<byte>, f: Frame, domain: byte, source: PortIdentity)
    requires Blank(b, domain, source) && FrameFits(f) && f.length < 222
    ensures var w := Written(b, f)[..34 + f.length];
      w[..34] == Header(ToNibble(f.kind), 34 + f.length, domain, f.flags / 256, f.flags % 256, source, f.seqId,
                        Control(f.kind), Octet(f.log))
  {
    var w := Written(b, f)[..34 + f.length];
    WrittenCarries(b, f, domain, source);
    RestIsKept(b, f);
    FirstOctets(w, f, domain, source);
    ZeroSlice(w, 8, 20);
    assert w[20..30] == ToBytes(source.clock, 8) + ToBytes(source.port, 2);
    assert w[32..34] == [Control(f.kind), Octet(f.log)];
    assert w[..34] == w[0..8] + w[8..20] + w[20..30] + w[30..32] + w[32..34];
  }

  /** Sixteen high and thirty-two low bits of the seconds are one 48-bit number on the wire. */
  lemma StampOctetsAreBytes(t: TimeStamp)
    ensures StampBytes(t) == StampOctets(t)
  {
    var high, low := t.seconds / 0x1_0000_0000, t.seconds % 0x1_0000_0000;
    var b := ToBytes(high, 2) + ToBytes(low, 4);
    Widths();
    NumberRoundTrip(high, 2);
    NumberRoundTrip(low, 4);
    assert b[0..2] == ToBytes(high, 2) && b[2..6] == ToBytes(low, 4);
    SixOctets(b);
    BytesRoundTrip(b);
    assert FromBytes(b) == t.seconds;
  }

  lemma EventFrameIsDatagram(m: EventMessage, domain: byte, source: PortIdentity)
    ensures FrameDatagram(EventFrame(m), domain, source) == EventDatagram(m, domain, source)
  {
    if m.OneStepSync? {
      StampOctetsAreBytes(m.origin);
    }
  }

  lemma GeneralFrameIsDatagram(m: GeneralMessage, domain: byte, source: PortIdentity)
    ensures FrameDatagram(GeneralFrame(m), domain, source) == GeneralDatagram(m, domain, source)
  {
    match m
    case Announce(_, _, ds, _) => assert Zeros(1) == [0];
    case FollowUp(_, _, origin) => StampOctetsAreBytes(origin);
    case DelayResp(_, _, received, _) => StampOctetsAreBytes(received);
  }

  /** `DomainPort::send_event` up to the physical port: the datagram of the message, which is received
  as that message from that port, and only in its domain. */
  method SendEvent(m: EventMessage, domain: byte, source: PortIdentity) returns (wire: seq<byte>)
    ensures wire == EventDatagram(m, domain, source)
    ensures ReceiveEvent(wire, domain) == Ok(Received(source, m))
    ensures forall local: byte :: local != domain ==> ReceiveEvent(wire, local) == Err(DomainNotFound(domain))
  {
    var buffer := new MessageBuffer(domain, source);
    FreshFrame(buffer.buf[..], EventFrame(m), domain, source);
    wire := buffer.ToWire(EventFrame(m), domain, source);
    EventFrameIsDatagram(m, domain, source);
    assert wire == buffer.buf[..][..34 + EventFrame(m).length];
    forall local: byte
      ensures ReceiveEvent(wire, local) ==
              if local == domain then Ok(Received(source, m)) else Err(DomainNotFound(domain))
    {
      EventRoundTrip(wire, m, domain, source, local);
    }
  }

  /** `DomainPort::send_general` up to the physical port. */
  method SendGeneral(m: GeneralMessage, domain: byte, source: PortIdentity) returns (wire: seq<byte>)
    ensures wire == GeneralDatagram(m, domain, source)
    ensures ReceiveGeneral(wire, domain) == Ok(Received(source, Seen(m)))
    ensures ReceiveGeneral(wire, domain) == Ok(Received(source, m)) <==> Canonical(m)
    ensures forall local: byte :: local != domain ==> ReceiveGeneral(wire, local) == Err(DomainNotFound(domain))
  {
    var buffer := new MessageBuffer(domain, source);
    FreshFrame(buffer.buf[..], GeneralFrame(m), domain, source);
    wire := buffer.ToWire(GeneralFrame(m), domain, source);
    GeneralFrameIsDatagram(m, domain, source);
    assert wire == buffer.buf[..][..34 + GeneralFrame(m).length];
    forall local: byte
      ensures ReceiveGeneral(wire, local) ==
              if local == domain then Ok(Received(source, Seen(m))) else Err(DomainNotFound(domain))
      ensures Seen(m) == m <==> Canonical(m)
    {
      GeneralRoundTrip(wire, m, domain, source, local);
    }
  }
}
