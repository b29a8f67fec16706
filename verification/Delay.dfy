/** The end-to-end delay mechanism: message windows and the offset sample drawn from them. */
module Delay {
  import opened Base
  import opened Clock
  import opened Messages
  import opened Time

  // ----- Offset samples

  datatype RawSample = Sample(ingress: TimeStamp, offset: TimeInterval)

  const OFFSET_BOUND: int := 0x2_0000_0000_0000

  /** `ServoSample`. Every offset the mechanism can produce is within 2^49 seconds, which keeps all
  later interval arithmetic clear of `i64` overflow. */
  type ServoSample = s: RawSample | -OFFSET_BOUND <= s.offset.seconds <= OFFSET_BOUND
    witness Sample(Stamp(0, 0), Interval(0, 0))

  /** `(ms_offset - sm_offset).half()` for the four timestamps of an exchange. */
  function Offset(t1: TimeStamp, t2: TimeStamp, t3: TimeStamp, t4: TimeStamp): (r: TimeInterval)
    ensures TotalNanos(r) == TruncatedHalf((StampNanos(t2) - StampNanos(t1)) - (StampNanos(t4) - StampNanos(t3)))
    ensures -OFFSET_BOUND <= r.seconds <= OFFSET_BOUND
  {
    Half(IntervalDifference(StampDifference(t2, t1), StampDifference(t4, t3)).value)
  }

  /** With true offset `theta` and path delays `d1` and `d2`, all in nanoseconds, the sample is off
  by at most half the asymmetry, rounded up, and is exact on a symmetric path. */
  lemma OffsetIsAccurate(t1: TimeStamp, t2: TimeStamp, t3: TimeStamp, t4: TimeStamp, theta: int, d1: int, d2: int)
    requires StampNanos(t2) == StampNanos(t1) + d1 + theta
    requires StampNanos(t4) == StampNanos(t3) + d2 - theta
    ensures Abs(TotalNanos(Offset(t1, t2, t3, t4)) - theta) <= (Abs(d1 - d2) + 1) / 2
    ensures d1 == d2 ==> TotalNanos(Offset(t1, t2, t3, t4)) == theta
  {
    assert (StampNanos(t2) - StampNanos(t1)) - (StampNanos(t4) - StampNanos(t3)) == 2 * theta + (d1 - d2);
  }

  // ----- Message windows

  datatype OneStep = SeenOneStep(seqId: uint16, origin: TimeStamp, ingress: TimeStamp)
  datatype TwoStep = SeenTwoStep(seqId: uint16, ingress: TimeStamp)
  datatype Follow = SeenFollowUp(seqId: uint16, origin: TimeStamp)
  datatype Request = SeenRequest(seqId: uint16, egress: TimeStamp)
  datatype Response = SeenResponse(seqId: uint16, received: TimeStamp)

  /** The fields of `EndToEndDelayMechanism`; `nextRequest` is the sequence id of its cycle. */
  datatype Mechanism = Mechanism(
    nextRequest: uint16,
    oneStep: Option<OneStep>,
    twoStep: Option<TwoStep>,
    followUp: Option<Follow>,
    request: Option<Request>,
    response: Option<Response>,
    syncIngress: Option<TimeStamp>)

  const FRESH: Mechanism := Mechanism(0, None, None, None, None, None, None)

  function WithOneStep(m: Mechanism, s: OneStep): Mechanism {
    m.(oneStep := Some(s), syncIngress := Some(s.ingress))
  }

  function WithTwoStep(m: Mechanism, s: TwoStep): Mechanism {
    m.(oneStep := None, twoStep := Some(s), syncIngress := Some(s.ingress))
  }

  /** Origin and ingress time of the Sync side, once complete. */
  function SyncSide(m: Mechanism): Option<(TimeStamp, TimeStamp)> {
    if m.oneStep.Some? then Some((m.oneStep.value.origin, m.oneStep.value.ingress))
    else if m.followUp.Some? && m.twoStep.Some? && m.followUp.value.seqId == m.twoStep.value.seqId then
      Some((m.followUp.value.origin, m.twoStep.value.ingress))
    else None
  }

  /** Egress and receive time of the Delay side, once complete. */
  function DelaySide(m: Mechanism): Option<(TimeStamp, TimeStamp)> {
    if m.response.Some? && m.request.Some? && m.response.value.seqId == m.request.value.seqId then
      Some((m.request.value.egress, m.response.value.received))
    else None
  }

  function SampleOf(m: Mechanism): Option<ServoSample> {
    if SyncSide(m).Some? && DelaySide(m).Some? && m.syncIngress.Some? then
      var (t1, t2) := SyncSide(m).value;
      var (t3, t4) := DelaySide(m).value;
      Some(Sample(m.syncIngress.value, Offset(t1, t2, t3, t4)))
    else None
  }

  // ----- The mechanism as a function of everything recorded

  /** One thing recorded into the mechanism; `from` is the sender of a received message. */
  datatype Fragment =
    | GotOneStep(sync: OneStep, from: PortIdentity)
    | GotTwoStep(twoStep: TwoStep, from: PortIdentity)
    | GotFollowUp(followUp: Follow, from: PortIdentity)
    | SentRequest(request: Request)
    | GotResponse(response: Response, from: PortIdentity)
    | IssuedRequest

  predicate IsSync(f: Fragment) {
    f.GotOneStep? || f.GotTwoStep?
  }

  function Recorded(m: Mechanism, f: Fragment): Mechanism {
    match f
    case GotOneStep(s, _) => WithOneStep(m, s)
    case GotTwoStep(s, _) => WithTwoStep(m, s)
    case GotFollowUp(s, _) => m.(followUp := Some(s))
    case SentRequest(r) => m.(request := Some(r))
    case GotResponse(r, _) => m.(response := Some(r))
    case IssuedRequest => m.(nextRequest := NextSeq(m.nextRequest))
  }

  function RecordedAll(log: seq<Fragment>): Mechanism {
    if log == [] then FRESH else Recorded(RecordedAll(log[..|log| - 1]), log[|log| - 1])
  }

  /** The most recent fragment of a kind. */
  function Last(log: seq<Fragment>, kind: Fragment -> bool): (r: Option<Fragment>)
    ensures r.Some? ==> r.value in log && kind(r.value)
    ensures r.None? ==> forall f :: f in log ==> !kind(f)
  {
    if log == [] then None
    else if kind(log[|log| - 1]) then Some(log[|log| - 1])
    else Last(log[..|log| - 1], kind)
  }

  function LastSync(log: seq<Fragment>): Option<Fragment> { Last(log, f => IsSync(f)) }
  function LastFollowUp(log: seq<Fragment>): Option<Fragment> { Last(log, (f: Fragment) => f.GotFollowUp?) }
  function LastRequest(log: seq<Fragment>): Option<Fragment> { Last(log, (f: Fragment) => f.SentRequest?) }
  function LastResponse(log: seq<Fragment>): Option<Fragment> { Last(log, (f: Fragment) => f.GotResponse?) }

  /** The sync pair read off the log: the latest Sync, with the latest FollowUp if it needs one. */
  function SyncPair(log: seq<Fragment>): Option<(TimeStamp, TimeStamp)> {
    match LastSync(log)
    case Some(GotOneStep(s, _)) => Some((s.origin, s.ingress))
    case Some(GotTwoStep(s, _)) => (
      match LastFollowUp(log)
      case Some(GotFollowUp(u, _)) => if u.seqId == s.seqId then Some((u.origin, s.ingress)) else None
      case _ => None
    )
    case _ => None
  }

  function DelayPair(log: seq<Fragment>): Option<(TimeStamp, TimeStamp)> {
    match (LastRequest(log), LastResponse(log))
    case (Some(SentRequest(q)), Some(GotResponse(p, _))) =>
      if p.seqId == q.seqId then Some((q.egress, p.received)) else None
    case _ => None
  }

  /** Each window of the mechanism holds the latest fragment of its kind. */
  lemma {:induction false} WindowsHoldLatest(log: seq<Fragment>)
    ensures var m := RecordedAll(log);
            && m.followUp == (match LastFollowUp(log) case Some(GotFollowUp(s, _)) => Some(s) case _ => None)
            && m.request == (match LastRequest(log) case Some(SentRequest(s)) => Some(s) case _ => None)
            && m.response == (match LastResponse(log) case Some(GotResponse(s, _)) => Some(s) case _ => None)
  {
    if log != [] {
      WindowsHoldLatest(log[..|log| - 1]);
    }
  }

  /** The two Sync windows follow the latest Sync, of whichever kind it was. */
  lemma {:induction false} SyncWindowsHoldLatest(log: seq<Fragment>)
    ensures var m := RecordedAll(log);
            match LastSync(log)
            case None => m.oneStep.None? && m.twoStep.None? && m.syncIngress.None?
            case Some(GotOneStep(s, _)) => m.oneStep == Some(s) && m.syncIngress == Some(s.ingress)
            case Some(GotTwoStep(s, _)) =>
              m.oneStep.None? && m.twoStep == Some(s) && m.syncIngress == Some(s.ingress)
            case _ => false
  {
    if log != [] {
      SyncWindowsHoldLatest(log[..|log| - 1]);
    }
  }

  /** Whatever was recorded and in whatever order, a sample exists exactly when the latest Sync is
  one-step or has its sequence id on the latest FollowUp, and the latest request and response share
  theirs; it then carries the ingress time of that very Sync and the offset of those messages. */
  lemma SampleIsCoherent(log: seq<Fragment>)
    ensures SampleOf(RecordedAll(log)).Some? <==> SyncPair(log).Some? && DelayPair(log).Some?
    ensures SampleOf(RecordedAll(log)).Some? ==>
              var (t1, t2) := SyncPair(log).value;
              var (t3, t4) := DelayPair(log).value;
              SampleOf(RecordedAll(log)) == Some(Sample(t2, Offset(t1, t2, t3, t4)))
  {
    WindowsHoldLatest(log);
    SyncWindowsHoldLatest(log);
  }

  // ----- The mutable object

  class EndToEndDelayMechanism {
    var nextRequest: uint16
    var oneStep: Option<OneStep>
    var twoStep: Option<TwoStep>
    var followUp: Option<Follow>
    var request: Option<Request>
    var response: Option<Response>
    var syncIngress: Option<TimeStamp>

    function Value(): Mechanism
      reads this
    {
      Mechanism(nextRequest, oneStep, twoStep, followUp, request, response, syncIngress)
    }

    constructor ()
      ensures Value() == FRESH
    {
      nextRequest := 0;
      oneStep, twoStep, followUp, request, response, syncIngress := None, None, None, None, None, None;
    }

    /** Issues the current sequence id and advances the cycle. */
    method DelayRequest() returns (seqId: uint16)
      modifies this
      ensures seqId == old(nextRequest)
      ensures Value() == Recorded(old(Value()), IssuedRequest)
    {
      seqId := nextRequest;
      nextRequest := NextSeq(nextRequest);
    }

    method RecordOneStepSync(sync: OneStep, ghost from: PortIdentity)
      modifies this
      ensures Value() == Recorded(old(Value()), GotOneStep(sync, from))
    {
      oneStep := Some(sync);
      syncIngress := Some(sync.ingress);
    }

    /** A two-step Sync invalidates any one-step Sync. */
    method RecordTwoStepSync(sync: TwoStep, ghost from: PortIdentity)
      modifies this
      ensures Value() == Recorded(old(Value()), GotTwoStep(sync, from))
    {
      oneStep := None;
      twoStep := Some(sync);
      syncIngress := Some(sync.ingress);
    }

    method RecordFollowUp(seen: Follow, ghost from: PortIdentity)
      modifies this
      ensures Value() == Recorded(old(Value()), GotFollowUp(seen, from))
    {
      followUp := Some(seen);
    }

    method RecordDelayRequest(seen: Request)
      modifies this
      ensures Value() == Recorded(old(Value()), SentRequest(seen))
    {
      request := Some(seen);
    }

    method RecordDelayResponse(seen: Response, ghost from: PortIdentity)
      modifies this
      ensures Value() == Recorded(old(Value()), GotResponse(seen, from))
    {
      response := Some(seen);
    }
  }
}
