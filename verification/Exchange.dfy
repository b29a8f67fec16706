/** Whole message exchanges between a MASTER port and a port that follows it: every message one side
sends is the input of the other. */
module Exchange {
  import opened Base
  import opened Clock
  import opened Messages
  import opened Time
  import opened Delay
  import opened Servo
  import opened PortMachine

  /** The two ports, and what the last input did to the follower's clock. */
  datatype Ends = Ends(master: PortState, follower: PortState, action: Option<ClockAction>)

  function Timer(m: SystemMessage): Input {
    SystemInput(m, true, Ptp)
  }

  /** DelayReq and DelayResp: the request leaves the follower at `t3` and reaches the master at `t4`.
  `p` is the follower's profile and `q` the master's. */
  function DelayExchange(p: Profile, q: Profile, e: Ends, t3: TimeStamp, t4: TimeStamp, now: nat): Option<Ends> {
    match PortStep(p, e.follower, Timer(DelayRequestTimeout))
    case Some(Outcome(asked, Effects(_, Some(SentEvent(request)), _, _))) => (
      match (PortStep(p, asked, Timer(Timestamp(request, t3))),
             PortStep(q, e.master, EventInput(request, e.follower.core.me, t4, true)))
      case (Some(Outcome(stamped, _)), Some(Outcome(master, Effects(_, Some(SentGeneral(response)), _, _)))) => (
        match PortStep(p, stamped, GeneralInput(response, e.master.core.me, now))
        case Some(o) => Some(Ends(master, o.state, o.effects.action))
        case None => None
      )
      case _ => None
    )
    case _ => None
  }

  /** Two-step Sync and FollowUp: the Sync leaves the master at `t1` and reaches the follower at
  `t2`. */
  function SyncExchange(p: Profile, q: Profile, e: Ends, t1: TimeStamp, t2: TimeStamp, now: nat): Option<Ends> {
    match PortStep(q, e.master, Timer(SyncTimeout))
    case Some(Outcome(sending, Effects(_, Some(SentEvent(sync)), _, _))) => (
      match (PortStep(p, e.follower, EventInput(sync, e.master.core.me, t2, true)),
             PortStep(q, sending, Timer(Timestamp(sync, t1))))
      case (Some(Outcome(waiting, _)), Some(Outcome(master, Effects(_, Some(SentGeneral(followUp)), _, _)))) => (
        match PortStep(p, waiting, GeneralInput(followUp, e.master.core.me, now))
        case Some(o) => Some(Ends(master, o.state, o.effects.action))
        case None => None
      )
      case _ => None
    )
    case _ => None
  }

  predicate Paired(e: Ends) {
    e.master.Master? && e.follower.SlaveLike() && e.follower.parent == e.master.core.me
  }

  // ----- The follower's steps

  function WithFragment(s: PortState, f: Fragment): PortState
    requires s.SlaveLike()
  {
    s.(pipeline := s.pipeline.(mechanism := Recorded(s.pipeline.mechanism, f)))
  }

  lemma Asks(p: Profile, s: PortState)
    requires s.SlaveLike()
    ensures PortStep(p, s, Timer(DelayRequestTimeout)) ==
            Some(Outcome(WithFragment(s, IssuedRequest),
                         Effects(None, Some(SentEvent(DelayReq(s.pipeline.mechanism.nextRequest))), None, Some(IssuedRequest))))
  {
  }

  lemma Stamps(p: Profile, s: PortState, seqId: uint16, t3: TimeStamp)
    requires s.SlaveLike()
    ensures PortStep(p, s, Timer(Timestamp(DelayReq(seqId), t3))).Some?
    ensures PortStep(p, s, Timer(Timestamp(DelayReq(seqId), t3))).value.state
            == WithFragment(s, SentRequest(SeenRequest(seqId, t3)))
  {
  }

  lemma HearsResponse(p: Profile, s: PortState, r: GeneralMessage, now: nat)
    requires s.SlaveLike() && r.DelayResp?
    ensures PortStep(p, s, GeneralInput(r, s.parent, now)).Some?
    ensures PortStep(p, s, GeneralInput(r, s.parent, now)).value.state
            == WithFragment(s, GotResponse(SeenResponse(r.seqId, r.received), s.parent))
  {
  }

  lemma HearsSync(p: Profile, s: PortState, sync: EventMessage, t2: TimeStamp)
    requires s.SlaveLike() && sync.TwoStepSync?
    ensures PortStep(p, s, EventInput(sync, s.parent, t2, true)).Some?
    ensures PortStep(p, s, EventInput(sync, s.parent, t2, true)).value.state
            == WithFragment(s, GotTwoStep(SeenTwoStep(sync.seqId, t2), s.parent))
  {
  }

  /** A FollowUp that completes a sample moves the port as the servo's verdict says. */
  lemma HearsFollowUp(p: Profile, s: PortState, u: GeneralMessage, now: nat, x: ServoSample)
    requires s.SlaveLike() && u.FollowUp?
    requires SampleOf(Recorded(s.pipeline.mechanism, GotFollowUp(SeenFollowUp(u.seqId, u.origin), s.parent))) == Some(x)
    ensures PortStep(p, s, GeneralInput(u, s.parent, now)).Some?
    ensures var o := PortStep(p, s, GeneralInput(u, s.parent, now)).value;
            var fed := Feed(s.pipeline.servo, x);
            && o.effects.action == fed.action
            && o.state.SlaveLike() && o.state.parent == s.parent && o.state.core == s.core
            && (o.state.Slave? <==> fed.verdict == Locked)
            && o.state.pipeline.servo == fed.servo
            && o.state.pipeline.mechanism == Recorded(s.pipeline.mechanism, GotFollowUp(SeenFollowUp(u.seqId, u.origin), s.parent))
  {
    RecordingIsAMove(p, s, GotFollowUp(SeenFollowUp(u.seqId, u.origin), s.parent));
  }

  /** A one-step Sync that completes a sample moves the port as the servo's verdict says. */
  lemma HearsOneStep(p: Profile, s: PortState, sync: EventMessage, t2: TimeStamp, x: ServoSample)
    requires s.SlaveLike() && sync.OneStepSync?
    requires SampleOf(Recorded(s.pipeline.mechanism, GotOneStep(SeenOneStep(sync.seqId, sync.origin, t2), s.parent))) == Some(x)
    ensures PortStep(p, s, EventInput(sync, s.parent, t2, true)).Some?
    ensures var o := PortStep(p, s, EventInput(sync, s.parent, t2, true)).value;
            var fed := Feed(s.pipeline.servo, x);
            && o.effects.action == fed.action
            && o.state.SlaveLike() && o.state.parent == s.parent && o.state.core == s.core
            && (o.state.Slave? <==> fed.verdict == Locked)
            && o.state.pipeline.servo == fed.servo
  {
    RecordingIsAMove(p, s, GotOneStep(SeenOneStep(sync.seqId, sync.origin, t2), s.parent));
  }

  // ----- Responses addressed to other ports

  /** A response from the parent is recorded whatever port it is addressed to, and completes the delay
  side exactly when its sequence id is that of the latest request. */
  lemma ResponsePairsExactly(p: Profile, s: PortState, r: GeneralMessage, now: nat)
    requires s.SlaveLike() && r.DelayResp? && s.pipeline.mechanism.request.Some?
    ensures PortStep(p, s, GeneralInput(r, s.parent, now)).Some?
    ensures PortStep(p, s, GeneralInput(r, s.parent, now)).value.state.SlaveLike()
    ensures var request := s.pipeline.mechanism.request.value;
            DelaySide(PortStep(p, s, GeneralInput(r, s.parent, now)).value.state.pipeline.mechanism) ==
              if r.seqId == request.seqId then Some((request.egress, r.received)) else None
  {
    HearsResponse(p, s, r, now);
  }

  /** The response completes the delay side and answers the port's own latest request. */
  predicate AnswersOwnRequest(s: PortState, r: GeneralMessage)
    requires s.SlaveLike() && r.DelayResp?
  {
    && s.pipeline.mechanism.request.Some?
    && r.seqId == s.pipeline.mechanism.request.value.seqId
    && r.requester == s.core.me
  }

  /** The master's answer to another port that used the same sequence id completes the follower's
  delay side with the other port's receive time: of the answers that do so, exactly those addressed
  to the follower answer its own request. */
  lemma ForeignAnswerPairs(p: Profile, q: Profile, e: Ends, from: PortIdentity, t4: TimeStamp, now: nat)
    requires Paired(e) && e.follower.pipeline.mechanism.request.Some?
    ensures var request := e.follower.pipeline.mechanism.request.value;
            var sent := PortStep(q, e.master, EventInput(DelayReq(request.seqId), from, t4, true));
            && sent.Some? && sent.value.effects.sent.Some? && sent.value.effects.sent.value.SentGeneral?
            && var r := sent.value.effects.sent.value.general;
            && r.DelayResp?
            && var heard := PortStep(p, e.follower, GeneralInput(r, e.master.core.me, now));
            && heard.Some? && heard.value.state.SlaveLike()
            && DelaySide(heard.value.state.pipeline.mechanism) == Some((request.egress, t4))
            && (AnswersOwnRequest(e.follower, r) <==> from == e.follower.core.me)
  {
    var request := e.follower.pipeline.mechanism.request.value;
    Answers(q, e.master, request.seqId, from, t4);
    ResponsePairsExactly(p, e.follower, DelayResp(request.seqId, q.logMinDelay, t4, from), now);
  }

  // ----- The master's steps

  lemma SendsSync(q: Profile, m: PortState)
    requires m.Master?
    ensures PortStep(q, m, Timer(SyncTimeout)) ==
            Some(Outcome(m.(syncSeq := NextSeq(m.syncSeq)),
                         QUIET.(sent := Some(SentEvent(TwoStepSync(m.syncSeq, q.logSync))))))
  {
  }

  lemma SendsFollowUp(q: Profile, m: PortState, sync: EventMessage, t1: TimeStamp)
    requires m.Master? && sync.TwoStepSync?
    ensures PortStep(q, m, Timer(Timestamp(sync, t1))) ==
            Some(Outcome(m, QUIET.(sent := Some(SentGeneral(FollowUp(sync.seqId, sync.logInterval, t1))))))
  {
  }

  lemma SendsAnnounce(q: Profile, m: PortState, scale: TimeScale)
    requires m.Master?
    ensures PortStep(q, m, SystemInput(AnnounceSendTimeout, true, scale)) ==
            Some(Outcome(m.(announceSeq := NextSeq(m.announceSeq)),
                         QUIET.(sent := Some(SentGeneral(Announce(m.announceSeq, q.logAnnounce, m.gm, scale))))))
  {
  }

  lemma Answers(q: Profile, m: PortState, id: uint16, from: PortIdentity, t4: TimeStamp)
    requires m.Master?
    ensures PortStep(q, m, EventInput(DelayReq(id), from, t4, true)) ==
            Some(Outcome(m, QUIET.(sent := Some(SentGeneral(DelayResp(id, q.logMinDelay, t4, from))))))
  {
  }

  // ----- The exchanges

  /** Whatever both ports went through before, a delay exchange completes: the follower then holds
  exactly the times of this exchange, and nothing else about the two ports has changed. */
  lemma DelayExchangeCompletes(p: Profile, q: Profile, e: Ends, t3: TimeStamp, t4: TimeStamp, now: nat)
    requires Paired(e)
    ensures var r := DelayExchange(p, q, e, t3, t4, now);
            && r.Some?
            && r.value.master == e.master
            && r.value.follower.SlaveLike()
            && r.value.follower == e.follower.(pipeline := r.value.follower.pipeline)
            && r.value.follower.pipeline.servo == e.follower.pipeline.servo
            && DelaySide(r.value.follower.pipeline.mechanism) == Some((t3, t4))
  {
    var s := e.follower;
    var id := s.pipeline.mechanism.nextRequest;
    Asks(p, s);
    var asked := WithFragment(s, IssuedRequest);
    Stamps(p, asked, id, t3);
    var stamped := WithFragment(asked, SentRequest(SeenRequest(id, t3)));
    Answers(q, e.master, id, s.core.me, t4);
    HearsResponse(p, stamped, DelayResp(id, q.logMinDelay, t4, s.core.me), now);
  }

  /** A Sync exchange after it feeds the servo one sample: the ingress time of this very Sync and the
  offset of the four times of the two exchanges, whatever was in the windows before. */
  lemma SyncExchangeFeeds(p: Profile, q: Profile, e: Ends, t1: TimeStamp, t2: TimeStamp, t3: TimeStamp, t4: TimeStamp, now: nat)
    requires Paired(e) && DelaySide(e.follower.pipeline.mechanism) == Some((t3, t4))
    ensures var r := SyncExchange(p, q, e, t1, t2, now);
            var fed := Feed(e.follower.pipeline.servo, Sample(t2, Offset(t1, t2, t3, t4)));
            && r.Some? && Paired(r.value)
            && r.value.action == fed.action
            && r.value.follower.pipeline.servo == fed.servo
            && (r.value.follower.Slave? <==> fed.verdict == Locked)
            && HasFollowUpOfLastSync(r.value)
  {
    var s, id := e.follower, e.master.syncSeq;
    var sync, followUp := TwoStepSync(id, q.logSync), FollowUp(id, q.logSync, t1);
    SendsSync(q, e.master);
    SendsFollowUp(q, e.master.(syncSeq := NextSeq(id)), sync, t1);
    HearsSync(p, s, sync, t2);
    var waiting := WithFragment(s, GotTwoStep(SeenTwoStep(id, t2), s.parent));
    PairCompletes(s.pipeline.mechanism, id, s.parent, t1, t2, t3, t4);
    HearsFollowUp(p, waiting, followUp, now, Sample(t2, Offset(t1, t2, t3, t4)));
  }

  lemma PairCompletes(m: Mechanism, id: uint16, from: PortIdentity, t1: TimeStamp, t2: TimeStamp, t3: TimeStamp, t4: TimeStamp)
    requires DelaySide(m) == Some((t3, t4))
    ensures SampleOf(Recorded(Recorded(m, GotTwoStep(SeenTwoStep(id, t2), from)), GotFollowUp(SeenFollowUp(id, t1), from)))
            == Some(Sample(t2, Offset(t1, t2, t3, t4)))
  {
  }

  /** The follower holds the FollowUp of the Sync before the one the master sends next. */
  predicate HasFollowUpOfLastSync(e: Ends) {
    && Paired(e)
    && e.follower.pipeline.mechanism.followUp.Some?
    && e.master.syncSeq == NextSeq(e.follower.pipeline.mechanism.followUp.value.seqId)
  }

  /** The FollowUp of one Sync never completes the next one, so no sample mixes the two. */
  lemma NextSyncWaits(p: Profile, q: Profile, e: Ends, t2: TimeStamp)
    requires HasFollowUpOfLastSync(e)
    ensures var sent := PortStep(q, e.master, Timer(SyncTimeout));
            && sent.Some? && sent.value.effects.sent.Some? && sent.value.effects.sent.value.SentEvent?
            && var heard := PortStep(p, e.follower, EventInput(sent.value.effects.sent.value.event, e.master.core.me, t2, true));
            && heard.Some? && heard.value.state.SlaveLike()
            && SampleOf(heard.value.state.pipeline.mechanism) == None
  {
    SendsSync(q, e.master);
    HearsSync(p, e.follower, TwoStepSync(e.master.syncSeq, q.logSync), t2);
  }

  /** From any states of a MASTER port and a port that follows it with the stepping servo, one delay
  exchange and one Sync exchange over a symmetric path set the follower's clock to the master's
  time on arrival of the Sync, exactly when that instant is representable; the port is then SLAVE. */
  lemma ExchangeSetsMasterTime(p: Profile, q: Profile, e: Ends,
                               t1: TimeStamp, t2: TimeStamp, t3: TimeStamp, t4: TimeStamp,
                               theta: int, d: int, now: nat)
    requires Paired(e) && e.follower.pipeline.servo == Stepping
    requires StampNanos(t2) == StampNanos(t1) + d + theta
    requires StampNanos(t4) == StampNanos(t3) + d - theta
    ensures DelayExchange(p, q, e, t3, t4, now).Some?
    ensures var r := SyncExchange(p, q, DelayExchange(p, q, e, t3, t4, now).value, t1, t2, now);
            && r.Some?
            && if 0 <= StampNanos(t1) + d < MAX_NANOS_EXCL
               then r.value.follower.Slave? && exists to: TimeStamp ::
                      r.value.action == Some(Step(to)) && StampNanos(to) == StampNanos(t1) + d
               else r.value.follower.Uncalibrated? && r.value.action == None
  {
    DelayExchangeCompletes(p, q, e, t3, t4, now);
    SyncExchangeFeeds(p, q, DelayExchange(p, q, e, t3, t4, now).value, t1, t2, t3, t4, now);
    SteppingSetsMasterTime(t1, t2, t3, t4, theta, d);
  }

  /** A one-step Sync from the parent feeds the servo at once, whatever was in the Sync windows before:
  its own ingress time and the offset of the four times. */
  lemma OneStepSyncFeeds(p: Profile, s: PortState, sync: EventMessage, t2: TimeStamp, t3: TimeStamp, t4: TimeStamp)
    requires s.SlaveLike() && sync.OneStepSync?
    requires DelaySide(s.pipeline.mechanism) == Some((t3, t4))
    ensures var r := PortStep(p, s, EventInput(sync, s.parent, t2, true));
            var fed := Feed(s.pipeline.servo, Sample(t2, Offset(sync.origin, t2, t3, t4)));
            && r.Some? && r.value.state.SlaveLike() && r.value.state.parent == s.parent
            && r.value.effects.action == fed.action
            && r.value.state.pipeline.servo == fed.servo
            && (r.value.state.Slave? <==> fed.verdict == Locked)
  {
    HearsOneStep(p, s, sync, t2, Sample(t2, Offset(sync.origin, t2, t3, t4)));
  }

  /** A delay exchange and a one-step Sync over a symmetric path set the follower's clock to the master's
  time on arrival of the Sync, exactly when that instant is representable. */
  lemma OneStepSetsMasterTime(p: Profile, q: Profile, e: Ends, sync: EventMessage,
                              t2: TimeStamp, t3: TimeStamp, t4: TimeStamp, theta: int, d: int, now: nat)
    requires Paired(e) && e.follower.pipeline.servo == Stepping && sync.OneStepSync?
    requires StampNanos(t2) == StampNanos(sync.origin) + d + theta
    requires StampNanos(t4) == StampNanos(t3) + d - theta
    ensures DelayExchange(p, q, e, t3, t4, now).Some?
    ensures var r := PortStep(p, DelayExchange(p, q, e, t3, t4, now).value.follower,
                              EventInput(sync, e.master.core.me, t2, true));
            && r.Some?
            && if 0 <= StampNanos(sync.origin) + d < MAX_NANOS_EXCL
               then r.value.state.Slave? && exists to: TimeStamp ::
                      r.value.effects.action == Some(Step(to)) && StampNanos(to) == StampNanos(sync.origin) + d
               else r.value.state.Uncalibrated? && r.value.effects.action == None
  {
    DelayExchangeCompletes(p, q, e, t3, t4, now);
    OneStepSyncFeeds(p, DelayExchange(p, q, e, t3, t4, now).value.follower, sync, t2, t3, t4);
    SteppingSetsMasterTime(sync.origin, t2, t3, t4, theta, d);
  }
}
