/** The port state machine: dispatch of messages to the current state, and the transitions. */
module PortMachine {
  import opened Base
  import opened Clock
  import opened Dataset
  import opened Foreign
  import opened Bmca
  import opened Messages
  import opened Time
  import opened Delay
  import opened Servo
  import opened Discipline

  /** What every state carries: the BMCA's copy of D_0, the port, its records and the snapshot its
  change-detecting trigger reported last. */
  datatype Core = Core(d0: ClockDS, me: PortIdentity, records: seq<Record>, previous: Snapshot)
  {
    function ERbest(): Snapshot {
      SnapshotOf(records, me)
    }
  }

  datatype Profile = Profile(
    logAnnounce: LogInterval,
    logSync: LogInterval,
    logMinDelay: LogInterval,
    servo: Config)

  datatype PortState =
    | Initializing(core: Core)
    | Listening(core: Core)
    | PreMaster(core: Core, gm: ClockDS)
    | Master(core: Core, gm: ClockDS, announceSeq: uint16, syncSeq: uint16)
    | Uncalibrated(core: Core, parent: PortIdentity, pipeline: Pipeline)
    | Slave(core: Core, parent: PortIdentity, pipeline: Pipeline)
    | Passive(core: Core)
    | Faulty(core: Core)
  {
    predicate SlaveLike() {
      Uncalibrated? || Slave?
    }

    predicate MasterLike() {
      PreMaster? || Master?
    }

    /** States that evaluate Announces and state decision events. */
    predicate Operating() {
      !Initializing? && !Faulty?
    }

    /** States that hold an announce receipt timer. */
    predicate OwnsReceiptTimer() {
      Listening? || SlaveLike() || Passive?
    }
  }

  datatype StateDecision =
    | BecomeListening
    | MasterClockSelected(parent: PortIdentity)
    | RecommendedSlave(parent: PortIdentity)
    | RecommendedMaster(ds: ClockDS)
    | RecommendedPassive
    | FaultDetected
    | ClearFault
    | QualificationExpired
    | ReceiptExpired
    | SynchronizationFault

  /** An input of the state machine with what the environment answers while it is handled: whether a
  send succeeds, and the time scale of the local clock. */
  datatype Input =
    | EventInput(event: EventMessage, source: PortIdentity, ingress: TimeStamp, sendOk: bool)
    | GeneralInput(general: GeneralMessage, source: PortIdentity, now: nat)
    | SystemInput(system: SystemMessage, sendOk: bool, timeScale: TimeScale)

  datatype Sent = SentEvent(event: EventMessage) | SentGeneral(general: GeneralMessage)

  /** What handling an input did outside the port: the snapshot reported to the clock, the message
  sent, the clock action, and the fragment recorded by the delay mechanism. */
  datatype Effects = Effects(
    report: Option<Snapshot>,
    sent: Option<Sent>,
    action: Option<ClockAction>,
    recorded: Option<Fragment>)

  const QUIET: Effects := Effects(None, None, None, None)

  datatype Dispatched = Dispatched(state: PortState, decision: Option<StateDecision>, effects: Effects)

  function Idle(s: PortState): Dispatched {
    Dispatched(s, None, QUIET)
  }

  // ----- Messages

  /** `AnnounceMessage::feed_bmca` followed by the gated trigger. */
  function ProcessAnnounce(s: PortState, m: GeneralMessage, source: PortIdentity, now: nat): Dispatched
    requires m.Announce?
  {
    match ToLogInterval(m.logInterval)
    case None => Idle(s)
    case Some(interval) =>
      var records := Considered(s.core.records, Observation(source, m.ds, interval, now));
      var current := SnapshotOf(records, s.core.me);
      var core := s.core.(records := records, previous := current);
      var report := if s.core.previous != current then Some(current) else None;
      Dispatched(s.(core := core), None, QUIET.(report := report))
  }

  /** Record a fragment in a slave-like state and let the servo's verdict decide. */
  function RecordFragment(s: PortState, f: Fragment): Dispatched
    requires s.SlaveLike()
  {
    var a := Absorb(s.pipeline, f);
    var decision :=
      if a.verdict.None? then None
      else if s.Uncalibrated? then (if a.verdict.value == Locked then Some(MasterClockSelected(s.parent)) else None)
      else (if a.verdict.value == Locked then None else Some(SynchronizationFault));
    Dispatched(s.(pipeline := a.pipeline), decision, Effects(None, None, a.action, Some(f)))
  }

  /** Synchronization messages are ignored unless they come from the tracked parent. */
  function FromParent(s: PortState, source: PortIdentity, f: Fragment): Dispatched
    requires s.SlaveLike()
  {
    if source == s.parent then RecordFragment(s, f) else Idle(s)
  }

  /** A send that fails is a fault; one that succeeds leaves `next`. */
  function Send(s: PortState, next: PortState, sent: Sent, ok: bool): Dispatched {
    if ok then Dispatched(next, None, QUIET.(sent := Some(sent)))
    else Dispatched(s, Some(FaultDetected), QUIET)
  }

  function DispatchEvent(p: Profile, s: PortState, m: EventMessage, source: PortIdentity, ingress: TimeStamp, sendOk: bool): Dispatched {
    match m
    case OneStepSync(q, _, origin) =>
      if s.SlaveLike() then FromParent(s, source, GotOneStep(SeenOneStep(q, origin, ingress), source)) else Idle(s)
    case TwoStepSync(q, _) =>
      if s.SlaveLike() then FromParent(s, source, GotTwoStep(SeenTwoStep(q, ingress), source)) else Idle(s)
    case DelayReq(q) =>
      if s.Master? then Send(s, s, SentGeneral(DelayResp(q, p.logMinDelay, ingress, source)), sendOk) else Idle(s)
  }

  function DispatchGeneral(s: PortState, m: GeneralMessage, source: PortIdentity, now: nat): Dispatched {
    match m
    case Announce(_, _, _, _) => if s.Operating() then ProcessAnnounce(s, m, source, now) else Idle(s)
    case FollowUp(q, _, origin) =>
      if s.SlaveLike() then FromParent(s, source, GotFollowUp(SeenFollowUp(q, origin), source)) else Idle(s)
    case DelayResp(q, _, received, _) =>
      if s.SlaveLike() then FromParent(s, source, GotResponse(SeenResponse(q, received), source)) else Idle(s)
  }

  // ----- State decision events

  /** The state is the one decision `d` asks for. */
  predicate Matches(s: PortState, d: Decision) {
    match s
    case PreMaster(_, gm) => d.BeMaster? && d.ds == gm
    case Master(_, gm, _, _) => d.BeMaster? && d.ds == gm
    case Uncalibrated(_, parent, _) => d == BeSlave(parent)
    case Slave(_, parent, _) => d == BeSlave(parent)
    case Passive(_) => d.BePassive?
    case _ => false
  }

  /** A LISTENING port that has heard no qualified master stays LISTENING whatever is decided. */
  predicate Undecided(s: PortState) {
    s.Listening? && s.core.ERbest().Empty?
  }

  /** The gates of `GrandMasterTrackingBmca`, `ParentTrackingBmca` and `PassiveBmca`, which hold back a
  decision for the state the port is in, and of `ListeningBmca`. */
  predicate Suppressed(s: PortState, d: Decision) {
    Matches(s, d) || Undecided(s)
  }

  function ToStateDecision(d: Decision): StateDecision {
    match d
    case BeMaster(_, ds) => RecommendedMaster(ds)
    case BeSlave(parent) => RecommendedSlave(parent)
    case BePassive => RecommendedPassive
  }

  function PortDecision(s: PortState, inputs: DecisionInputs): Decision {
    Decide(inputs.d0, s.core.me.port, inputs.eBest, s.core.ERbest())
  }

  function ProcessDecision(s: PortState, inputs: DecisionInputs): Dispatched {
    if !s.Operating() then Idle(s)
    else
      var d := PortDecision(s, inputs);
      Dispatched(
        s.(core := s.core.(d0 := inputs.d0)),
        if Suppressed(s, d) then None else Some(ToStateDecision(d)),
        QUIET)
  }

  function DispatchSystem(p: Profile, s: PortState, m: SystemMessage, sendOk: bool, timeScale: TimeScale): Dispatched {
    match m
    case AnnounceSendTimeout =>
      if s.Master? then
        Send(s, s.(announceSeq := NextSeq(s.announceSeq)),
             SentGeneral(Announce(s.announceSeq, p.logAnnounce, s.gm, timeScale)), sendOk)
      else Idle(s)
    case SyncTimeout =>
      if s.Master? then
        Send(s, s.(syncSeq := NextSeq(s.syncSeq)), SentEvent(TwoStepSync(s.syncSeq, p.logSync)), sendOk)
      else Idle(s)
    case DelayRequestTimeout =>
      if s.SlaveLike() then
        var r := RecordFragment(s, IssuedRequest);
        if sendOk then
          r.(effects := r.effects.(sent := Some(SentEvent(DelayReq(s.pipeline.mechanism.nextRequest)))))
        else r.(decision := Some(FaultDetected))
      else Idle(s)
    case Timestamp(event, egress) => (
      match event
      case TwoStepSync(q, interval) =>
        if s.Master? then Send(s, s, SentGeneral(FollowUp(q, interval, egress)), sendOk) else Idle(s)
      case DelayReq(q) =>
        if s.SlaveLike() then RecordFragment(s, SentRequest(SeenRequest(q, egress))) else Idle(s)
      case OneStepSync(_, _, _) => Idle(s)
    )
    case Initialized => if s.Initializing? then Idle(s).(decision := Some(BecomeListening)) else Idle(s)
    case FaultCleared => if s.Faulty? then Idle(s).(decision := Some(ClearFault)) else Idle(s)
    case AnnounceReceiptTimeout =>
      if s.OwnsReceiptTimer() || s.Master? then Idle(s).(decision := Some(ReceiptExpired)) else Idle(s)
    case QualificationTimeout => if s.PreMaster? then Idle(s).(decision := Some(QualificationExpired)) else Idle(s)
    case StateDecisionEvent(inputs) => ProcessDecision(s, inputs)
  }

  function Dispatch(p: Profile, s: PortState, i: Input): Dispatched {
    match i
    case EventInput(m, source, ingress, ok) => DispatchEvent(p, s, m, source, ingress, ok)
    case GeneralInput(m, source, now) => DispatchGeneral(s, m, source, now)
    case SystemInput(m, ok, timeScale) => DispatchSystem(p, s, m, ok, timeScale)
  }

  // ----- Transitions

  /** The state constructors of the profile; entering MASTER restarts both message cycles, entering
  UNCALIBRATED builds a fresh delay mechanism and servo. */
  function EnterMaster(core: Core, gm: ClockDS): PortState {
    Master(core, gm, 0, 0)
  }

  function EnterUncalibrated(p: Profile, core: Core, parent: PortIdentity): PortState {
    Uncalibrated(core, parent, FreshPipeline(p.servo))
  }

  /** The state after a transition, and the snapshot a forced trigger reports on the way. */
  datatype Applied = Applied(state: PortState, report: Option<Snapshot>)

  /** `PortState::apply`; `None` is one of its panics. */
  function Apply(p: Profile, s: PortState, d: StateDecision): Option<Applied> {
    match d
    case ReceiptExpired =>
      if s.OwnsReceiptTimer() then
        var current := s.core.ERbest();
        Some(Applied(EnterMaster(s.core.(previous := current), s.core.d0), Some(current)))
      else None
    case MasterClockSelected(_) =>
      if s.Uncalibrated? then Some(Applied(Slave(s.core, s.parent, s.pipeline), None)) else None
    case RecommendedSlave(parent) =>
      if s.Operating() then Some(Applied(EnterUncalibrated(p, s.core, parent), None)) else None
    case RecommendedMaster(ds) =>
      if s.Operating() then Some(Applied(PreMaster(s.core, ds), None)) else None
    case RecommendedPassive =>
      if s.Operating() && !s.Passive? then Some(Applied(Passive(s.core), None)) else None
    case BecomeListening =>
      if s.Initializing? then Some(Applied(Listening(s.core), None)) else None
    case QualificationExpired =>
      if s.PreMaster? then Some(Applied(EnterMaster(s.core, s.gm), None)) else None
    case SynchronizationFault =>
      if s.Slave? then Some(Applied(Uncalibrated(s.core, s.parent, s.pipeline), None)) else None
    case FaultDetected =>
      if s.Initializing? then None else Some(Applied(Faulty(s.core), None))
    case ClearFault =>
      if s.Faulty? then Some(Applied(Initializing(s.core), None)) else None
  }

  datatype Outcome = Outcome(state: PortState, effects: Effects)

  /** Apply the decision of a dispatch, if there is one. */
  function Conclude(p: Profile, d: Dispatched): Option<Outcome> {
    match d.decision
    case None => Some(Outcome(d.state, d.effects))
    case Some(decision) =>
      match Apply(p, d.state, decision)
      case None => None
      case Some(a) =>
        Some(Outcome(a.state, if a.report.Some? then d.effects.(report := a.report) else d.effects))
  }

  /** One input through `PortFsm`: dispatch, then apply. */
  function PortStep(p: Profile, s: PortState, i: Input): Option<Outcome> {
    Conclude(p, Dispatch(p, s, i))
  }

  predicate IsReceiptTimeout(i: Input) {
    i.SystemInput? && i.system.AnnounceReceiptTimeout?
  }

  /** Over every state and every input, the only pair that reaches a panic is MASTER with an announce
  receipt timeout. */
  lemma PanicsExactly(p: Profile, s: PortState, i: Input)
    ensures PortStep(p, s, i).None? <==> s.Master? && IsReceiptTimeout(i)
  {
    if !(s.Master? && IsReceiptTimeout(i)) {
      EveryStepIsAMove(p, s, i);
    }
  }

  /** A receipt timeout takes exactly LISTENING, UNCALIBRATED, SLAVE and PASSIVE to MASTER on D_0 and
  forces a report; MASTER panics, and the other states ignore it. */
  lemma ReceiptTimeoutByState(p: Profile, s: PortState, ok: bool, scale: TimeScale)
    ensures var r := PortStep(p, s, SystemInput(AnnounceReceiptTimeout, ok, scale));
            match s
            case Listening(core) => TookOver(r, core)
            case Uncalibrated(core, _, _) => TookOver(r, core)
            case Slave(core, _, _) => TookOver(r, core)
            case Passive(core) => TookOver(r, core)
            case Master(_, _, _, _) => r == None
            case _ => r == Some(Outcome(s, QUIET))
  {
  }

  predicate TookOver(r: Option<Outcome>, core: Core) {
    && r.Some?
    && r.value.state.Master? && r.value.state.gm == core.d0
    && r.value.effects.report == Some(core.ERbest())
  }

  /** INITIALIZING and FAULTY ignore Announces; every other state considers exactly those whose interval
  lies between 2^-20 and 2^20 seconds, and reports a changed E_rbest. */
  lemma AnnounceByState(p: Profile, s: PortState, m: GeneralMessage, source: PortIdentity, now: nat)
    requires m.Announce?
    ensures var r := PortStep(p, s, GeneralInput(m, source, now));
            && r.Some?
            && if s.Initializing? || s.Faulty? || m.logInterval < -20 || m.logInterval > 20
               then r.value == Outcome(s, QUIET)
               else
                 && r.value.state.core.records ==
                      Considered(s.core.records, Observation(source, m.ds, m.logInterval, now))
                 && r.value.effects.report ==
                      (if r.value.state.core.ERbest() == s.core.previous then None else Some(r.value.state.core.ERbest()))
  {
  }

  /** Likewise they ignore state decision events, which every other state evaluates. */
  lemma DecisionEventByState(p: Profile, s: PortState, inputs: DecisionInputs, ok: bool, scale: TimeScale)
    ensures var r := PortStep(p, s, SystemInput(StateDecisionEvent(inputs), ok, scale));
            && r.Some?
            && if s.Initializing? || s.Faulty? then r.value == Outcome(s, QUIET)
               else
                 && r.value.state.core.d0 == inputs.d0
                 && (Matches(r.value.state, Decide(inputs.d0, s.core.me.port, inputs.eBest, s.core.ERbest()))
                     || (s.Listening? && r.value.state.Listening? && s.core.ERbest().Empty?))
  {
    DecisionIsAMove(p, s, SystemInput(StateDecisionEvent(inputs), ok, scale));
    if s.Operating() {
      DecisionsTakeEffect(p, s, inputs.d0, PortDecision(s, inputs));
    }
  }

  /** `apply` would also panic on PASSIVE in PASSIVE; only the passive gate keeps it from happening. */
  lemma PassiveIsGated(p: Profile, core: Core, i: Input)
    ensures Apply(p, Passive(core), RecommendedPassive).None?
    ensures Dispatch(p, Passive(core), i).decision != Some(RecommendedPassive)
  {
  }

  // ----- The shape of every step

  /** The ten things an input can do to a port. */
  datatype Move =
    | Stays
    | Considers(observation: Observation)
    | Records(fragment: Fragment)
    | Sends
    | Evaluates(inputs: DecisionInputs)
    | Fails
    | Starts
    | Clears
    | Qualifies
    | Expires

  predicate IsAnnounce(sent: Option<Sent>) {
    sent.Some? && sent.value.SentGeneral? && sent.value.general.Announce?
  }

  /** SLAVE exactly when the last verdict, if this fragment drew one, is Locked. */
  predicate RecordsTo(s: PortState, f: Fragment, t: PortState) {
    && s.SlaveLike() && t.SlaveLike()
    && t.core == s.core && t.parent == s.parent
    && (Sender(f) == None || Sender(f) == Some(s.parent))
    && var a := Absorb(s.pipeline, f);
       t.pipeline == a.pipeline && t.Slave? == (if a.verdict.None? then s.Slave? else a.verdict == Some(Locked))
  }

  predicate SendsTo(p: Profile, s: PortState, sent: Option<Sent>, t: PortState) {
    && s.Master? && t.Master?
    && t.core == s.core && t.gm == s.gm
    && if IsAnnounce(sent)
       then sent.value.general.seqId == s.announceSeq && sent.value.general.ds == s.gm
            && sent.value.general.logInterval == p.logAnnounce
            && t.announceSeq == NextSeq(s.announceSeq)
       else t.announceSeq == s.announceSeq
  }

  function ConsideredCore(core: Core, o: Observation): Core {
    var records := Considered(core.records, o);
    core.(records := records, previous := SnapshotOf(records, core.me))
  }

  /** The state after decision `d` on inputs whose local dataset is `d0`. */
  function DecidedTo(p: Profile, s: PortState, d0: ClockDS, d: Decision): PortState {
    var core := s.core.(d0 := d0);
    if Suppressed(s, d) then s.(core := core)
    else match d
         case BeMaster(_, ds) => PreMaster(core, ds)
         case BeSlave(parent) => EnterUncalibrated(p, core, parent)
         case BePassive => Passive(core)
  }

  predicate Moves(p: Profile, s: PortState, m: Move, o: Outcome) {
    match m
    case Stays => o == Outcome(s, QUIET)
    case Considers(obs) =>
      && s.Operating()
      && o.state == s.(core := ConsideredCore(s.core, obs))
      && o.effects == QUIET.(report := if s.core.previous != o.state.core.previous then Some(o.state.core.previous) else None)
    case Records(f) =>
      && RecordsTo(s, f, o.state)
      && o.effects.report == None && o.effects.recorded == Some(f)
      && o.effects.action == Absorb(s.pipeline, f).action
    case Sends =>
      && SendsTo(p, s, o.effects.sent, o.state)
      && o.effects.report == None && o.effects.recorded == None && o.effects.action == None
    case Evaluates(inputs) => 
      s.Operating() && o == Outcome(DecidedTo(p, s, inputs.d0, PortDecision(s, inputs)), QUIET)
    case Fails => o.state == Faulty(s.core) && o.effects.report == None && o.effects.action == None
    case Starts => s.Initializing? && o == Outcome(Listening(s.core), QUIET)
    case Clears => s.Faulty? && o == Outcome(Initializing(s.core), QUIET)
    case Qualifies => s.PreMaster? && o == Outcome(EnterMaster(s.core, s.gm), QUIET)
    case Expires =>
      && s.OwnsReceiptTimer()
      && o.state == EnterMaster(s.core.(previous := s.core.ERbest()), s.core.d0)
      && o.effects == QUIET.(report := Some(s.core.ERbest()))
  }

  /** The observation an input contributes to an operating port. */
  function ObservationOf(i: Input): Option<Observation> {
    match i
    case GeneralInput(Announce(_, interval, ds, _), source, now) =>
      if ToLogInterval(interval).Some? then Some(Observation(source, ds, interval, now)) else None
    case _ => None
  }

  predicate IsDecisionEvent(i: Input) {
    i.SystemInput? && i.system.StateDecisionEvent?
  }

  /** Which of the ten it is. */
  function MoveOf(s: PortState, i: Input): Move {
    match i
    case GeneralInput(Announce(_, _, _, _), _, _) =>
      if s.Operating() && ObservationOf(i).Some? then Considers(ObservationOf(i).value) else Stays
    case GeneralInput(FollowUp(q, _, origin), source, _) =>
      if s.SlaveLike() && source == s.parent then Records(GotFollowUp(SeenFollowUp(q, origin), source)) else Stays
    case GeneralInput(DelayResp(q, _, received, _), source, _) =>
      if s.SlaveLike() && source == s.parent then Records(GotResponse(SeenResponse(q, received), source)) else Stays
    case EventInput(OneStepSync(q, _, origin), source, ingress, _) =>
      if s.SlaveLike() && source == s.parent then Records(GotOneStep(SeenOneStep(q, origin, ingress), source)) else Stays
    case EventInput(TwoStepSync(q, _), source, ingress, _) =>
      if s.SlaveLike() && source == s.parent then Records(GotTwoStep(SeenTwoStep(q, ingress), source)) else Stays
    case EventInput(DelayReq(_), _, _, ok) => if !s.Master? then Stays else if ok then Sends else Fails
    case SystemInput(AnnounceSendTimeout, ok, _) => if !s.Master? then Stays else if ok then Sends else Fails
    case SystemInput(SyncTimeout, ok, _) => if !s.Master? then Stays else if ok then Sends else Fails
    case SystemInput(Timestamp(TwoStepSync(_, _), _), ok, _) => if !s.Master? then Stays else if ok then Sends else Fails
    case SystemInput(Timestamp(DelayReq(q), egress), _, _) =>
      if s.SlaveLike() then Records(SentRequest(SeenRequest(q, egress))) else Stays
    case SystemInput(Timestamp(OneStepSync(_, _, _), _), _, _) => Stays
    case SystemInput(DelayRequestTimeout, ok, _) =>
      if !s.SlaveLike() then Stays else if ok then Records(IssuedRequest) else Fails
    case SystemInput(StateDecisionEvent(inputs), _, _) => if s.Operating() then Evaluates(inputs) else Stays
    case SystemInput(Initialized, _, _) => if s.Initializing? then Starts else Stays
    case SystemInput(FaultCleared, _, _) => if s.Faulty? then Clears else Stays
    case SystemInput(AnnounceReceiptTimeout, _, _) => if s.OwnsReceiptTimer() then Expires else Stays
    case SystemInput(QualificationTimeout, _, _) => if s.PreMaster? then Qualifies else Stays
  }

  /** Dispatching and then applying is always one of the ten moves, and which one can be told from
  the state and the input alone. */
  lemma EveryStepIsAMove(p: Profile, s: PortState, i: Input)
    requires !(s.Master? && IsReceiptTimeout(i))
    ensures PortStep(p, s, i).Some?
    ensures Moves(p, s, MoveOf(s, i), PortStep(p, s, i).value)
  {
    match i
    case EventInput(_, _, _, _) => EventIsAMove(p, s, i);
    case GeneralInput(Announce(_, _, _, _), _, _) => AnnounceIsAMove(p, s, i);
    case GeneralInput(_, _, _) => GeneralIsAMove(p, s, i);
    case SystemInput(StateDecisionEvent(_), _, _) => DecisionIsAMove(p, s, i);
    case SystemInput(AnnounceReceiptTimeout, _, _) => ReceiptTimeoutIsAMove(p, s, i);
    case SystemInput(Timestamp(_, _), _, _) => TimestampIsAMove(p, s, i);
    case SystemInput(_, _, _) => SystemIsAMove(p, s, i);
  }

  lemma RecordingIsAMove(p: Profile, s: PortState, f: Fragment)
    requires s.SlaveLike()
    requires Sender(f) == None || Sender(f) == Some(s.parent)
    ensures Conclude(p, RecordFragment(s, f)).Some?
    ensures Moves(p, s, Records(f), Conclude(p, RecordFragment(s, f)).value)
  {
  }

  lemma EventIsAMove(p: Profile, s: PortState, i: Input)
    requires i.EventInput?
    ensures PortStep(p, s, i).Some?
    ensures Moves(p, s, MoveOf(s, i), PortStep(p, s, i).value)
  {
    if MoveOf(s, i).Records? {
      RecordingIsAMove(p, s, MoveOf(s, i).fragment);
    }
  }

  lemma AnnounceIsAMove(p: Profile, s: PortState, i: Input)
    requires i.GeneralInput? && i.general.Announce?
    ensures PortStep(p, s, i).Some?
    ensures Moves(p, s, MoveOf(s, i), PortStep(p, s, i).value)
  {
  }

  lemma GeneralIsAMove(p: Profile, s: PortState, i: Input)
    requires i.GeneralInput? && !i.general.Announce?
    ensures PortStep(p, s, i).Some?
    ensures Moves(p, s, MoveOf(s, i), PortStep(p, s, i).value)
  {
    if MoveOf(s, i).Records? {
      RecordingIsAMove(p, s, MoveOf(s, i).fragment);
    }
  }

  lemma DecisionIsAMove(p: Profile, s: PortState, i: Input)
    requires IsDecisionEvent(i)
    ensures PortStep(p, s, i).Some?
    ensures Moves(p, s, MoveOf(s, i), PortStep(p, s, i).value)
  {
  }

  lemma ReceiptTimeoutIsAMove(p: Profile, s: PortState, i: Input)
    requires IsReceiptTimeout(i) && !s.Master?
    ensures PortStep(p, s, i).Some?
    ensures Moves(p, s, MoveOf(s, i), PortStep(p, s, i).value)
  {
  }

  lemma TimestampIsAMove(p: Profile, s: PortState, i: Input)
    requires i.SystemInput? && i.system.Timestamp?
    ensures PortStep(p, s, i).Some?
    ensures Moves(p, s, MoveOf(s, i), PortStep(p, s, i).value)
  {
    if MoveOf(s, i).Records? {
      RecordingIsAMove(p, s, MoveOf(s, i).fragment);
    }
  }

  lemma SystemIsAMove(p: Profile, s: PortState, i: Input)
    requires i.SystemInput? && !IsDecisionEvent(i) && !IsReceiptTimeout(i) && !i.system.Timestamp?
    ensures PortStep(p, s, i).Some?
    ensures Moves(p, s, MoveOf(s, i), PortStep(p, s, i).value)
  {
  }

  /** Only considering an Announce touches the records, and only an expired receipt timer reports
  without one. */
  lemma OtherMovesKeepCore(p: Profile, s: PortState, m: Move, o: Outcome)
    requires Moves(p, s, m, o) && !m.Considers?
    ensures o.state.core.me == s.core.me && o.state.core.records == s.core.records
    ensures o.state.core.d0 == if m.Evaluates? then m.inputs.d0 else s.core.d0
    ensures o.state.core.previous == if m.Expires? then s.core.ERbest() else s.core.previous
    ensures o.effects.report == if m.Expires? then Some(s.core.ERbest()) else None
  {
  }

  /** After a state decision event a port is in the state decided, except that a LISTENING port with an
  empty E_rbest stays as it is. */
  lemma DecisionsTakeEffect(p: Profile, s: PortState, d0: ClockDS, d: Decision)
    requires s.Operating()
    ensures Matches(DecidedTo(p, s, d0, d), d) <==> !Undecided(s)
    ensures Undecided(s) ==> DecidedTo(p, s, d0, d) == Listening(s.core.(d0 := d0))
  {
  }

  /** Moves that neither evaluate, consider, fail, start nor time out keep the role of the port. */
  lemma OtherMovesKeepRole(p: Profile, s: PortState, m: Move, o: Outcome, d: Decision)
    requires Moves(p, s, m, o)
    requires m.Stays? || m.Records? || m.Sends? || m.Qualifies?
    requires Suppressed(s, d)
    ensures Suppressed(o.state, d)
  {
  }

  /** The clock is touched only by absorbing a fragment that came from the parent or from the port
  itself. */
  lemma ActionsComeFromFragments(p: Profile, s: PortState, i: Input) returns (f: Fragment)
    requires PortStep(p, s, i).Some? && PortStep(p, s, i).value.effects.action.Some?
    ensures s.SlaveLike() && (Sender(f) == None || Sender(f) == Some(s.parent))
    ensures PortStep(p, s, i).value.effects.recorded == Some(f)
    ensures PortStep(p, s, i).value.effects.action == Absorb(s.pipeline, f).action
  {
    PanicsExactly(p, s, i);
    EveryStepIsAMove(p, s, i);
    f := MoveOf(s, i).fragment;
  }

  // ----- The mutable wrapper

  /** `PortFsm`: takes the state out, applies the decision, puts the next state back. */
  class PortFsm {
    const profile: Profile
    var state: Option<PortState>

    constructor (profile: Profile, initial: PortState)
      ensures this.profile == profile && state == Some(initial)
    {
      this.profile := profile;
      state := Some(initial);
    }

    method ApplyDecision(decision: StateDecision) returns (report: Option<Snapshot>)
      requires state.Some? && Apply(profile, state.value, decision).Some?
      modifies this
      ensures state == Some(Apply(profile, old(state.value), decision).value.state)
      ensures report == Apply(profile, old(state.value), decision).value.report
    {
      var taken := state;
      state := None;
      var applied := Apply(profile, taken.value, decision).value;
      state := Some(applied.state);
      report := applied.report;
    }

    /** The state is never left empty, whatever input arrives, as long as a receipt timeout is
    delivered only while the state owns that timer. */
    method Process(i: Input) returns (effects: Effects)
      requires state.Some?
      requires IsReceiptTimeout(i) ==> state.value.OwnsReceiptTimer()
      modifies this
      ensures state.Some?
      ensures PortStep(profile, old(state.value), i) == Some(Outcome(state.value, effects))
    {
      PanicsExactly(profile, state.value, i);
      var dispatched := Dispatch(profile, state.value, i);
      state := Some(dispatched.state);
      effects := dispatched.effects;
      if dispatched.decision.Some? {
        var report := ApplyDecision(dispatched.decision.value);
        if report.Some? {
          effects := effects.(report := report);
        }
      }
    }
  }
}
