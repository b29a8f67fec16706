/** A boundary clock with N ports as a step system: one input to one port at a time. */
module Boundary {
  import opened Base
  import opened Clock
  import opened Dataset
  import opened Foreign
  import opened Candidates
  import opened Messages
  import opened Time
  import opened Delay
  import opened PortMachine

  /** A broadcast snapshot with its running number. */
  datatype Posted = Posted(number: nat, inputs: DecisionInputs)

  /** A port of the clock: its state machine and its undelivered snapshots. The rest is history: the
  Announces its BMCA has considered, the snapshot it evaluated last since it entered LISTENING, the
  fragments recorded since its pipeline was built, and the Announces it sent since it entered
  MASTER. */
  datatype Slot = Slot(
    state: PortState,
    mailbox: seq<Posted>,
    observed: seq<Observation>,
    processed: Option<Posted>,
    log: seq<Fragment>,
    announced: seq<GeneralMessage>)

  type Slots = s: seq<Slot> | |s| < 0x1_0000

  datatype ClockState = ClockState(
    d0: ClockDS,
    profile: Profile,
    slots: Slots,
    byPort: ByPort,
    broadcasts: nat)

  /** Deliver an input to a port, or one of its undelivered snapshots. Delivering snapshot `index`
  drops the older ones, so both a queue (always index 0) and a timer that keeps only the newest
  message are covered. */
  datatype Event =
    | Deliver(port: nat, input: Input)
    | DeliverSnapshot(port: nat, index: nat)

  predicate FitsSlot(slot: Slot, e: Event) {
    && (e.Deliver? ==> !(e.input.SystemInput? && e.input.system.StateDecisionEvent?))
    && (e.DeliverSnapshot? ==> e.index < |slot.mailbox|)
  }

  predicate Fits(c: ClockState, e: Event) {
    e.port < |c.slots| && FitsSlot(c.slots[e.port], e)
  }

  /** A receipt timeout fires only while the state owns the timer. */
  predicate TimerOwned(c: ClockState, e: Event)
    requires Fits(c, e)
  {
    e.Deliver? && IsReceiptTimeout(e.input) ==> c.slots[e.port].state.OwnsReceiptTimer()
  }

  function InputOf(slot: Slot, e: Event): Input
    requires FitsSlot(slot, e)
  {
    match e
    case Deliver(_, input) => input
    case DeliverSnapshot(_, i) => SystemInput(StateDecisionEvent(slot.mailbox[i].inputs), true, Ptp)
  }

  // ----- One step

  function NextObserved(slot: Slot, e: Event): seq<Observation> {
    if e.Deliver? && slot.state.Operating() && ObservationOf(e.input).Some? then
      slot.observed + [ObservationOf(e.input).value]
    else slot.observed
  }

  function NextProcessed(slot: Slot, e: Event, o: Outcome): Option<Posted>
    requires FitsSlot(slot, e)
  {
    if !o.state.Operating() || !slot.state.Operating() then None
    else if e.DeliverSnapshot? then Some(slot.mailbox[e.index])
    else slot.processed
  }

  /** Kept across UNCALIBRATED and SLAVE, and empty again after a decision that selects a parent. */
  function NextLog(slot: Slot, e: Event, o: Outcome): seq<Fragment> {
    if !o.state.SlaveLike() then []
    else if e.DeliverSnapshot? then
      (if slot.state.SlaveLike() && slot.state.parent == o.state.parent then slot.log else [])
    else if o.effects.recorded.Some? then slot.log + [o.effects.recorded.value]
    else slot.log
  }

  function NextAnnounced(slot: Slot, o: Outcome): seq<GeneralMessage> {
    if !o.state.Master? || !slot.state.Master? then []
    else
      match o.effects.sent
      case Some(SentGeneral(m)) => if m.Announce? then slot.announced + [m] else slot.announced
      case _ => slot.announced
  }

  function NextSlot(slot: Slot, e: Event, o: Outcome): Slot
    requires FitsSlot(slot, e)
  {
    Slot(
      o.state,
      if e.DeliverSnapshot? then slot.mailbox[e.index + 1..] else slot.mailbox,
      NextObserved(slot, e),
      NextProcessed(slot, e, o),
      NextLog(slot, e, o),
      NextAnnounced(slot, o))
  }

  function WithPost(slot: Slot, post: Posted): Slot {
    slot.(mailbox := slot.mailbox + [post])
  }

  /** `notify_all`. */
  function PostAll(slots: seq<Slot>, post: Posted): (r: seq<Slot>)
    ensures |r| == |slots|
    ensures forall i :: 0 <= i < |slots| ==> r[i] == WithPost(slots[i], post)
  {
    if slots == [] then [] else [WithPost(slots[0], post)] + PostAll(slots[1..], post)
  }

  /** `BoundaryClock::trigger`: remember the report, take the best, notify all ports. */
  function Broadcast(c: ClockState, port: uint16, report: Snapshot): ClockState {
    var byPort := Reported(c.byPort, port, report);
    var post := Posted(c.broadcasts + 1, DecisionInputs(c.d0, BestBelow(byPort, |c.slots| + 1)));
    c.(byPort := byPort, broadcasts := c.broadcasts + 1, slots := PostAll(c.slots, post))
  }

  /** Replace port `k`, then broadcast its report if it made one. */
  function Replace(c: ClockState, k: nat, t: Slot, report: Option<Snapshot>): ClockState
    requires k < |c.slots|
  {
    var d := c.(slots := c.slots[k := t]);
    if report.Some? then Broadcast(d, k + 1, report.value) else d
  }

  /** One event; `None` is a panic. */
  function StepClock(c: ClockState, e: Event): Option<ClockState>
    requires Fits(c, e)
  {
    var slot := c.slots[e.port];
    match PortStep(c.profile, slot.state, InputOf(slot, e))
    case None => None
    case Some(o) => Some(Replace(c, e.port, NextSlot(slot, e, o), o.effects.report))
  }

  /** `BoundaryClock::port` for ports 1 to `n`, with empty record stores. */
  function Start(d0: ClockDS, profile: Profile, n: uint16): ClockState {
    ClockState(d0, profile, seq(n, i requires 0 <= i < n => StartSlot(d0, i + 1)), map[], 0)
  }

  function StartSlot(d0: ClockDS, port: uint16): Slot {
    Slot(Initializing(Core(d0, PortIdentity(d0.identity, port), [], Empty)), [], [], None, [], [])
  }

  // ----- Runs

  datatype RunResult = Reached(clock: ClockState) | Panicked | NotARun

  function Run(c: ClockState, es: seq<Event>): RunResult {
    if es == [] then Reached(c)
    else
      match Run(c, es[..|es| - 1])
      case Reached(d) =>
        var e := es[|es| - 1];
        if !Fits(d, e) then NotARun
        else (match StepClock(d, e) case None => Panicked case Some(next) => Reached(next))
      case r => r
  }

  /** No receipt timeout of the run fires in a state that does not own the timer. */
  predicate TimersOwned(c: ClockState, es: seq<Event>) {
    forall k :: 0 <= k < |es| ==>
      var r := Run(c, es[..k]);
      r.Reached? && Fits(r.clock, es[k]) ==> TimerOwned(r.clock, es[k])
  }

  /** A step panics exactly on a receipt timeout in MASTER. */
  lemma StepPanicsExactly(c: ClockState, e: Event)
    requires Fits(c, e)
    ensures StepClock(c, e).None? <==> c.slots[e.port].state.Master? && e.Deliver? && IsReceiptTimeout(e.input)
  {
    var slot := c.slots[e.port];
    PanicsExactly(c.profile, slot.state, InputOf(slot, e));
  }

  /** No run of any clock reaches a panic if receipt timeouts fire only where the timer is held. */
  lemma {:induction false} NoPanicInAnyRun(c: ClockState, es: seq<Event>)
    requires TimersOwned(c, es)
    ensures Run(c, es) != Panicked
  {
    if es != [] {
      var init, e := es[..|es| - 1], es[|es| - 1];
      forall k | 0 <= k < |init|
        ensures var r := Run(c, init[..k]);
                r.Reached? && Fits(r.clock, init[k]) ==> TimerOwned(r.clock, init[k])
      {
        assert init[..k] == es[..k];
      }
      NoPanicInAnyRun(c, init);
      var r := Run(c, init);
      if r.Reached? && Fits(r.clock, e) {
        StepPanicsExactly(r.clock, e);
        assert TimerOwned(r.clock, e);
      }
    }
  }

  // ----- The mutable clock

  /** One more than the largest port number. */
  const ALL_PORTS: nat := 0x1_0000

  /** The clock-wide collaborators of `BoundaryClock`: the candidate store and the ports' pending
  snapshots. */
  class BoundaryClock {
    const d0: ClockDS
    const candidates: MultiPortForeignCandidates
    const pending: array<seq<DecisionInputs>>

    constructor (d0: ClockDS, ports: uint16)
      ensures this.d0 == d0 && fresh(candidates) && fresh(pending)
      ensures candidates.byPort == map[] && pending.Length == ports
      ensures forall i :: 0 <= i < ports ==> pending[i] == []
    {
      this.d0 := d0;
      candidates := new MultiPortForeignCandidates();
      pending := new seq<DecisionInputs>[ports](_ => []);
    }

    /** Remember the report of `port`, take the best over all ports, notify every port. */
    method Trigger(port: uint16, eRbest: Snapshot)
      modifies candidates, pending
      ensures candidates.byPort == Reported(old(candidates.byPort), port, eRbest)
      ensures forall i :: 0 <= i < pending.Length ==>
                pending[i] == old(pending[i]) + [DecisionInputs(d0, BestBelow(candidates.byPort, ALL_PORTS))]
      ensures KeysBelow(candidates.byPort, pending.Length + 1) ==>
                BestBelow(candidates.byPort, ALL_PORTS) == BestBelow(candidates.byPort, pending.Length + 1)
    {
      candidates.Remember(port, eRbest);
      var eBest := candidates.Best();
      var i := 0;
      while i < pending.Length
        invariant 0 <= i <= pending.Length
        invariant candidates.byPort == Reported(old(candidates.byPort), port, eRbest)
        invariant forall j :: 0 <= j < i ==> pending[j] == old(pending[j]) + [DecisionInputs(d0, eBest)]
        invariant forall j :: i <= j < pending.Length ==> pending[j] == old(pending[j])
        modifies pending
      {
        pending[i] := pending[i] + [DecisionInputs(d0, eBest)];
        i := i + 1;
      }
    }
  }

  /** `StateDecisionEventTrigger`: remembers the last snapshot it reported. */
  class StateDecisionEventTrigger {
    var previous: Snapshot
    const clock: BoundaryClock
    const port: uint16

    constructor (clock: BoundaryClock, previous: Snapshot, port: uint16)
      ensures this.clock == clock && this.previous == previous && this.port == port
    {
      this.clock, this.previous, this.port := clock, previous, port;
    }

    /** Reports whatever the last one was, so that the next gated report of `current` is silent. */
    method ForcedTrigger(current: Snapshot)
      modifies this, clock.candidates, clock.pending
      ensures previous == current
      ensures clock.candidates.byPort == Reported(old(clock.candidates.byPort), port, current)
      ensures forall i :: 0 <= i < clock.pending.Length ==>
                clock.pending[i] == old(clock.pending[i]) +
                  [DecisionInputs(clock.d0, BestBelow(clock.candidates.byPort, ALL_PORTS))]
    {
      previous := current;
      clock.Trigger(port, current);
    }

    /** Reports only a snapshot that differs from the last one. */
    method GatedTrigger(current: Snapshot)
      modifies this, clock.candidates, clock.pending
      ensures previous == current
      ensures old(previous) == current ==> unchanged(clock.candidates) && unchanged(clock.pending)
      ensures old(previous) != current ==>
                && clock.candidates.byPort == Reported(old(clock.candidates.byPort), port, current)
                && forall i :: 0 <= i < clock.pending.Length ==>
                     clock.pending[i] == old(clock.pending[i]) +
                       [DecisionInputs(clock.d0, BestBelow(clock.candidates.byPort, ALL_PORTS))]
    {
      if previous != current {
        ForcedTrigger(current);
      }
    }
  }
}
