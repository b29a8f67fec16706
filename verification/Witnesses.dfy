/** Concrete runs of a two-port boundary clock, from its initial state: the reachable situations in
which a property that one might expect does not hold. */
module Witnesses {
  import opened Base
  import opened Clock
  import opened Dataset
  import opened Foreign
  import opened Candidates
  import opened Bmca
  import opened Messages
  import opened PortMachine
  import opened Boundary
  import opened Invariants
  import opened Theorems

  const QUALITY: ClockQuality := ClockQuality(DefaultClass, Within1us, 0)
  const GRANDMASTER: ClockDS := ClockDS(1, 10, 128, QUALITY, 0)
  const SOURCE: PortIdentity := PortIdentity(1, 1)

  /** Identities other than the grandmaster's. */
  type Follower = x: ClockIdentity | x != 1 witness 7

  function Own(id: Follower): ClockDS {
    ClockDS(id, 200, 128, QUALITY, 0)
  }

  function Heard(now: nat): Observation {
    Observation(SOURCE, GRANDMASTER, 0, now)
  }

  function System(port: nat, m: SystemMessage): Event {
    Deliver(port, SystemInput(m, true, Ptp))
  }

  function AnnounceAt(now: nat): Event {
    Deliver(0, GeneralInput(Announce(0, 0, GRANDMASTER, Ptp), SOURCE, now))
  }

  /** Port 1 of the clock hears the grandmaster twice; port 2 hears nobody, evaluates the broadcast,
  times out, and evaluates the broadcast of its own time-out. */
  const EVENTS: seq<Event> := [
    System(0, Initialized), AnnounceAt(0), AnnounceAt(1), System(1, Initialized), DeliverSnapshot(1, 0),
    System(1, AnnounceReceiptTimeout), DeliverSnapshot(1, 0)]

  // ----- The states of the run

  function Me(id: Follower, port: uint16): PortIdentity {
    PortIdentity(id, port)
  }

  function Best(id: Follower): Snapshot {
    Qualified(GRANDMASTER, SOURCE, Me(id, 1))
  }

  function Broadcasted(id: Follower, number: nat): Posted {
    Posted(number, DecisionInputs(Own(id), Best(id)))
  }

  /** Port 1 after zero, one or two Announces, with its undelivered snapshots. */
  function FirstPort(id: Follower, heard: seq<Observation>, records: seq<Record>, best: Snapshot, mail: seq<Posted>): Slot {
    Slot(Listening(Core(Own(id), Me(id, 1), records, best)), mail, heard, None, [], [])
  }

  function Once(): Record {
    NewRecord(Heard(0))
  }

  function Twice(): Record {
    Once().UpdatedFrom(NewRecord(Heard(1)))
  }

  function Quiet(id: Follower): Core {
    Core(Own(id), Me(id, 2), [], Empty)
  }

  function SecondPort(state: PortState, mail: seq<Posted>, processed: Option<Posted>): Slot {
    Slot(state, mail, [], processed, [], [])
  }

  function Following(id: Follower, p: Profile, first: seq<Posted>, second: Slot, broadcasts: nat): ClockState {
    ClockState(Own(id), p, [FirstPort(id, [Heard(0), Heard(1)], [Twice()], Best(id), first), second],
               map[1 := Best(id)], broadcasts)
  }

  function After(id: Follower, p: Profile, n: nat): ClockState
    requires n <= 7
  {
    var initial := SecondPort(Initializing(Quiet(id)), [], None);
    match n
    case 0 => Start(Own(id), p, 2)
    case 1 => ClockState(Own(id), p, [FirstPort(id, [], [], Empty, []), initial], map[], 0)
    case 2 => ClockState(Own(id), p, [FirstPort(id, [Heard(0)], [Once()], Empty, []), initial], map[], 0)
    case 3 => Following(id, p, [Broadcasted(id, 1)], initial.(mailbox := [Broadcasted(id, 1)]), 1)
    case 4 =>
      Following(id, p, [Broadcasted(id, 1)], SecondPort(Listening(Quiet(id)), [Broadcasted(id, 1)], None), 1)
    case 5 =>
      Following(id, p, [Broadcasted(id, 1)], SecondPort(Listening(Quiet(id)), [], Some(Broadcasted(id, 1))), 1)
    case 6 =>
      Following(id, p, [Broadcasted(id, 1), Broadcasted(id, 2)],
                SecondPort(Master(Quiet(id), Own(id), 0, 0), [Broadcasted(id, 2)], Some(Broadcasted(id, 1))), 2)
    case 7 =>
      Following(id, p, [Broadcasted(id, 1), Broadcasted(id, 2)],
                SecondPort(PreMaster(Quiet(id), WithAddedStep(GRANDMASTER)), [], Some(Broadcasted(id, 2))), 2)
  }

  predicate Steps(id: Follower, p: Profile, n: nat)
    requires n < 7
  {
    Fits(After(id, p, n), EVENTS[n]) && StepClock(After(id, p, n), EVENTS[n]) == Some(After(id, p, n + 1))
  }

  lemma WindowHoldsASecond()
    ensures Window(0) == 4_000_000_000
  {
    WindowIsFourIntervals(0);
  }

  /** A step in which port `k` has outcome `o` and becomes `t`. */
  lemma StepIs(c: ClockState, e: Event, o: Outcome, t: Slot)
    requires Fits(c, e)
    requires PortStep(c.profile, c.slots[e.port].state, InputOf(c.slots[e.port], e)) == Some(o)
    requires NextSlot(c.slots[e.port], e, o) == t
    ensures StepClock(c, e) == Some(Replace(c, e.port, t, o.effects.report))
  {
  }

  lemma Initializes(id: Follower, p: Profile, core: Core)
    ensures PortStep(p, Initializing(core), SystemInput(Initialized, true, Ptp)) == Some(Outcome(Listening(core), QUIET))
  {
  }

  lemma Step0(id: Follower, p: Profile)
    ensures Steps(id, p, 0)
  {
    var c, d := After(id, p, 0), After(id, p, 1);
    assert c.slots[0] == StartSlot(Own(id), 1) && c.slots[1] == StartSlot(Own(id), 2);
    Initializes(id, p, c.slots[0].state.core);
    StepIs(c, EVENTS[0], Outcome(d.slots[0].state, QUIET), d.slots[0]);
    assert c.slots[0 := d.slots[0]] == d.slots;
  }

  lemma StoreOnce(id: Follower)
    ensures Considered([], Heard(0)) == [Once()]
    ensures SnapshotOf([], Me(id, 1)) == Empty
    ensures SnapshotOf([Once()], Me(id, 1)) == Empty
  {
    assert [Once()][..0] == [];
    assert BestQualified([Once()][..0], Me(id, 1)) == None;
  }

  lemma StoreTwice(id: Follower)
    ensures Considered([Once()], Heard(1)) == [Twice()]
    ensures SnapshotOf([Twice()], Me(id, 1)) == Best(id)
  {
    WindowHoldsASecond();
    assert Pruned([Once()], 1) == [Once()];
    assert [Twice()][..0] == [];
    assert BestQualified([Twice()][..0], Me(id, 1)) == None;
    assert Twice().IsQualified();
  }

  lemma Step1(id: Follower, p: Profile)
    ensures Steps(id, p, 1)
  {
    var c, d := After(id, p, 1), After(id, p, 2);
    StoreOnce(id);
    assert PortStep(p, c.slots[0].state, EVENTS[1].input) == Some(Outcome(d.slots[0].state, QUIET));
    assert [] + [Heard(0)] == [Heard(0)];
    StepIs(c, EVENTS[1], Outcome(d.slots[0].state, QUIET), d.slots[0]);
    assert c.slots[0 := d.slots[0]] == d.slots;
  }

  lemma BestOfOne(id: Follower)
    ensures Reported(map[], 1, Best(id)) == map[1 := Best(id)]
    ensures Reported(map[1 := Best(id)], 2, Empty) == map[1 := Best(id)]
    ensures BestBelow(map[1 := Best(id)], 3) == Best(id)
  {
    var m := map[1 := Best(id)];
    assert BestBelow(m, 0) == Empty;
    assert BestBelow(m, 1) == Empty;
    assert BestBelow(m, 2) == Best(id);
  }

  lemma PostBoth(slots: Slots, posted: Slots, post: Posted)
    requires |slots| == |posted| == 2
    requires posted[0] == slots[0].(mailbox := posted[0].mailbox) && posted[0].mailbox == slots[0].mailbox + [post]
    requires posted[1] == slots[1].(mailbox := posted[1].mailbox) && posted[1].mailbox == slots[1].mailbox + [post]
    ensures PostAll(slots, post) == posted
  {
  }

  lemma Step2(id: Follower, p: Profile)
    ensures Steps(id, p, 2)
  {
    var c, d := After(id, p, 2), After(id, p, 3);
    StoreTwice(id);
    BestOfOne(id);
    var o := Outcome(d.slots[0].state, QUIET.(report := Some(Best(id))));
    assert PortStep(p, c.slots[0].state, EVENTS[2].input) == Some(o);
    assert [Heard(0)] + [Heard(1)] == [Heard(0), Heard(1)];
    var t := d.slots[0].(mailbox := []);
    StepIs(c, EVENTS[2], o, t);
    PostBoth(c.slots[0 := t], d.slots, Broadcasted(id, 1));
  }

  lemma Step3(id: Follower, p: Profile)
    ensures Steps(id, p, 3)
  {
    var c, d := After(id, p, 3), After(id, p, 4);
    Initializes(id, p, Quiet(id));
    StepIs(c, EVENTS[3], Outcome(d.slots[1].state, QUIET), d.slots[1]);
    assert c.slots[1 := d.slots[1]] == d.slots;
  }

  lemma Step4(id: Follower, p: Profile)
    ensures Steps(id, p, 4)
  {
    var c, d := After(id, p, 4), After(id, p, 5);
    var s := c.slots[1];
    assert SnapshotOf([], Me(id, 2)) == Empty;
    assert PortStep(p, s.state, InputOf(s, EVENTS[4])) == Some(Outcome(d.slots[1].state, QUIET));
    StepIs(c, EVENTS[4], Outcome(d.slots[1].state, QUIET), d.slots[1]);
    assert c.slots[1 := d.slots[1]] == d.slots;
  }

  lemma Step5(id: Follower, p: Profile)
    ensures Steps(id, p, 5)
  {
    var c, d := After(id, p, 5), After(id, p, 6);
    BestOfOne(id);
    var o := Outcome(d.slots[1].state, QUIET.(report := Some(Empty)));
    assert SnapshotOf([], Me(id, 2)) == Empty;
    assert PortStep(p, c.slots[1].state, EVENTS[5].input) == Some(o);
    var t := d.slots[1].(mailbox := []);
    StepIs(c, EVENTS[5], o, t);
    assert [Broadcasted(id, 1)] + [Broadcasted(id, 2)] == [Broadcasted(id, 1), Broadcasted(id, 2)];
    PostBoth(c.slots[1 := t], d.slots, Broadcasted(id, 2));
  }

  lemma Verdict(id: Follower)
    ensures Decide(Own(id), 2, Best(id), Empty) == BeMaster(M3, WithAddedStep(GRANDMASTER))
    ensures !GrandmasterCapable(Own(id)) && !LocalAhead(Own(id), Best(id))
  {
  }

  lemma Step6(id: Follower, p: Profile)
    ensures Steps(id, p, 6)
  {
    var c, d := After(id, p, 6), After(id, p, 7);
    var s := c.slots[1];
    Verdict(id);
    assert SnapshotOf([], Me(id, 2)) == Empty;
    assert PortStep(p, s.state, InputOf(s, EVENTS[6])) == Some(Outcome(d.slots[1].state, QUIET));
    StepIs(c, EVENTS[6], Outcome(d.slots[1].state, QUIET), d.slots[1]);
    assert c.slots[1 := d.slots[1]] == d.slots;
  }

  // ----- The run

  lemma RunStep(start: ClockState, es: seq<Event>, n: nat, c: ClockState, d: ClockState)
    requires 0 < n <= |es| && Run(start, es[..n - 1]) == Reached(c)
    requires Fits(c, es[n - 1]) && StepClock(c, es[n - 1]) == Some(d)
    ensures Run(start, es[..n]) == Reached(d)
  {
    assert es[..n][..n - 1] == es[..n - 1];
  }

  lemma EveryStep(id: Follower, p: Profile, n: nat)
    requires n < 7
    ensures Steps(id, p, n)
  {
    match n
    case 0 => Step0(id, p);
    case 1 => Step1(id, p);
    case 2 => Step2(id, p);
    case 3 => Step3(id, p);
    case 4 => Step4(id, p);
    case 5 => Step5(id, p);
    case 6 => Step6(id, p);
  }

  lemma {:induction false} RunReaches(id: Follower, p: Profile, n: nat)
    requires n <= 7
    ensures Run(Start(Own(id), p, 2), EVENTS[..n]) == Reached(After(id, p, n))
  {
    if n > 0 {
      RunReaches(id, p, n - 1);
      EveryStep(id, p, n - 1);
      RunStep(Start(Own(id), p, 2), EVENTS, n, After(id, p, n - 1), After(id, p, n));
    }
  }

  /** Every grandmaster has the attributes of the one that is announced. */
  function OneGrandmaster(): Attributes {
    (id: ClockIdentity) => GRANDMASTER
  }

  lemma RunIsGood(id: Follower, p: Profile, n: nat)
    requires n <= 7
    ensures WellAnnounced(OneGrandmaster(), After(id, p, n)) && Reachable(After(id, p, n))
  {
    RunReaches(id, p, n);
    EventsAreGood(id);
    assert GoodRun(OneGrandmaster(), id, EVENTS[..n]);
    assert Own(id).identity == id;
  }

  lemma EventsAreGood(id: Follower)
    ensures GoodRun(OneGrandmaster(), id, EVENTS)
  {
  }

  /** A port that has evaluated the latest broadcast may still be LISTENING, although the BMCA decides
  M3 for it. */
  lemma UpToDatePortMayListen(id: Follower, p: Profile) returns (c: ClockState)
    ensures Reachable(c) && |c.slots| == 2 && UpToDate(ViewOf(c, 1), c.slots[1])
    ensures c.slots[1].state.Listening?
    ensures CurrentVerdict(c, 1) == BeMaster(M3, WithAddedStep(GRANDMASTER))
    ensures !Matches(c.slots[1].state, CurrentVerdict(c, 1))
  {
    c := After(id, p, 5);
    RunIsGood(id, p, 5);
    BestOfOne(id);
    Verdict(id);
    assert SnapshotOf([], Me(id, 2)) == Empty;
  }

  /** What the whole run leaves: the second port is up to date, hears nothing and is PRE_MASTER. */
  predicate WaitingEnd(c: ClockState, id: Follower) {
    && |c.slots| == 2
    && UpToDate(ViewOf(c, 1), c.slots[1])
    && EndOf(c, 1).me == Me(id, 2)
    && EndOf(c, 1).eRbest == Empty
    && CurrentBest(c) == Best(id)
    && c.slots[1].state.PreMaster?
  }

  lemma EndWaits(id: Follower, p: Profile)
    ensures WellAnnounced(OneGrandmaster(), After(id, p, 7))
    ensures WaitingEnd(After(id, p, 7), id) && EndOf(After(id, p, 7), 1).Follows()
  {
    RunIsGood(id, p, 7);
    BestOfOne(id);
    Verdict(id);
    assert SnapshotOf([], Me(id, 2)) == Empty;
  }

  /** Two such clocks, joined by their second ports: each end hears exactly what the other announces,
  namely nothing, and both are PRE_MASTER at once. */
  lemma WaitingEndsAreBothPreMaster(c: ClockState, x: Follower, d: ClockState, y: Follower)
    requires WaitingEnd(c, x) && WaitingEnd(d, y) && x != y
    ensures EndOf(c, 1).me != EndOf(d, 1).me
    ensures EndOf(c, 1).eRbest == Announcement(d.slots[1].state, EndOf(c, 1).me)
    ensures EndOf(d, 1).eRbest == Announcement(c.slots[1].state, EndOf(d, 1).me)
    ensures CurrentBest(c).ds.identity == CurrentBest(d).ds.identity
    ensures c.slots[1].state.MasterLike() && d.slots[1].state.MasterLike()
    ensures !OneMasterState(c.slots[1].state, d.slots[1].state)
  {
  }

  /** Such clocks are reachable, whatever their identities, so the hypotheses of
  `Theorems.SettledLinkHasOneMaster` do not by themselves give one master. */
  lemma BothEndsPreMaster(p: Profile)
    ensures forall id: Follower ::
              && WellAnnounced(OneGrandmaster(), After(id, p, 7))
              && WaitingEnd(After(id, p, 7), id)
              && EndOf(After(id, p, 7), 1).Follows()
  {
    forall id: Follower
      ensures WellAnnounced(OneGrandmaster(), After(id, p, 7))
      ensures WaitingEnd(After(id, p, 7), id) && EndOf(After(id, p, 7), 1).Follows()
    {
      EndWaits(id, p);
    }
  }

  /** A receipt timeout in MASTER does panic: a clock that is initialized and times out twice. */
  lemma SecondTimeoutPanics(id: Follower, p: Profile)
    ensures Run(Start(Own(id), p, 1),
                [System(0, Initialized), System(0, AnnounceReceiptTimeout), System(0, AnnounceReceiptTimeout)]) == Panicked
  {
    var start := Start(Own(id), p, 1);
    var core := Core(Own(id), Me(id, 1), [], Empty);
    assert start.slots == [StartSlot(Own(id), 1)];
    var init, timeout := System(0, Initialized), System(0, AnnounceReceiptTimeout);
    Initializes(id, p, core);
    var listening := Slot(Listening(core), [], [], None, [], []);
    StepIs(start, init, Outcome(listening.state, QUIET), listening);
    var c := start.(slots := [listening]);
    assert start.slots[0 := listening] == [listening];
    var es := [init, timeout, timeout];
    RunStep(start, es, 1, start, c);
    TimesOut(p, c);
    RunStep(start, es, 2, c, StepClock(c, timeout).value);
    StepPanicsExactly(StepClock(c, timeout).value, timeout);
    assert es[..2] == es[..|es| - 1];
  }

  lemma TimesOut(p: Profile, c: ClockState)
    requires |c.slots| == 1 && c.slots[0].state.OwnsReceiptTimer()
    ensures var e := System(0, AnnounceReceiptTimeout);
            && StepClock(c, e).Some?
            && |StepClock(c, e).value.slots| == 1 && StepClock(c, e).value.slots[0].state.Master?
  {
    var e := System(0, AnnounceReceiptTimeout);
    EveryStepIsAMove(c.profile, c.slots[0].state, e.input);
  }
}
