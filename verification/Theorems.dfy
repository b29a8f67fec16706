/** What the invariants mean for a boundary clock in any reachable state, and for two of them joined
by a link. */
module Theorems {
  import opened Base
  import opened Clock
  import opened Dataset
  import opened Foreign
  import opened Candidates
  import opened Bmca
  import opened Messages
  import opened Delay
  import opened Servo
  import opened Discipline
  import opened PortMachine
  import opened Boundary
  import opened Invariants
  import History
  import Wire

  /** Some run from the initial state, with any number of ports, ends in `c`. */
  ghost predicate Reachable(c: ClockState) {
    exists d0, profile, n: uint16, es :: Run(Start(d0, profile, n), es) == Reached(c)
  }

  lemma ReachableIsInv(c: ClockState)
    requires Reachable(c)
    ensures Inv(c)
  {
    var d0, profile, n: uint16, es :| Run(Start(d0, profile, n), es) == Reached(c);
    ReachableInv(d0, profile, n, es);
  }

  lemma PortInv(c: ClockState, i: nat)
    requires Reachable(c) && i < |c.slots|
    ensures SlotInv(ViewOf(c, i), c.slots[i])
  {
    ReachableIsInv(c);
  }

  // ----- Caches

  /** Each trigger remembers its port's current E_rbest, the clock's map holds exactly the qualified
  ones, and each store is the one its Announce history determines, through every role change, fault
  and recovery. */
  lemma CachesAreCoherent(c: ClockState)
    requires Reachable(c)
    ensures forall i :: 0 <= i < |c.slots| ==>
              && c.slots[i].state.core.previous == c.slots[i].state.core.ERbest()
              && c.slots[i].state.core.records == History.Store(c.slots[i].observed)
    ensures c.byPort == CandidateMap(StoresOf(c.slots), c.d0.identity)
  {
    ReachableIsInv(c);
    forall i | 0 <= i < |c.slots|
      ensures c.slots[i].state.core.previous == c.slots[i].state.core.ERbest()
      ensures c.slots[i].state.core.records == History.Store(c.slots[i].observed)
    {
      assert SlotInv(ViewOf(c, i), c.slots[i]);
    }
  }

  // ----- Roles

  /** A slave-like port follows the source of the E_best it evaluated last, which was received on this
  very port and beat a non-authoritative D_0. */
  lemma SlaveFollowsLastSnapshot(c: ClockState, i: nat)
    requires Reachable(c) && i < |c.slots| && c.slots[i].state.SlaveLike()
    ensures c.slots[i].processed.Some?
    ensures var inputs := c.slots[i].processed.value.inputs;
            && inputs.d0 == c.d0 && !GrandmasterCapable(c.d0) && !LocalAhead(c.d0, inputs.eBest)
            && inputs.eBest.receiver.port == i + 1
            && inputs.eBest.source == c.slots[i].state.parent
  {
    PortInv(c, i);
  }

  /** Ports that evaluated the same inputs last agree: at most one of them is slave-like. */
  lemma AtMostOneSlave(c: ClockState, i: nat, j: nat)
    requires Reachable(c) && i < |c.slots| && j < |c.slots|
    requires c.slots[i].state.SlaveLike() && c.slots[j].state.SlaveLike()
    requires c.slots[i].processed.Some? && c.slots[j].processed.Some?
    requires c.slots[i].processed.value.inputs == c.slots[j].processed.value.inputs
    ensures i == j
  {
    SlaveFollowsLastSnapshot(c, i);
    SlaveFollowsLastSnapshot(c, j);
  }

  /** A PRE_MASTER or MASTER port tracks D_0 or the E_best it evaluated last plus one step; all
  Announces of its MASTER tenure carry that dataset with sequence ids 0, 1, 2 and so on. */
  lemma MasterAnnouncesTrackedDataset(c: ClockState, i: nat)
    requires Reachable(c) && i < |c.slots| && c.slots[i].state.MasterLike()
    ensures c.slots[i].state.gm == c.d0 ||
            (c.slots[i].processed.Some?
             && var e := c.slots[i].processed.value.inputs.eBest;
                e.Qualified? && c.slots[i].state.gm == e.ds.(steps := if e.ds.steps == 65535 then 65535 else e.ds.steps + 1))
    ensures c.slots[i].state.Master? ==> forall k :: 0 <= k < |c.slots[i].announced| ==>
              && c.slots[i].announced[k].Announce?
              && c.slots[i].announced[k].seqId == k % 0x1_0000
              && c.slots[i].announced[k].ds == c.slots[i].state.gm
              && c.slots[i].announced[k].logInterval == c.profile.logAnnounce
  {
    PortInv(c, i);
  }

  /** On the wire, any Announce of a MASTER tenure parses at the receiver to the tracked dataset, from
  this port, in the sender's domain; what the wire does to a non-canonical dataset no comparison can
  tell (`Wire.TransitKeepsComparison`). */
  lemma AnnouncesSurviveTheWire(c: ClockState, i: nat, k: nat, w: seq<byte>, domain: byte)
    requires Reachable(c) && i < |c.slots| && c.slots[i].state.Master? && k < |c.slots[i].announced|
    requires Wire.Carries(w, Wire.GeneralFrame(c.slots[i].announced[k]), domain, c.slots[i].state.core.me)
    ensures Wire.ReceiveGeneral(w, domain).Ok?
    ensures var got := Wire.ReceiveGeneral(w, domain).value;
            && got.source == PortIdentity(c.d0.identity, i + 1)
            && got.message.Announce?
            && got.message.seqId == k % 0x1_0000
            && got.message.ds == Wire.Transit(c.slots[i].state.gm)
  {
    PortInv(c, i);
    MasterAnnouncesTrackedDataset(c, i);
    Wire.GeneralRoundTrip(w, c.slots[i].announced[k], domain, c.slots[i].state.core.me, domain);
  }

  /** What the BMCA decides for port `i` on the current best of the clock and the port's E_rbest. */
  function CurrentVerdict(c: ClockState, i: nat): Decision
    requires i < |c.slots|
  {
    Decide(c.d0, i + 1, CurrentBest(c), c.slots[i].state.core.ERbest())
  }

  /** A port that has evaluated the latest broadcast is in the state the BMCA decides on the current
  best of the clock and the port's current E_rbest, exactly unless it is LISTENING, which it then is
  only with an empty E_rbest. */
  lemma UpToDatePortIsSettled(c: ClockState, i: nat)
    requires Reachable(c) && i < |c.slots|
    requires UpToDate(ViewOf(c, i), c.slots[i])
    ensures Matches(c.slots[i].state, CurrentVerdict(c, i)) <==> !c.slots[i].state.Listening?
    ensures c.slots[i].state.Listening? ==> c.slots[i].state.core.ERbest() == Empty
  {
    PortInv(c, i);
  }

  /** A clock that no foreign record beats announces itself on every port that has evaluated the
  latest broadcast; an authoritative one does so on every port whose own best it beats, is PASSIVE
  on the others, and follows nobody. A port may instead still be LISTENING, if it has heard no
  qualified master. */
  lemma GrandmasterAnnouncesItself(c: ClockState, i: nat)
    requires Reachable(c) && i < |c.slots|
    requires UpToDate(ViewOf(c, i), c.slots[i])
    ensures var s := c.slots[i].state;
            && (!GrandmasterCapable(c.d0) && LocalAhead(c.d0, CurrentBest(c)) ==> Undecided(s) || (s.MasterLike() && s.gm == c.d0))
            && (GrandmasterCapable(c.d0) ==>
                  if LocalAhead(c.d0, s.core.ERbest()) then Undecided(s) || (s.MasterLike() && s.gm == c.d0) else s.Passive?)
  {
    UpToDatePortIsSettled(c, i);
    DecisionMeans(c.d0, i + 1, CurrentBest(c), c.slots[i].state.core.ERbest());
  }

  // ----- After an announce receipt timeout

  /** The clock after port `i` times out, and after it then evaluates the broadcast this makes. */
  function TimedOut(c: ClockState, i: nat): Option<ClockState>
    requires i < |c.slots|
  {
    StepClock(c, Deliver(i, SystemInput(AnnounceReceiptTimeout, true, Ptp)))
  }

  function Reevaluated(d: ClockState, i: nat): Option<ClockState>
    requires i < |d.slots| && d.slots[i].mailbox != []
  {
    StepClock(d, DeliverSnapshot(i, |d.slots[i].mailbox| - 1))
  }

  /** A time-out makes the port MASTER on D_0 and broadcasts the best as it was: nothing is pruned. */
  lemma TimeoutBroadcastsSameBest(c: ClockState, i: nat)
    requires Reachable(c) && i < |c.slots| && c.slots[i].state.OwnsReceiptTimer()
    ensures TimedOut(c, i).Some?
    ensures var d := TimedOut(c, i).value;
            && i < |d.slots|
            && d.slots[i].state == Master(c.slots[i].state.core, c.d0, 0, 0)
            && d.slots[i].mailbox != []
            && d.slots[i].mailbox[|d.slots[i].mailbox| - 1].inputs == DecisionInputs(c.d0, CurrentBest(c))
            && d.slots[i].state.core.me.port == i + 1
  {
    ReachableIsInv(c);
    var s, core := c.slots[i], c.slots[i].state.core;
    assert core.previous == core.ERbest() && core.d0 == c.d0 && core.me.port == i + 1 by {
      assert SlotInv(ViewOf(c, i), s);
    }
    SameReportSameMap(c, i);
    TimeoutStep(c, i);
  }

  lemma TimeoutStep(c: ClockState, i: nat)
    requires i < |c.slots| && c.slots[i].state.OwnsReceiptTimer()
    requires var core := c.slots[i].state.core; core.previous == core.ERbest() && core.d0 == c.d0
    requires Reported(c.byPort, i + 1, c.slots[i].state.core.ERbest()) == c.byPort
    ensures TimedOut(c, i).Some?
    ensures var d := TimedOut(c, i).value;
            && i < |d.slots|
            && d.slots[i].state == Master(c.slots[i].state.core, c.d0, 0, 0)
            && d.slots[i].mailbox != []
            && d.slots[i].mailbox[|d.slots[i].mailbox| - 1].inputs == DecisionInputs(c.d0, CurrentBest(c))
  {
    var s, e := c.slots[i], Deliver(i, SystemInput(AnnounceReceiptTimeout, true, Ptp));
    ReceiptTimeoutIsAMove(c.profile, s.state, e.input);
    var o := OutcomeOf(c, e).value;
    assert o == Outcome(Master(s.state.core, c.d0, 0, 0), QUIET.(report := Some(s.state.core.ERbest())));
    ReplacePosts(c, i, NextSlot(s, e, o), o.effects.report, i);
    ReplaceKeepsState(c, i, NextSlot(s, e, o), o.effects.report);
  }

  lemma ReplaceKeepsState(c: ClockState, k: nat, t: Slot, report: Option<Snapshot>)
    requires k < |c.slots|
    ensures var d := Replace(c, k, t, report);
            |d.slots| == |c.slots| && d.slots[k].state == t.state
  {
  }

  lemma SameReportSameMap(c: ClockState, i: nat)
    requires Inv(c) && i < |c.slots|
    ensures Reported(c.byPort, i + 1, c.slots[i].state.core.ERbest()) == c.byPort
  {
    assert SlotInv(ViewOf(c, i), c.slots[i]);
    var stores := StoresOf(c.slots);
    ReportKeepsCandidateMap(stores, c.d0.identity, i, stores[i]);
    assert stores[i := stores[i]] == stores;
  }

  /** Evaluating that broadcast, the port stays MASTER exactly when the BMCA, on the best of the clock as
  it was, decides for a master on D_0; otherwise it leaves MASTER for the state decided. */
  lemma TimedOutPortReevaluates(c: ClockState, i: nat)
    requires Reachable(c) && i < |c.slots| && c.slots[i].state.OwnsReceiptTimer()
    ensures TimedOut(c, i).Some? && i < |TimedOut(c, i).value.slots| && TimedOut(c, i).value.slots[i].mailbox != []
    ensures Reevaluated(TimedOut(c, i).value, i).Some?
    ensures var f, verdict := Reevaluated(TimedOut(c, i).value, i).value, CurrentVerdict(c, i);
            && i < |f.slots|
            && (f.slots[i].state.Master? <==> verdict.BeMaster? && verdict.ds == c.d0)
            && (verdict.BeSlave? ==> f.slots[i].state.Uncalibrated?)
            && Matches(f.slots[i].state, verdict)
  {
    TimeoutBroadcastsSameBest(c, i);
    EvaluationDecides(TimedOut(c, i).value, i, CurrentVerdict(c, i));
  }

  /** Evaluating the newest snapshot takes an operating port to the state decided. */
  lemma EvaluationDecides(d: ClockState, i: nat, verdict: Decision)
    requires i < |d.slots| && d.slots[i].mailbox != [] && d.slots[i].state.Master?
    requires verdict == PortDecision(d.slots[i].state, d.slots[i].mailbox[|d.slots[i].mailbox| - 1].inputs)
    ensures Reevaluated(d, i).Some? && i < |Reevaluated(d, i).value.slots|
    ensures var t := Reevaluated(d, i).value.slots[i].state;
            && Matches(t, verdict)
            && (t.Master? <==> Matches(d.slots[i].state, verdict))
            && (verdict.BeSlave? ==> t.Uncalibrated?)
  {
    var s, e := d.slots[i], DeliverSnapshot(i, |d.slots[i].mailbox| - 1);
    var inputs := s.mailbox[e.index].inputs;
    EveryStepIsAMove(d.profile, s.state, InputOf(s, e));
    var o := OutcomeOf(d, e).value;
    assert o.state == DecidedTo(d.profile, s.state, inputs.d0, verdict);
    DecisionsTakeEffect(d.profile, s.state, inputs.d0, verdict);
    ReplaceKeepsState(d, i, NextSlot(s, e, o), o.effects.report);
  }

  /** In particular a port that follows the current best goes back to UNCALIBRATED under the very
  parent that fell silent. */
  lemma SilentParentIsFollowedAgain(c: ClockState, i: nat)
    requires Reachable(c) && i < |c.slots| && c.slots[i].state.SlaveLike()
    requires UpToDate(ViewOf(c, i), c.slots[i])
    ensures TimedOut(c, i).Some? && i < |TimedOut(c, i).value.slots| && TimedOut(c, i).value.slots[i].mailbox != []
    ensures Reevaluated(TimedOut(c, i).value, i).Some?
    ensures var f := Reevaluated(TimedOut(c, i).value, i).value;
            i < |f.slots| && f.slots[i].state.Uncalibrated? && f.slots[i].state.parent == c.slots[i].state.parent
  {
    TimedOutPortReevaluates(c, i);
    UpToDatePortIsSettled(c, i);
  }

  // ----- Clock discipline

  /** A port is SLAVE exactly when the last verdict of its servo was Locked, and UNCALIBRATED exactly
  when it was not or no sample has been fed since the servo was built. */
  lemma ServoAndPortStayCoupled(c: ClockState, i: nat)
    requires Reachable(c) && i < |c.slots| && c.slots[i].state.SlaveLike()
    ensures c.slots[i].state.pipeline == Replay(c.profile.servo, c.slots[i].log).pipeline
    ensures c.slots[i].state.Slave? <==> Replay(c.profile.servo, c.slots[i].log).verdict == Some(Locked)
    ensures c.slots[i].state.Uncalibrated? <==> Replay(c.profile.servo, c.slots[i].log).verdict != Some(Locked)
  {
    PortInv(c, i);
  }

  /** The delay mechanism holds only what was recorded from the parent the port tracks now. */
  lemma NoMixingOfMasters(c: ClockState, i: nat)
    requires Reachable(c) && i < |c.slots| && c.slots[i].state.SlaveLike()
    ensures c.slots[i].state.pipeline.mechanism == RecordedAll(c.slots[i].log)
    ensures AllFrom(c.slots[i].log, c.slots[i].state.parent)
  {
    PortInv(c, i);
    ReplayRecords(c.profile.servo, c.slots[i].log);
  }

  function OutcomeOf(c: ClockState, e: Event): Option<Outcome>
    requires Fits(c, e)
  {
    PortStep(c.profile, c.slots[e.port].state, InputOf(c.slots[e.port], e))
  }

  /** Whatever an event does to the local clock is the servo's answer to the fragments recorded since
  the servo was built, and these all came from the parent the port tracks. */
  lemma ClockActionsHaveOneParent(c: ClockState, e: Event)
    requires Reachable(c) && Fits(c, e)
    requires OutcomeOf(c, e).Some? && OutcomeOf(c, e).value.effects.action.Some?
    ensures c.slots[e.port].state.SlaveLike() && OutcomeOf(c, e).value.effects.recorded.Some?
    ensures var log, f := c.slots[e.port].log, OutcomeOf(c, e).value.effects.recorded.value;
            && AllFrom(log + [f], c.slots[e.port].state.parent)
            && OutcomeOf(c, e).value.effects.action == Absorb(Replay(c.profile.servo, log).pipeline, f).action
  {
    PortInv(c, e.port);
    var f := ActionsComeFromFragments(c.profile, c.slots[e.port].state, InputOf(c.slots[e.port], e));
  }

  // ----- Hypotheses H1 and H2 along a run

  /** `rep` gives every grandmaster identity one set of attributes. */
  type Attributes = ClockIdentity -> ClockDS

  predicate Attested(rep: Attributes, ds: ClockDS) {
    SameValues(ds, rep(ds.identity))
  }

  predicate GoodObservation(rep: Attributes, me: PortIdentity, o: Observation) {
    Attested(rep, o.ds) && o.source != me
  }

  /** An Announce that states the attributes of its grandmaster and was not sent by the port itself. */
  predicate GoodEvent(rep: Attributes, clock: ClockIdentity, e: Event) {
    e.Deliver? && e.port < U16_MAX && ObservationOf(e.input).Some? ==>
      GoodObservation(rep, PortIdentity(clock, e.port + 1), ObservationOf(e.input).value)
  }

  predicate GoodRun(rep: Attributes, clock: ClockIdentity, es: seq<Event>) {
    forall k :: 0 <= k < |es| ==> GoodEvent(rep, clock, es[k])
  }

  /** `c` is reachable by a run whose Announces satisfy H1, with the attributes `rep`, and H2. */
  ghost predicate WellAnnounced(rep: Attributes, c: ClockState) {
    exists d0, profile, n: uint16, es :: Run(Start(d0, profile, n), es) == Reached(c) && GoodRun(rep, d0.identity, es)
  }

  predicate GoodHistory(rep: Attributes, me: PortIdentity, h: seq<Observation>) {
    forall k :: 0 <= k < |h| ==> GoodObservation(rep, me, h[k])
  }

  predicate GoodHistories(rep: Attributes, c: ClockState) {
    forall i :: 0 <= i < |c.slots| ==> GoodHistory(rep, PortIdentity(c.d0.identity, i + 1), c.slots[i].observed)
  }

  lemma StepKeepsHistories(rep: Attributes, c: ClockState, e: Event)
    requires GoodHistories(rep, c) && Fits(c, e) && GoodEvent(rep, c.d0.identity, e) && StepClock(c, e).Some?
    ensures GoodHistories(rep, StepClock(c, e).value) && StepClock(c, e).value.d0 == c.d0
  {
    var k, s := e.port, c.slots[e.port];
    ReplaceKeepsHistories(rep, c, k, NextSlot(s, e, OutcomeOf(c, e).value), OutcomeOf(c, e).value.effects.report);
  }

  lemma ReplaceKeepsHistories(rep: Attributes, c: ClockState, k: nat, t: Slot, report: Option<Snapshot>)
    requires GoodHistories(rep, c) && k < |c.slots|
    requires GoodHistory(rep, PortIdentity(c.d0.identity, k + 1), t.observed)
    ensures GoodHistories(rep, Replace(c, k, t, report)) && Replace(c, k, t, report).d0 == c.d0
  {
    var d := Replace(c, k, t, report);
    forall i | 0 <= i < |d.slots| ensures GoodHistory(rep, PortIdentity(d.d0.identity, i + 1), d.slots[i].observed) {
      assert d.slots[i].observed == if i == k then t.observed else c.slots[i].observed;
    }
  }

  lemma {:induction false} RunKeepsHistories(rep: Attributes, c: ClockState, es: seq<Event>)
    requires GoodHistories(rep, c) && GoodRun(rep, c.d0.identity, es)
    requires Run(c, es).Reached?
    ensures GoodHistories(rep, Run(c, es).clock) && Run(c, es).clock.d0 == c.d0
  {
    if es != [] {
      RunKeepsHistories(rep, c, es[..|es| - 1]);
      StepKeepsHistories(rep, Run(c, es[..|es| - 1]).clock, es[|es| - 1]);
    }
  }

  lemma {:induction false} StoreMembersWereObserved(h: seq<Observation>, r: Record) returns (k: nat)
    requires r in History.Store(h)
    ensures k < |h| && h[k].source == r.source && h[k].ds == r.ds
  {
    var init, o := h[..|h| - 1], h[|h| - 1];
    PrunedIsSubset(History.Store(init), o.now);
    RememberedMembers(Pruned(History.Store(init), o.now), NewRecord(o));
    if r.source == o.source && r.ds == o.ds {
      k := |h| - 1;
    } else {
      k := StoreMembersWereObserved(init, r);
    }
  }

  lemma AttestedAgree(rep: Attributes, a: ClockDS, b: ClockDS)
    requires Attested(rep, a) && Attested(rep, b)
    ensures SameAttributes(a, b)
  {
  }

  lemma RecordsAreAttested(rep: Attributes, c: ClockState, i: nat, r: Record)
    requires Inv(c) && GoodHistories(rep, c) && i < |c.slots| && r in StoresOf(c.slots)[i]
    ensures Attested(rep, r.ds) && r.source != PortIdentity(c.d0.identity, i + 1)
  {
    assert SlotInv(ViewOf(c, i), c.slots[i]);
    var k := StoreMembersWereObserved(c.slots[i].observed, r);
    assert GoodHistory(rep, PortIdentity(c.d0.identity, i + 1), c.slots[i].observed);
  }

  lemma StoresAreComparable(rep: Attributes, c: ClockState)
    requires Inv(c) && GoodHistories(rep, c)
    ensures AllComparable(StoresOf(c.slots), c.d0.identity)
  {
    var stores := StoresOf(c.slots);
    forall i, j | 0 <= i < |stores| && 0 <= j < |stores| ensures CrossComparable(stores[i], stores[j]) {
      forall r, s | r in stores[i] && s in stores[j] ensures SameAttributes(r.ds, s.ds) {
        RecordsAreAttested(rep, c, i, r);
        RecordsAreAttested(rep, c, j, s);
        AttestedAgree(rep, r.ds, s.ds);
      }
    }
    forall i, r | 0 <= i < |stores| && r in stores[i] ensures r.source != PortIdentity(c.d0.identity, i + 1) {
      RecordsAreAttested(rep, c, i, r);
    }
    forall i | 0 <= i < |stores| ensures DistinctSources(stores[i]) {
      assert SlotInv(ViewOf(c, i), c.slots[i]);
    }
  }

  lemma WellAnnouncedInv(rep: Attributes, c: ClockState)
    requires WellAnnounced(rep, c)
    ensures Reachable(c) && Inv(c) && GoodHistories(rep, c)
  {
    var d0, profile, n: uint16, es :| Run(Start(d0, profile, n), es) == Reached(c) && GoodRun(rep, d0.identity, es);
    ReachableInv(d0, profile, n, es);
    StartHistories(rep, d0, profile, n);
    RunKeepsHistories(rep, Start(d0, profile, n), es);
  }

  lemma StartHistories(rep: Attributes, d0: ClockDS, profile: Profile, n: uint16)
    ensures GoodHistories(rep, Start(d0, profile, n))
  {
    var c := Start(d0, profile, n);
    forall i | 0 <= i < |c.slots| ensures GoodHistory(rep, PortIdentity(d0.identity, i + 1), c.slots[i].observed) {
      assert c.slots[i] == StartSlot(d0, i + 1);
    }
  }

  // ----- Agreement on the best master

  /** In every state of a run that satisfies H1 and H2, the current best is the one record that beats
  every other qualified record of every port. */
  lemma CurrentBestIsTrueBest(rep: Attributes, c: ClockState)
    requires WellAnnounced(rep, c)
    ensures AllComparable(StoresOf(c.slots), c.d0.identity)
    ensures IsTrueBest(StoresOf(c.slots), c.d0.identity, CurrentBest(c))
  {
    WellAnnouncedInv(rep, c);
    StoresAreComparable(rep, c);
    TwoLevelSelectionIsGlobal(StoresOf(c.slots), c.d0.identity, |c.slots| + 1, Empty);
  }

  /** The newest broadcast, wherever it is still undelivered or was evaluated last, carries that true
  best; in particular every broadcast does at the moment it is made. */
  lemma LatestBroadcastIsTrueBest(rep: Attributes, c: ClockState, i: nat, post: Posted)
    requires WellAnnounced(rep, c) && i < |c.slots|
    requires post in c.slots[i].mailbox || c.slots[i].processed == Some(post)
    requires post.number == c.broadcasts
    ensures post.inputs.d0 == c.d0
    ensures IsTrueBest(StoresOf(c.slots), c.d0.identity, post.inputs.eBest)
  {
    CurrentBestIsTrueBest(rep, c);
    WellAnnouncedInv(rep, c);
    assert SlotInv(ViewOf(c, i), c.slots[i]);
  }

  /** An event that makes a broadcast leaves it, with its number, at the end of every mailbox. */
  lemma BroadcastReachesEveryPort(c: ClockState, e: Event, i: nat)
    requires Fits(c, e) && StepClock(c, e).Some? && i < |c.slots|
    ensures var d := StepClock(c, e).value;
            && |d.slots| == |c.slots|
            && (d.broadcasts == c.broadcasts || d.broadcasts == c.broadcasts + 1)
            && (d.broadcasts == c.broadcasts + 1 ==>
                  && |d.slots[i].mailbox| > 0
                  && d.slots[i].mailbox[|d.slots[i].mailbox| - 1]
                       == Posted(d.broadcasts, DecisionInputs(c.d0, CurrentBest(d))))
  {
    var k, o := e.port, OutcomeOf(c, e).value;
    ReplacePosts(c, k, NextSlot(c.slots[k], e, o), o.effects.report, i);
  }

  lemma ReplacePosts(c: ClockState, k: nat, t: Slot, report: Option<Snapshot>, i: nat)
    requires k < |c.slots| && i < |c.slots|
    ensures var d := Replace(c, k, t, report);
            && |d.slots| == |c.slots|
            && d.broadcasts == (if report.Some? then c.broadcasts + 1 else c.broadcasts)
            && (report.Some? ==>
                  && |d.slots[i].mailbox| > 0
                  && d.slots[i].mailbox[|d.slots[i].mailbox| - 1]
                       == Posted(d.broadcasts, DecisionInputs(c.d0, CurrentBest(d))))
  {
  }

  // ----- Two clocks joined by a link

  function EndOf(c: ClockState, i: nat): LinkEnd
    requires i < |c.slots|
  {
    LinkEnd(c.d0, PortIdentity(c.d0.identity, i + 1), CurrentBest(c), c.slots[i].state.core.ERbest())
  }

  /** In a well-announced state the E_best of a clock that follows it is maximal as each of its ports
  sees it. */
  lemma EndIsMaximal(rep: Attributes, c: ClockState, i: nat)
    requires WellAnnounced(rep, c) && i < |c.slots|
    requires EndOf(c, i).Follows()
    ensures EndOf(c, i).BestIsMaximal()
    ensures Attested(rep, CurrentBest(c).ds)
  {
    assert Inv(c) && GoodHistories(rep, c) by {
      WellAnnouncedInv(rep, c);
    }
    PortBestIsERbest(c, i);
    CurrentBestIsTrueBest(rep, c);
    assert CurrentBest(c).Qualified?;
    TrueBestBeatsPortBest(StoresOf(c.slots), c.d0.identity, CurrentBest(c), i + 1);
    HeldIsAttested(rep, c, CurrentBest(c).Topology());
  }

  lemma PortBestIsERbest(c: ClockState, i: nat)
    requires Inv(c) && i < |c.slots|
    ensures PortBest(StoresOf(c.slots), c.d0.identity, i + 1) == EndOf(c, i).eRbest
  {
    assert SlotInv(ViewOf(c, i), c.slots[i]);
  }

  lemma HeldIsAttested(rep: Attributes, c: ClockState, t: TopologyDS)
    requires Inv(c) && GoodHistories(rep, c) && Holds(StoresOf(c.slots), c.d0.identity, t)
    ensures Attested(rep, t.ds)
  {
    var k := t.receiver.port - 1;
    var r := HeldRecord(StoresOf(c.slots), c.d0.identity, t);
    RecordsAreAttested(rep, c, k, r);
  }

  predicate Yields(s: PortState) {
    s.SlaveLike() || s.Passive?
  }

  /** One end is PRE_MASTER or MASTER and the other UNCALIBRATED, SLAVE or PASSIVE. */
  predicate OneMasterState(s: PortState, t: PortState) {
    (s.MasterLike() && Yields(t)) || (t.MasterLike() && Yields(s))
  }

  /** Two boundary clocks reached by any runs that satisfy H1 and H2, each following a foreign
  grandmaster, the same one, and joined by a link whose ends hear each other's announcements and have
  evaluated the latest broadcast: exactly one end is master, if and only if stepsRemoved still
  counts. */
  lemma LinkedClocksHaveOneMaster(rep: Attributes, c: ClockState, i: nat, d: ClockState, j: nat)
    requires WellAnnounced(rep, c) && i < |c.slots| && UpToDate(ViewOf(c, i), c.slots[i])
    requires WellAnnounced(rep, d) && j < |d.slots| && UpToDate(ViewOf(d, j), d.slots[j])
    requires EndOf(c, i).me != EndOf(d, j).me
    requires EndOf(c, i).Follows() && EndOf(d, j).Follows()
    requires EndOf(c, i).Hears(EndOf(d, j)) && EndOf(d, j).Hears(EndOf(c, i))
    requires CurrentBest(c).ds.identity == CurrentBest(d).ds.identity
    ensures OneMasterState(c.slots[i].state, d.slots[j].state) <==> StepsStillCount(EndOf(c, i), EndOf(d, j))
  {
    var a, b := EndOf(c, i), EndOf(d, j);
    EndIsMaximal(rep, c, i);
    EndIsMaximal(rep, d, j);
    AttestedAgree(rep, a.eBest.ds, b.eBest.ds);
    OneMasterPerLink(a, b);
    LinkVerdict(a, b);
    AttestedAgree(rep, b.eBest.ds, a.eBest.ds);
    LinkVerdict(b, a);
    WellAnnouncedInv(rep, c);
    WellAnnouncedInv(rep, d);
    UpToDatePortIsSettled(c, i);
    UpToDatePortIsSettled(d, j);
    StatesFollowVerdicts(c.slots[i].state, a.Verdict(), d.slots[j].state, b.Verdict());
  }

  /** What the port with state `s` announces, as port `listener` records it: only MASTER sends. */
  function Announcement(s: PortState, listener: PortIdentity): Snapshot {
    if s.Master? then Qualified(s.gm, s.core.me, listener) else Empty
  }

  /** The port has sent, or may send at its next announce timeout: it is past LISTENING and past the
  qualification timeout of PRE_MASTER. */
  predicate PastQualification(s: PortState) {
    !s.Listening? && !s.PreMaster?
  }

  /** The same with no condition on step counts, for a link on which each end's E_rbest is exactly what
  the state of the other end announces: exactly one end is master, if and only if both ends are past
  qualification; before that the other end hears nothing and is on its way to MASTER too. Two ends are
  never both MASTER. */
  lemma SettledLinkHasOneMaster(rep: Attributes, c: ClockState, i: nat, d: ClockState, j: nat)
    requires WellAnnounced(rep, c) && i < |c.slots| && UpToDate(ViewOf(c, i), c.slots[i])
    requires WellAnnounced(rep, d) && j < |d.slots| && UpToDate(ViewOf(d, j), d.slots[j])
    requires EndOf(c, i).me != EndOf(d, j).me
    requires EndOf(c, i).Follows() && EndOf(d, j).Follows()
    requires EndOf(c, i).eRbest == Announcement(d.slots[j].state, EndOf(c, i).me)
    requires EndOf(d, j).eRbest == Announcement(c.slots[i].state, EndOf(d, j).me)
    requires CurrentBest(c).ds.identity == CurrentBest(d).ds.identity
    ensures var s, t := c.slots[i].state, d.slots[j].state;
            && (OneMasterState(s, t) <==> PastQualification(s) && PastQualification(t))
            && (s.PreMaster? ==> t.MasterLike() || t.Listening?)
            && (t.PreMaster? ==> s.MasterLike() || s.Listening?)
            && !(s.Master? && t.Master?)
  {
    var a, b := EndOf(c, i), EndOf(d, j);
    EndIsMaximal(rep, c, i);
    EndIsMaximal(rep, d, j);
    AttestedAgree(rep, a.eBest.ds, b.eBest.ds);
    if !c.slots[i].state.Listening? {
      SettledEnd(rep, c, i);
    }
    if !d.slots[j].state.Listening? {
      SettledEnd(rep, d, j);
    }
    SettledStates(a, c.slots[i].state, b, d.slots[j].state);
  }

  /** The state of an end of a link agrees with the BMCA's verdict on what the end sees. */
  predicate AgreesWith(s: PortState, a: LinkEnd)
    requires a.eBest.Qualified?
  {
    && s.core.me == a.me
    && (s.MasterLike() <==> Announces(a.Verdict()))
    && (s.MasterLike() ==> s.gm == WithAddedStep(a.eBest.ds))
    && (Yields(s) <==> DefersToPeer(a.Verdict()))
  }

  lemma SettledStates(a: LinkEnd, s: PortState, b: LinkEnd, t: PortState)
    requires a.me != b.me && a.Follows() && b.Follows() && a.BestIsMaximal() && b.BestIsMaximal()
    requires a.eBest.ds.identity == b.eBest.ds.identity
    requires SameValues(a.eBest.ds, b.eBest.ds)
    requires a.eRbest == Announcement(t, a.me) && b.eRbest == Announcement(s, b.me)
    requires s.Listening? || AgreesWith(s, a)
    requires t.Listening? || AgreesWith(t, b)
    ensures OneMasterState(s, t) <==> PastQualification(s) && PastQualification(t)
    ensures s.PreMaster? ==> t.MasterLike() || t.Listening?
    ensures t.PreMaster? ==> s.MasterLike() || s.Listening?
    ensures !(s.Master? && t.Master?)
  {
    if a.eRbest.Empty? {
      SilenceMeansMaster(a);
    }
    if b.eRbest.Empty? {
      SilenceMeansMaster(b);
    }
    if PastQualification(s) && PastQualification(t) {
      EquilibriumHasOneMaster(a, b);
    }
    if s.Master? && t.Master? {
      EquilibriumHasOneMaster(a, b);
    }
  }

  /** The state of an up-to-date end says what its BMCA decides. */
  lemma SettledEnd(rep: Attributes, c: ClockState, i: nat)
    requires WellAnnounced(rep, c) && i < |c.slots| && UpToDate(ViewOf(c, i), c.slots[i])
    requires EndOf(c, i).Follows() && !c.slots[i].state.Listening?
    ensures AgreesWith(c.slots[i].state, EndOf(c, i))
  {
    WellAnnouncedInv(rep, c);
    assert SlotInv(ViewOf(c, i), c.slots[i]);
    UpToDatePortIsSettled(c, i);
    FollowersAnnounceOrDefer(EndOf(c, i));
  }

  lemma StatesFollowVerdicts(s: PortState, x: Decision, t: PortState, y: Decision)
    requires Matches(s, x) && Matches(t, y)
    requires s.core.ERbest().Qualified? && t.core.ERbest().Qualified?
    requires Announces(x) || DefersToPeer(x)
    requires Announces(y) || DefersToPeer(y)
    ensures OneMasterState(s, t) <==> (Announces(x) && DefersToPeer(y)) || (Announces(y) && DefersToPeer(x))
  {
  }
}
