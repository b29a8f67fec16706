/** What holds of every port, and of the clock as a whole, after any number of steps. */
module Invariants {
  import opened Base
  import opened Clock
  import opened Dataset
  import opened Foreign
  import opened Candidates
  import opened Bmca
  import opened Messages
  import opened Delay
  import opened Servo
  import opened Discipline
  import opened PortMachine
  import opened Boundary
  import History

  /** What a port's invariant refers to outside the port: the clock's D_0 and profile, the port's
  number, the number of broadcasts so far and the best over the clock's candidates now. */
  datatype View = View(d0: ClockDS, profile: Profile, port: uint16, broadcasts: nat, eBest: Snapshot)

  // ----- The parts of a port's invariant

  /** Right identity, and the trigger's memory is the current E_rbest of the stored records, which
  are the ones the Announce history determines. */
  predicate CoreOk(v: View, s: Slot) {
    var core := s.state.core;
    && core.me == PortIdentity(v.d0.identity, v.port)
    && core.d0 == v.d0
    && core.previous == core.ERbest()
    && DistinctSources(core.records)
    && core.records == History.Store(s.observed)
  }

  predicate PostOk(v: View, p: Posted) {
    p.number <= v.broadcasts && p.inputs.d0 == v.d0
  }

  predicate MailOk(v: View, s: Slot) {
    && (forall i :: 0 <= i < |s.mailbox| ==> PostOk(v, s.mailbox[i]))
    && (s.processed.Some? ==> PostOk(v, s.processed.value))
  }

  /** Why a port may be slave-like: the last snapshot it evaluated says so. */
  predicate FollowsBecause(v: View, s: Slot)
    requires s.state.SlaveLike()
  {
    && s.processed.Some?
    && var e := s.processed.value.inputs;
    && !GrandmasterCapable(e.d0)
    && !LocalAhead(e.d0, e.eBest)
    && e.eBest.receiver.port == v.port
    && e.eBest.source == s.state.parent
  }

  /** What a master announces: D_0, or the last evaluated E_best one step further away. */
  predicate AnnouncesBecause(v: View, s: Slot)
    requires s.state.MasterLike()
  {
    || s.state.gm == v.d0
    || (s.processed.Some?
        && var e := s.processed.value.inputs.eBest;
           e.Qualified? && s.state.gm == WithAddedStep(e.ds))
  }

  predicate RoleOk(v: View, s: Slot) {
    && (s.state.SlaveLike() ==> FollowsBecause(v, s))
    && (s.state.MasterLike() ==> AnnouncesBecause(v, s))
  }

  /** The pipeline is the replay of fragments that all came from the current parent, and the port is
  SLAVE exactly when the servo's last verdict was Locked. */
  predicate DisciplineOk(v: View, s: Slot) {
    s.state.SlaveLike() ==>
      var r := Replay(v.profile.servo, s.log);
      && s.state.pipeline == r.pipeline
      && AllFrom(s.log, s.state.parent)
      && (s.state.Slave? <==> r.verdict == Some(Locked))
  }

  /** Announces of one MASTER tenure: consecutive sequence ids from 0, always the tracked dataset. */
  predicate TenureOk(v: View, s: Slot) {
    s.state.Master? ==>
      && s.state.announceSeq == |s.announced| % 0x1_0000
      && forall k :: 0 <= k < |s.announced| ==>
           && s.announced[k].Announce?
           && s.announced[k].seqId == k % 0x1_0000
           && s.announced[k].ds == s.state.gm
           && s.announced[k].logInterval == v.profile.logAnnounce
  }

  predicate Basic(v: View, s: Slot) {
    CoreOk(v, s) && MailOk(v, s) && RoleOk(v, s) && DisciplineOk(v, s) && TenureOk(v, s)
  }

  /** The state is the one the BMCA decides on the current best and the port's own E_rbest, or the
  port is still undecided. */
  predicate Settled(v: View, s: Slot) {
    Suppressed(s.state, Decide(v.d0, v.port, v.eBest, s.state.core.ERbest()))
  }

  /** The port has evaluated the latest broadcast. */
  predicate UpToDate(v: View, s: Slot) {
    s.processed.Some? && s.processed.value.number == v.broadcasts
  }

  /** The latest broadcast carries the current best, and a port that has evaluated it is settled. */
  predicate Current(v: View, s: Slot) {
    && (forall i :: 0 <= i < |s.mailbox| && s.mailbox[i].number == v.broadcasts ==>
          s.mailbox[i].inputs.eBest == v.eBest)
    && (UpToDate(v, s) ==> s.processed.value.inputs.eBest == v.eBest && Settled(v, s))
  }

  // ----- One port, one step

  /** `m` is the move event `e` makes the port do, and what it adds to the Announce history. */
  predicate Drives(s: Slot, e: Event, m: Move) {
    && FitsSlot(s, e)
    && (if e.DeliverSnapshot? then m == (if s.state.Operating() then Evaluates(s.mailbox[e.index].inputs) else Stays)
        else !m.Evaluates?)
    && NextObserved(s, e) == (if m.Considers? then s.observed + [m.observation] else s.observed)
  }

  lemma EventDrives(s: Slot, e: Event)
    requires FitsSlot(s, e)
    ensures Drives(s, e, MoveOf(s.state, InputOf(s, e)))
  {
  }

  lemma CoreStep(v: View, s: Slot, e: Event, m: Move, o: Outcome)
    requires CoreOk(v, s) && MailOk(v, s)
    requires Drives(s, e, m) && Moves(v.profile, s.state, m, o)
    ensures CoreOk(v, NextSlot(s, e, o))
    ensures o.effects.report == None ==> o.state.core.ERbest() == s.state.core.ERbest()
    ensures o.effects.report.Some? ==> o.effects.report.value == o.state.core.ERbest()
  {
    if m.Considers? {
      ConsideredKeepsSources(s.state.core.records, m.observation);
      assert (s.observed + [m.observation])[..|s.observed|] == s.observed;
    } else {
      OtherMovesKeepCore(v.profile, s.state, m, o);
    }
  }

  lemma MailStep(v: View, s: Slot, e: Event, m: Move, o: Outcome)
    requires MailOk(v, s) && Drives(s, e, m)
    ensures MailOk(v, NextSlot(s, e, o))
  {
  }

  lemma RoleStep(v: View, s: Slot, e: Event, m: Move, o: Outcome)
    requires CoreOk(v, s) && MailOk(v, s) && RoleOk(v, s)
    requires Drives(s, e, m) && Moves(v.profile, s.state, m, o)
    ensures RoleOk(v, NextSlot(s, e, o))
  {
    if m.Evaluates? {
      DecisionMeans(v.d0, v.port, m.inputs.eBest, s.state.core.ERbest());
      DecidedRole(v, s, e, PortDecision(s.state, m.inputs), o);
    }
  }

  /** A decision whose reasons hold leaves a role whose reasons hold. */
  lemma DecidedRole(v: View, s: Slot, e: Event, d: Decision, o: Outcome)
    requires FitsSlot(s, e) && e.DeliverSnapshot? && s.state.Operating()
    requires var inputs := s.mailbox[e.index].inputs;
             && inputs.d0 == v.d0
             && (d.BeSlave? ==>
                   && !GrandmasterCapable(v.d0) && !LocalAhead(v.d0, inputs.eBest)
                   && inputs.eBest.receiver.port == v.port && inputs.eBest.source == d.parent)
             && (d.BeMaster? ==> d.ds == v.d0 || (inputs.eBest.Qualified? && d.ds == WithAddedStep(inputs.eBest.ds)))
    requires o == Outcome(DecidedTo(v.profile, s.state, v.d0, d), QUIET)
    ensures RoleOk(v, NextSlot(s, e, o))
  {
    DecisionsTakeEffect(v.profile, s.state, v.d0, d);
  }

  lemma TenureStep(v: View, s: Slot, e: Event, m: Move, o: Outcome)
    requires TenureOk(v, s)
    requires Drives(s, e, m) && Moves(v.profile, s.state, m, o)
    ensures TenureOk(v, NextSlot(s, e, o))
  {
    if m.Sends? {
      SentTenure(v, s, e, o);
    } else if o.state.Master? && s.state.Master? {
      assert o.effects.sent == None && o.state.gm == s.state.gm && o.state.announceSeq == s.state.announceSeq;
    }
  }

  lemma SentTenure(v: View, s: Slot, e: Event, o: Outcome)
    requires TenureOk(v, s) && FitsSlot(s, e) && SendsTo(v.profile, s.state, o.effects.sent, o.state)
    ensures TenureOk(v, NextSlot(s, e, o))
  {
    var next := NextAnnounced(s, o);
    if IsAnnounce(o.effects.sent) {
      assert next == s.announced + [o.effects.sent.value.general];
    } else {
      assert next == s.announced;
    }
  }

  lemma DisciplineStep(v: View, s: Slot, e: Event, m: Move, o: Outcome)
    requires DisciplineOk(v, s)
    requires Drives(s, e, m) && Moves(v.profile, s.state, m, o)
    ensures DisciplineOk(v, NextSlot(s, e, o))
  {
    if m.Records? {
      RecordedDiscipline(v, s, e, m.fragment, o);
    } else if o.state.SlaveLike() && !m.Evaluates? {
      assert o.state.pipeline == s.state.pipeline && o.state.parent == s.state.parent;
    }
  }

  lemma RecordedDiscipline(v: View, s: Slot, e: Event, f: Fragment, o: Outcome)
    requires DisciplineOk(v, s)
    requires FitsSlot(s, e) && !e.DeliverSnapshot?
    requires RecordsTo(s.state, f, o.state) && o.effects.recorded == Some(f)
    ensures DisciplineOk(v, NextSlot(s, e, o))
  {
    ReplayAppend(v.profile.servo, s.log, f);
    assert NextLog(s, e, o) == s.log + [f];
  }

  lemma CurrentStep(v: View, s: Slot, e: Event, m: Move, o: Outcome)
    requires CoreOk(v, s) && MailOk(v, s) && Current(v, s)
    requires Drives(s, e, m) && Moves(v.profile, s.state, m, o)
    requires o.effects.report == None
    ensures Current(v, NextSlot(s, e, o))
  {
    CoreStep(v, s, e, m, o);
    if UpToDate(v, NextSlot(s, e, o)) {
      SettledStep(v, s, e, m, o, Decide(v.d0, v.port, v.eBest, s.state.core.ERbest()));
    }
  }

  /** A port that is up to date after the step is in the state decision `d` asks for, if it was so
  before or the step evaluates the latest broadcast. */
  lemma SettledStep(v: View, s: Slot, e: Event, m: Move, o: Outcome, d: Decision)
    requires Drives(s, e, m) && Moves(v.profile, s.state, m, o)
    requires o.effects.report == None && o.state.core.ERbest() == s.state.core.ERbest()
    requires m.Evaluates? && s.mailbox[e.index].number == v.broadcasts ==> d == PortDecision(s.state, m.inputs)
    requires UpToDate(v, s) ==> Suppressed(s.state, d)
    requires UpToDate(v, NextSlot(s, e, o))
    ensures Suppressed(o.state, d)
  {
    match m
    case Evaluates(inputs) => DecisionsTakeEffect(v.profile, s.state, inputs.d0, d);
    case Considers(_) =>
    case Expires =>
    case Fails =>
    case Starts =>
    case Clears =>
    case _ => OtherMovesKeepRole(v.profile, s.state, m, o, d);
  }

  // ----- The whole clock

  predicate SlotInv(v: View, s: Slot) {
    Basic(v, s) && Current(v, s)
  }

  lemma MoveKeepsSlot(v: View, s: Slot, e: Event, m: Move, o: Outcome)
    requires SlotInv(v, s)
    requires Drives(s, e, m) && Moves(v.profile, s.state, m, o)
    ensures Basic(v, NextSlot(s, e, o))
    ensures o.effects.report == None ==> Current(v, NextSlot(s, e, o)) && o.state.core.ERbest() == s.state.core.ERbest()
    ensures o.effects.report.Some? ==> o.effects.report.value == o.state.core.ERbest()
  {
    CoreStep(v, s, e, m, o);
    MailStep(v, s, e, m, o);
    RoleStep(v, s, e, m, o);
    TenureStep(v, s, e, m, o);
    DisciplineStep(v, s, e, m, o);
    if o.effects.report == None {
      CurrentStep(v, s, e, m, o);
    }
  }

  /** A broadcast makes every earlier snapshot outdated, so nobody is up to date until it has
  evaluated the new one. */
  lemma PostKeepsSlot(v: View, s: Slot, w: View, t: Slot)
    requires Basic(v, s)
    requires w == v.(broadcasts := v.broadcasts + 1, eBest := w.eBest)
    requires t == WithPost(s, Posted(w.broadcasts, DecisionInputs(w.d0, w.eBest)))
    ensures SlotInv(w, t)
  {
    assert CoreOk(w, t) && MailOk(w, t) && RoleOk(w, t) && DisciplineOk(w, t) && TenureOk(w, t);
    assert Current(w, t);
  }

  function StoresOf(slots: Slots): (r: Stores)
    ensures |r| == |slots|
    ensures forall i :: 0 <= i < |slots| ==> r[i] == slots[i].state.core.records
  {
    seq(|slots|, i requires 0 <= i < |slots| => slots[i].state.core.records)
  }

  function CurrentBest(c: ClockState): Snapshot {
    BestBelow(c.byPort, |c.slots| + 1)
  }

  function ViewOf(c: ClockState, i: nat): View
    requires i < |c.slots|
  {
    View(c.d0, c.profile, i + 1, c.broadcasts, CurrentBest(c))
  }

  predicate Inv(c: ClockState) {
    && (forall i :: 0 <= i < |c.slots| ==> SlotInv(ViewOf(c, i), c.slots[i]))
    && c.byPort == CandidateMap(StoresOf(c.slots), c.d0.identity)
  }

  lemma StartInv(d0: ClockDS, profile: Profile, n: uint16)
    ensures Inv(Start(d0, profile, n))
  {
    var c := Start(d0, profile, n);
    forall i | 0 <= i < |c.slots| ensures SlotInv(ViewOf(c, i), c.slots[i]) {
      assert c.slots[i] == StartSlot(d0, i + 1);
      StartSlotInv(ViewOf(c, i));
    }
    assert CandidateMap(StoresOf(c.slots), d0.identity) == map[] by {
      assert forall i :: 0 <= i < |c.slots| ==> StoresOf(c.slots)[i] == [];
    }
  }

  lemma StartSlotInv(v: View)
    ensures SlotInv(v, StartSlot(v.d0, v.port))
  {
    assert SnapshotOf([], PortIdentity(v.d0.identity, v.port)) == Empty;
  }

  /** Every step keeps the invariant. */
  lemma StepInv(c: ClockState, e: Event)
    requires Inv(c) && Fits(c, e) && StepClock(c, e).Some?
    ensures Inv(StepClock(c, e).value)
  {
    var s := c.slots[e.port];
    var i := InputOf(s, e);
    PanicsExactly(c.profile, s.state, i);
    EveryStepIsAMove(c.profile, s.state, i);
    EventDrives(s, e);
    MoveInv(c, e, MoveOf(s.state, i), PortStep(c.profile, s.state, i).value);
  }

  lemma MoveInv(c: ClockState, e: Event, m: Move, o: Outcome)
    requires Inv(c) && Fits(c, e)
    requires Drives(c.slots[e.port], e, m) && Moves(c.profile, c.slots[e.port].state, m, o)
    ensures Inv(Replace(c, e.port, NextSlot(c.slots[e.port], e, o), o.effects.report))
  {
    assert SlotInv(ViewOf(c, e.port), c.slots[e.port]);
    MoveKeepsSlot(ViewOf(c, e.port), c.slots[e.port], e, m, o);
    ReplaceInv(c, e.port, NextSlot(c.slots[e.port], e, o), o.effects.report);
  }

  /** Replacing one port that is in order, and broadcasting its report if it has one, keeps the
  invariant of the clock. */
  lemma ReplaceInv(c: ClockState, k: nat, t: Slot, report: Option<Snapshot>)
    requires Inv(c) && k < |c.slots| && Basic(ViewOf(c, k), t)
    requires report == None ==>
               Current(ViewOf(c, k), t) && t.state.core.ERbest() == c.slots[k].state.core.ERbest()
    requires report.Some? ==> report.value == t.state.core.ERbest()
    ensures Inv(Replace(c, k, t, report))
  {
    assert c.slots[k].state.core.me == PortIdentity(c.d0.identity, k + 1) by {
      assert SlotInv(ViewOf(c, k), c.slots[k]);
    }
    ReplacedMap(c, k, t);
    if report.Some? {
      BroadcastInv(c, k, t, report.value);
    } else {
      QuietInv(c, k, t);
    }
  }

  /** The candidate map of the clock with port `k` replaced. */
  lemma ReplacedMap(c: ClockState, k: nat, t: Slot)
    requires c.byPort == CandidateMap(StoresOf(c.slots), c.d0.identity) && k < |c.slots|
    requires c.slots[k].state.core.me == t.state.core.me == PortIdentity(c.d0.identity, k + 1)
    ensures CandidateMap(StoresOf(c.slots[k := t]), c.d0.identity) == Reported(c.byPort, k + 1, t.state.core.ERbest())
    ensures t.state.core.ERbest() == c.slots[k].state.core.ERbest() ==>
              CandidateMap(StoresOf(c.slots[k := t]), c.d0.identity) == c.byPort
  {
    assert StoresOf(c.slots[k := t]) == StoresOf(c.slots)[k := t.state.core.records];
    ReportKeepsCandidateMap(StoresOf(c.slots), c.d0.identity, k, t.state.core.records);
  }

  lemma QuietInv(c: ClockState, k: nat, t: Slot)
    requires Inv(c) && k < |c.slots| && SlotInv(ViewOf(c, k), t)
    requires c.byPort == CandidateMap(StoresOf(c.slots[k := t]), c.d0.identity)
    ensures Inv(c.(slots := c.slots[k := t]))
  {
    var d := c.(slots := c.slots[k := t]);
    forall i | 0 <= i < |d.slots| ensures SlotInv(ViewOf(d, i), d.slots[i]) {
      assert ViewOf(d, i) == ViewOf(c, i);
    }
  }

  lemma BroadcastInv(c: ClockState, k: nat, t: Slot, report: Snapshot)
    requires Inv(c) && k < |c.slots| && Basic(ViewOf(c, k), t)
    requires Reported(c.byPort, k + 1, report) == CandidateMap(StoresOf(c.slots[k := t]), c.d0.identity)
    ensures Inv(Broadcast(c.(slots := c.slots[k := t]), k + 1, report))
  {
    var d := c.(slots := c.slots[k := t]);
    var f := Broadcast(d, k + 1, report);
    forall i | 0 <= i < |f.slots| ensures SlotInv(ViewOf(f, i), f.slots[i]) {
      ReplacedIsBasic(c, k, t, i);
      BroadcastSlot(d, k + 1, report, i);
    }
    BroadcastKeepsStores(d, k + 1, report);
  }

  lemma ReplacedIsBasic(c: ClockState, k: nat, t: Slot, i: nat)
    requires Inv(c) && k < |c.slots| && i < |c.slots| && Basic(ViewOf(c, k), t)
    ensures var d := c.(slots := c.slots[k := t]);
            Basic(ViewOf(d, i), d.slots[i])
  {
    var d := c.(slots := c.slots[k := t]);
    assert ViewOf(d, i) == ViewOf(c, i);
    if i != k {
      assert SlotInv(ViewOf(c, i), c.slots[i]);
    }
  }

  lemma BroadcastKeepsStores(d: ClockState, port: uint16, report: Snapshot)
    ensures StoresOf(Broadcast(d, port, report).slots) == StoresOf(d.slots)
    ensures Broadcast(d, port, report).byPort == Reported(d.byPort, port, report)
  {
  }

  lemma BroadcastSlot(d: ClockState, port: uint16, report: Snapshot, i: nat)
    requires i < |d.slots| && Basic(ViewOf(d, i), d.slots[i])
    ensures var f := Broadcast(d, port, report);
            SlotInv(ViewOf(f, i), f.slots[i])
  {
    var f := Broadcast(d, port, report);
    PostKeepsSlot(ViewOf(d, i), d.slots[i], ViewOf(f, i), f.slots[i]);
  }

  /** Every reachable state satisfies the invariant. */
  lemma {:induction false} ReachableInv(d0: ClockDS, profile: Profile, n: uint16, es: seq<Event>)
    requires Run(Start(d0, profile, n), es).Reached?
    ensures Inv(Run(Start(d0, profile, n), es).clock)
  {
    var start := Start(d0, profile, n);
    if es == [] {
      StartInv(d0, profile, n);
    } else {
      ReachableInv(d0, profile, n, es[..|es| - 1]);
      StepInv(Run(start, es[..|es| - 1]).clock, es[|es| - 1]);
    }
  }
}
