/** The best master clock algorithm (IEEE 1588-2019 section 9.3.3, figure 33) and its consequence
for the two ends of a link. */
module Bmca {
  import opened Base
  import opened Clock
  import opened Dataset
  import opened Foreign

  datatype MasterPoint = M1 | M2 | M3

  datatype Decision =
    | BeMaster(point: MasterPoint, ds: ClockDS)
    | BeSlave(parent: PortIdentity)
    | BePassive

  /** D_0 beats a snapshot; an empty snapshot always loses. */
  predicate LocalWins(d0: ClockDS, s: Snapshot) {
    s.Qualified? ==> IsBetter(LocalTopology(d0), s.Topology())
  }

  predicate OnlyByTopology(best: Snapshot, other: Snapshot)
    requires best.Qualified?
  {
    other.Qualified? && IsBetterByTopology(best.Topology(), other.Topology())
  }

  /** `BestMasterClockAlgorithm::decision` for the port with number `port`. */
  function Decide(d0: ClockDS, port: uint16, eBest: Snapshot, eRbest: Snapshot): Decision {
    if IsAuthoritative(d0) then
      if LocalWins(d0, eRbest) then BeMaster(M1, d0) else BePassive
    else if LocalWins(d0, eBest) then BeMaster(M2, d0)
    else if eBest.receiver.port == port then BeSlave(eBest.source)
    else if OnlyByTopology(eBest, eRbest) then BePassive
    else BeMaster(M3, WithAddedStep(eBest.ds))
  }

  // ----- The decision in plain numbers

  /** Clock classes 1 through 127. */
  predicate GrandmasterCapable(d0: ClockDS) {
    1 <= ClassValue(d0.quality.clockClass) <= 127
  }

  /** D_0 is ahead of a snapshot: of a foreign grandmaster by attributes and identity, and of its own
  echo by steps and then by port 0 of the clock. An empty snapshot is behind everything. */
  predicate LocalAhead(d0: ClockDS, s: Snapshot) {
    || s.Empty?
    || (s.ds.identity != d0.identity && BetterGrandmaster(d0, s.ds))
    || (s.ds.identity == d0.identity && d0.steps < s.ds.steps
        && !(s.ds.steps == d0.steps + 1 && s.source == s.receiver))
    || (s.ds.identity == d0.identity && d0.steps == s.ds.steps
        && (|| d0.identity < s.source.clock
            || (d0.identity == s.source.clock && 0 < s.source.port)
            || (d0.identity == s.source.clock && 0 == s.source.port && 0 < s.receiver.port)))
  }

  lemma LocalWinsExactly(d0: ClockDS, s: Snapshot)
    ensures LocalWins(d0, s) <==> LocalAhead(d0, s)
  {
    if s.Qualified? {
      BetterIsTwoOrders(LocalTopology(d0), s.Topology());
    }
  }

  /** Exactly which inputs lead to which decision point of figure 33, and what is announced there. */
  lemma DecisionMeans(d0: ClockDS, port: uint16, eBest: Snapshot, eRbest: Snapshot)
    ensures var d := Decide(d0, port, eBest, eRbest);
            var follows := !GrandmasterCapable(d0) && !LocalAhead(d0, eBest);
            && (d == BeMaster(M1, d0) <==> GrandmasterCapable(d0) && LocalAhead(d0, eRbest))
            && (d == BeMaster(M2, d0) <==> !GrandmasterCapable(d0) && LocalAhead(d0, eBest))
            && (d.BeSlave? <==> follows && eBest.receiver.port == port)
            && (d.BeSlave? ==> d.parent == eBest.source)
            && (d.BePassive? <==>
                  || (GrandmasterCapable(d0) && !LocalAhead(d0, eRbest))
                  || (follows && eBest.receiver.port != port
                      && eRbest.Qualified? && ParallelPath(eBest.Topology(), eRbest.Topology())))
            && (d.BeMaster? && d.point == M3 <==> follows && !d.BeSlave? && !d.BePassive?)
            && (d.BeMaster? && d.point == M3 ==>
                  d.ds == eBest.ds.(steps := if eBest.ds.steps == 65535 then 65535 else eBest.ds.steps + 1))
            && (d.BeMaster? && d.point != M3 ==> d.ds == d0)
  {
    LocalWinsExactly(d0, eBest);
    LocalWinsExactly(d0, eRbest);
    if eBest.Qualified? && eRbest.Qualified? {
      BetterByTopologyExactly(eBest.Topology(), eRbest.Topology());
    }
  }

  // ----- One master per link

  /** What the BMCA of the clock behind one end of a link sees. */
  datatype LinkEnd = LinkEnd(d0: ClockDS, me: PortIdentity, eBest: Snapshot, eRbest: Snapshot)
  {
    function Verdict(): Decision {
      Decide(d0, me.port, eBest, eRbest)
    }

    /** The clock follows a foreign grandmaster: D_0 is not authoritative and loses to E_best. */
    predicate Follows() {
      !GrandmasterCapable(d0) && !LocalAhead(d0, eBest)
    }

    /** E_best is the best over all ports of the clock, as seen from this port. */
    predicate BestIsMaximal() {
      && eBest.Qualified?
      && NoSelfLoop(eBest.Topology())
      && (eBest == eRbest || SnapshotBetter(eBest, eRbest))
      && (eBest.receiver.port == me.port ==> eBest == eRbest)
    }

    /** E_rbest is what the clock at the other end announces: its E_best with one step added. */
    predicate Hears(peer: LinkEnd) {
      peer.eBest.Qualified? && eRbest == Qualified(WithAddedStep(peer.eBest.ds), peer.me, me)
    }
  }

  predicate Link(a: LinkEnd, b: LinkEnd) {
    && a.me != b.me
    && a.Follows() && b.Follows()
    && a.BestIsMaximal() && b.BestIsMaximal()
    && a.Hears(b) && b.Hears(a)
    && a.eBest.ds.identity == b.eBest.ds.identity
    && SameValues(a.eBest.ds, b.eBest.ds)
  }

  predicate DefersToPeer(d: Decision) {
    d.BeSlave? || d.BePassive?
  }

  predicate Announces(d: Decision) {
    d.BeMaster? && d.point == M3
  }

  predicate OneMaster(a: LinkEnd, b: LinkEnd) {
    || (Announces(a.Verdict()) && DefersToPeer(b.Verdict()))
    || (Announces(b.Verdict()) && DefersToPeer(a.Verdict()))
  }

  /** stepsRemoved still distinguishes the two ends: neither has saturated, or only the far one has
  and the port order breaks the tie the right way. */
  predicate StepsStillCount(a: LinkEnd, b: LinkEnd)
    requires a.eBest.Qualified? && b.eBest.Qualified?
  {
    var s, t := a.eBest.ds.steps, b.eBest.ds.steps;
    || (s < U16_MAX && t < U16_MAX)
    || (s < U16_MAX && t == U16_MAX && PortBefore(a.me, b.me))
    || (t < U16_MAX && s == U16_MAX && PortBefore(b.me, a.me))
  }

  /** The ends of a link are never more than one step apart, and each end's decision depends only on
  the two step counts and, when they are equal, on the port order. */
  lemma LinkVerdict(a: LinkEnd, b: LinkEnd)
    requires Link(a, b)
    ensures -1 <= a.eBest.ds.steps - b.eBest.ds.steps <= 1
    ensures Announces(a.Verdict()) <==>
            if a.eBest.ds.steps == b.eBest.ds.steps
            then a.eBest.ds.steps < U16_MAX && PortBefore(a.me, b.me)
            else a.eBest.ds.steps < b.eBest.ds.steps
                 && (b.eBest.ds.steps < U16_MAX || PortBefore(a.me, b.me))
    ensures Announces(a.Verdict()) || DefersToPeer(a.Verdict())
  {
  }

  /** Exactly one end of a link becomes master and the other end slave or passive, if and only if
  stepsRemoved still counts. */
  lemma OneMasterPerLink(a: LinkEnd, b: LinkEnd)
    requires Link(a, b)
    ensures OneMaster(a, b) <==> StepsStillCount(a, b)
  {
    LinkVerdict(a, b);
    LinkVerdict(b, a);
  }

  /** E_rbest is what the verdict of the other end makes it announce once it has reached the state
  decided: its M3 dataset if it decides M3, else nothing. */
  predicate HearsVerdict(a: LinkEnd, b: LinkEnd) {
    if Announces(b.Verdict()) then a.Hears(b) else a.eRbest == Empty
  }

  /** A link in equilibrium: each end hears exactly what the other end's verdict, taken on what that end
  hears, makes it announce. */
  predicate Equilibrium(a: LinkEnd, b: LinkEnd) {
    && a.me != b.me
    && a.Follows() && b.Follows()
    && a.BestIsMaximal() && b.BestIsMaximal()
    && HearsVerdict(a, b) && HearsVerdict(b, a)
    && a.eBest.ds.identity == b.eBest.ds.identity
    && SameValues(a.eBest.ds, b.eBest.ds)
  }

  /** An end that hears nothing while its clock follows a foreign grandmaster becomes master. */
  lemma SilenceMeansMaster(a: LinkEnd)
    requires a.Follows() && a.BestIsMaximal() && a.eRbest == Empty
    ensures Announces(a.Verdict()) && a.Verdict().ds == WithAddedStep(a.eBest.ds)
  {
  }

  /** In equilibrium exactly one end is master, at any step count. */
  lemma EquilibriumHasOneMaster(a: LinkEnd, b: LinkEnd)
    requires Equilibrium(a, b)
    ensures OneMaster(a, b)
    ensures !(Announces(a.Verdict()) && Announces(b.Verdict()))
  {
    if Announces(a.Verdict()) && Announces(b.Verdict()) {
      LinkVerdict(a, b);
      LinkVerdict(b, a);
    } else if !Announces(a.Verdict()) {
      SilenceMeansMaster(b);
      FollowersAnnounceOrDefer(a);
    } else {
      FollowersAnnounceOrDefer(b);
    }
  }

  /** A clock that follows a foreign grandmaster decides M3, S1 or P2 on each of its ports. */
  lemma FollowersAnnounceOrDefer(a: LinkEnd)
    requires a.Follows()
    ensures Announces(a.Verdict()) || DefersToPeer(a.Verdict())
  {
  }

  /** The failing case exists: with both step counts saturated neither end becomes master. */
  lemma SaturatedLinkHasNoMaster() returns (a: LinkEnd, b: LinkEnd)
    ensures Link(a, b) && !OneMaster(a, b)
    ensures DefersToPeer(a.Verdict()) && DefersToPeer(b.Verdict())
  {
    var q := ClockQuality(DefaultClass, Within1us, 0);
    var gm := ClockDS(1, 10, 128, q, U16_MAX);
    var own := ClockDS(7, 200, 128, q, 0);
    var pa, pb := PortIdentity(7, 2), PortIdentity(8, 2);
    a := LinkEnd(own, pa, Qualified(gm, PortIdentity(2, 1), PortIdentity(7, 1)), Qualified(gm, pb, pa));
    b := LinkEnd(own.(identity := 8), pb, Qualified(gm, PortIdentity(2, 2), PortIdentity(8, 1)), Qualified(gm, pa, pb));
  }

  /** Equilibria exist: a clock one step from the grandmaster next to one that follows it. */
  lemma EquilibriumExists() returns (a: LinkEnd, b: LinkEnd)
    ensures Equilibrium(a, b)
    ensures Announces(a.Verdict()) && b.Verdict() == BeSlave(a.me)
  {
    var q := ClockQuality(DefaultClass, Within1us, 0);
    var gm := ClockDS(1, 10, 128, q, 0);
    var own := ClockDS(7, 200, 128, q, 0);
    var pa, pb := PortIdentity(7, 2), PortIdentity(8, 1);
    a := LinkEnd(own, pa, Qualified(gm, PortIdentity(1, 1), PortIdentity(7, 1)), Empty);
    var heard := Qualified(WithAddedStep(gm), pa, pb);
    b := LinkEnd(own.(identity := 8), pb, heard, heard);
  }
}
