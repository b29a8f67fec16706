/** Cross-port candidates: each port's E_rbest by port number, and E_best over all of them. */
module Candidates {
  import opened Base
  import opened Clock
  import opened Dataset
  import opened Foreign

  type ByPort = map<uint16, Snapshot>

  /** `MultiPortForeignCandidates::remember`. */
  function Reported(m: ByPort, port: uint16, s: Snapshot): ByPort {
    if s.Qualified? then m[port := s] else m - {port}
  }

  predicate KeysBelow(m: ByPort, limit: int) {
    forall p :: p in m ==> p < limit
  }

  /** One iteration of `best`: the entry of `port` replaces the best so far only when better. */
  function Challenge(m: ByPort, port: int, before: Snapshot): Snapshot {
    if port in m && SnapshotBetter(m[port], before) then m[port] else before
  }

  /** The fold of `best` over the ports below `limit`, in ascending order. */
  function BestBelow(m: ByPort, limit: nat): Snapshot {
    if limit == 0 then Empty
    else
      var best := BestBelow(m, limit - 1);
      Challenge(m, limit - 1, best)
  }

  lemma {:induction false} LimitIsIrrelevant(m: ByPort, low: nat, high: nat)
    requires KeysBelow(m, low) && low <= high
    ensures BestBelow(m, low) == BestBelow(m, high)
  {
    if low < high {
      LimitIsIrrelevant(m, low, high - 1);
    }
  }

  // ----- Selection across the ports of one clock

  type Stores = s: seq<seq<Record>> | |s| < 0x1_0000

  /** The E_rbest of port `port`; ports are numbered from 1. */
  function PortBest(stores: Stores, clock: ClockIdentity, port: uint16): Snapshot
    requires 1 <= port <= |stores|
  {
    SnapshotOf(stores[port - 1], PortIdentity(clock, port))
  }

  function CandidateMap(stores: Stores, clock: ClockIdentity): ByPort {
    map p: uint16 | 1 <= p <= |stores| && PortBest(stores, clock, p).Qualified? :: PortBest(stores, clock, p)
  }

  /** Reporting the E_rbest of one port after its records changed keeps the map up to date; an
  unchanged E_rbest needs no report. */
  lemma ReportKeepsCandidateMap(stores: Stores, clock: ClockIdentity, k: nat, rs: seq<Record>)
    requires k < |stores|
    ensures Reported(CandidateMap(stores, clock), k + 1, SnapshotOf(rs, PortIdentity(clock, k + 1)))
            == CandidateMap(stores[k := rs], clock)
    ensures SnapshotOf(rs, PortIdentity(clock, k + 1)) == PortBest(stores, clock, k + 1) ==>
              CandidateMap(stores, clock) == CandidateMap(stores[k := rs], clock)
  {
    var next: Stores := stores[k := rs];
    forall p: uint16 | 1 <= p <= |stores|
      ensures PortBest(next, clock, p) ==
              if p == k + 1 then SnapshotOf(rs, PortIdentity(clock, k + 1)) else PortBest(stores, clock, p)
    {
    }
  }

  /** Some port of the clock holds `t` as a qualified record. */
  ghost predicate Holds(stores: Stores, clock: ClockIdentity, t: TopologyDS) {
    && t.receiver.clock == clock
    && 1 <= t.receiver.port <= |stores|
    && exists r :: r in stores[t.receiver.port - 1] && r.IsQualified() && r.Topology(t.receiver) == t
  }

  lemma HeldRecord(stores: Stores, clock: ClockIdentity, t: TopologyDS) returns (r: Record)
    requires Holds(stores, clock, t)
    ensures r in stores[t.receiver.port - 1] && r.IsQualified() && r.ds == t.ds && r.source == t.sender
  {
    r :| r in stores[t.receiver.port - 1] && r.IsQualified() && r.Topology(t.receiver) == t;
  }

  /** H1 and H2 over all records of the clock. */
  ghost predicate AllComparable(stores: Stores, clock: ClockIdentity) {
    && (forall i :: 0 <= i < |stores| ==> DistinctSources(stores[i]))
    && (forall i, r :: 0 <= i < |stores| && r in stores[i] ==> r.source != PortIdentity(clock, i + 1))
    && (forall i, j :: 0 <= i < |stores| && 0 <= j < |stores| ==> CrossComparable(stores[i], stores[j]))
  }

  predicate CrossComparable(rs: seq<Record>, ss: seq<Record>) {
    forall r, s :: r in rs && s in ss ==> SameAttributes(r.ds, s.ds)
  }

  /** `best` is `t` or better than `t`. */
  predicate BestBeats(best: Snapshot, t: TopologyDS) {
    best.Qualified? && (t == best.Topology() || IsBetter(best.Topology(), t))
  }

  lemma PortBestIsHeld(stores: Stores, clock: ClockIdentity, p: uint16)
    requires 1 <= p <= |stores| && PortBest(stores, clock, p).Qualified?
    ensures PortBest(stores, clock, p).receiver == PortIdentity(clock, p)
    ensures Holds(stores, clock, PortBest(stores, clock, p).Topology())
  {
    var rs, me := stores[p - 1], PortIdentity(clock, p);
    BestQualifiedIsMember(rs, me);
    assert BestQualified(rs, me).value.Topology(me) == PortBest(stores, clock, p).Topology();
  }

  lemma PortBestBeats(stores: Stores, clock: ClockIdentity, t: TopologyDS)
    requires AllComparable(stores, clock) && Holds(stores, clock, t)
    ensures var best := PortBest(stores, clock, t.receiver.port);
            BestBeats(best, t)
  {
    var rs, me := stores[t.receiver.port - 1], PortIdentity(clock, t.receiver.port);
    assert t.receiver == me;
    var r := HeldRecord(stores, clock, t);
    assert CrossComparable(rs, rs);
    BestQualifiedBeatsAll(rs, me, r);
  }

  /** Any two records held by the clock satisfy the hypotheses of the ordering theorems. */
  lemma HeldAreComparable(stores: Stores, clock: ClockIdentity, a: TopologyDS, b: TopologyDS)
    requires AllComparable(stores, clock)
    requires Holds(stores, clock, a) && Holds(stores, clock, b)
    ensures SameAttributes(a.ds, b.ds) && NoSelfLoop(a) && NoSelfLoop(b)
    ensures a != b ==> a.sender != b.sender || a.receiver.port != b.receiver.port
  {
    var i, j := a.receiver.port - 1, b.receiver.port - 1;
    assert a.receiver == PortIdentity(clock, i + 1) && b.receiver == PortIdentity(clock, j + 1);
    var r := HeldRecord(stores, clock, a);
    var s := HeldRecord(stores, clock, b);
    assert CrossComparable(stores[i], stores[j]);
    if i == j && a.sender == b.sender {
      SameSourceSameRecord(stores[i], r, s);
    }
  }

  /** One comparison of the fold: the winner of `challenger` and `best` beats what either beat. */
  lemma WinnerBeats(challenger: TopologyDS, best: TopologyDS, t: TopologyDS)
    requires NoSelfLoop(challenger) && NoSelfLoop(best) && NoSelfLoop(t)
    requires SameAttributes(challenger.ds, best.ds)
    requires SameAttributes(challenger.ds, t.ds) && SameAttributes(best.ds, t.ds)
    requires challenger.sender != best.sender || challenger.receiver.port != best.receiver.port
    requires t == best || IsBetter(best, t) || t == challenger || IsBetter(challenger, t)
    ensures var winner := if IsBetter(challenger, best) then challenger else best;
            t == winner || IsBetter(winner, t)
  {
    BetterIsStrictTotalOrder(challenger, best, t);
    BetterIsStrictTotalOrder(best, challenger, t);
  }

  ghost predicate BeatsBelow(stores: Stores, clock: ClockIdentity, limit: int, best: Snapshot) {
    && (best.Qualified? ==> Holds(stores, clock, best.Topology()) && best.receiver.port < limit)
    && (forall t :: Holds(stores, clock, t) && t.receiver.port < limit ==>
          BestBeats(best, t))
  }

  /** The cross-port fold below `limit` beats everything the ports below `limit` hold. */
  lemma {:induction false} BestBelowBeatsAll(stores: Stores, clock: ClockIdentity, limit: nat)
    requires AllComparable(stores, clock)
    ensures BeatsBelow(stores, clock, limit, BestBelow(CandidateMap(stores, clock), limit))
  {
    if limit > 0 {
      BestBelowBeatsAll(stores, clock, limit - 1);
      var m := CandidateMap(stores, clock);
      ExtendFold(stores, clock, limit, BestBelow(m, limit - 1));
    }
  }

  lemma ExtendFold(stores: Stores, clock: ClockIdentity, limit: nat, before: Snapshot)
    requires AllComparable(stores, clock) && limit > 0
    requires BeatsBelow(stores, clock, limit - 1, before)
    ensures BeatsBelow(stores, clock, limit, Challenge(CandidateMap(stores, clock), limit - 1, before))
  {
    ChallengeIsByPortBest(stores, clock, limit - 1, before);
    if 1 <= limit - 1 <= |stores| {
      WinnerIsBestBelow(stores, clock, limit, before);
    } else {
      NoSuchPort(stores, clock, limit, before);
    }
  }

  lemma NoSuchPort(stores: Stores, clock: ClockIdentity, limit: nat, before: Snapshot)
    requires limit > 0 && !(1 <= limit - 1 <= |stores|)
    requires BeatsBelow(stores, clock, limit - 1, before)
    ensures BeatsBelow(stores, clock, limit, before)
  {
    forall t | Holds(stores, clock, t) && t.receiver.port < limit ensures BestBeats(before, t) {
      assert t.receiver.port < limit - 1;
    }
  }

  lemma WinnerIsBestBelow(stores: Stores, clock: ClockIdentity, limit: nat, before: Snapshot)
    requires AllComparable(stores, clock) && 2 <= limit <= |stores| + 1
    requires BeatsBelow(stores, clock, limit - 1, before)
    ensures BeatsBelow(stores, clock, limit, Winner(PortBest(stores, clock, limit - 1), before))
  {
    var own := PortBest(stores, clock, limit - 1);
    if own.Qualified? {
      PortBestIsHeld(stores, clock, limit - 1);
    }
    forall t | Holds(stores, clock, t) && t.receiver.port < limit ensures BestBeats(Winner(own, before), t) {
      WinnerBeatsBelow(stores, clock, limit, before, t);
    }
  }

  /** The fold compares with the E_rbest of the port. */
  lemma ChallengeIsByPortBest(stores: Stores, clock: ClockIdentity, port: int, before: Snapshot)
    ensures Challenge(CandidateMap(stores, clock), port, before) ==
            if 1 <= port <= |stores| then Winner(PortBest(stores, clock, port), before) else before
  {
  }

  function Winner(challenger: Snapshot, before: Snapshot): Snapshot {
    if SnapshotBetter(challenger, before) then challenger else before
  }

  lemma WinnerBeatsBelow(stores: Stores, clock: ClockIdentity, limit: nat, before: Snapshot, t: TopologyDS)
    requires AllComparable(stores, clock) && 2 <= limit <= |stores| + 1
    requires BeatsBelow(stores, clock, limit - 1, before)
    requires Holds(stores, clock, t) && t.receiver.port < limit
    ensures BestBeats(Winner(PortBest(stores, clock, limit - 1), before), t)
  {
    var own := PortBest(stores, clock, limit - 1);
    assert t.receiver.port < limit - 1 ==> BestBeats(before, t);
    if t.receiver.port == limit - 1 {
      PortBestBeats(stores, clock, t);
    }
    if own.Qualified? && before.Qualified? {
      PortBestIsHeld(stores, clock, limit - 1);
      HeldWinnerBeats(stores, clock, own, before, t);
    }
  }

  lemma HeldWinnerBeats(stores: Stores, clock: ClockIdentity, challenger: Snapshot, best: Snapshot, t: TopologyDS)
    requires AllComparable(stores, clock)
    requires challenger.Qualified? && best.Qualified? && challenger != best
    requires Holds(stores, clock, challenger.Topology()) && Holds(stores, clock, best.Topology())
    requires Holds(stores, clock, t)
    requires BestBeats(best, t) || BestBeats(challenger, t)
    ensures BestBeats(Winner(challenger, best), t)
  {
    HeldAreComparable(stores, clock, challenger.Topology(), best.Topology());
    HeldAreComparable(stores, clock, challenger.Topology(), t);
    HeldAreComparable(stores, clock, best.Topology(), t);
    WinnerBeats(challenger.Topology(), best.Topology(), t);
  }

  /** `best` is the best of everything the clock holds. */
  ghost predicate IsTrueBest(stores: Stores, clock: ClockIdentity, best: Snapshot) {
    && (best.Qualified? ==> Holds(stores, clock, best.Topology()))
    && (forall t :: Holds(stores, clock, t) ==>
          BestBeats(best, t))
  }

  /** Folding each port and then folding across ports selects the unique qualified record of the
  whole clock that beats all the others, whatever the order of insertion. */
  lemma TwoLevelSelectionIsGlobal(stores: Stores, clock: ClockIdentity, limit: nat, other: Snapshot)
    requires AllComparable(stores, clock)
    requires KeysBelow(CandidateMap(stores, clock), limit)
    ensures IsTrueBest(stores, clock, BestBelow(CandidateMap(stores, clock), limit))
    ensures IsTrueBest(stores, clock, other) ==> other == BestBelow(CandidateMap(stores, clock), limit)
  {
    var m := CandidateMap(stores, clock);
    var high := if limit <= |stores| then |stores| + 1 else limit;
    LimitIsIrrelevant(m, limit, high);
    BestBelowBeatsAll(stores, clock, high);
    var best := BestBelow(m, high);
    if IsTrueBest(stores, clock, other) && other != best {
      if other.Qualified? && best.Qualified? {
        BetterIsAsymmetric(other.Topology(), best.Topology());
      }
    }
  }

  /** How the best of the clock compares with the best of one of its ports. */
  lemma TrueBestBeatsPortBest(stores: Stores, clock: ClockIdentity, best: Snapshot, p: uint16)
    requires AllComparable(stores, clock)
    requires IsTrueBest(stores, clock, best) && best.Qualified?
    requires 1 <= p <= |stores|
    ensures NoSelfLoop(best.Topology())
    ensures best == PortBest(stores, clock, p) || SnapshotBetter(best, PortBest(stores, clock, p))
    ensures best.receiver.port == p ==> best == PortBest(stores, clock, p)
  {
    var own := PortBest(stores, clock, p);
    HeldAreComparable(stores, clock, best.Topology(), best.Topology());
    if best.receiver.port == p {
      PortBestBeats(stores, clock, best.Topology());
    }
    if own.Qualified? {
      PortBestIsHeld(stores, clock, p);
      BetterIsAsymmetric(best.Topology(), own.Topology());
    }
  }

  // ----- The mutable store

  /** `MultiPortForeignCandidates`: a map from port number to the last reported snapshot. */
  class MultiPortForeignCandidates {
    var byPort: ByPort

    constructor ()
      ensures byPort == map[]
    {
      byPort := map[];
    }

    method Remember(port: uint16, snapshot: Snapshot)
      modifies this
      ensures byPort == Reported(old(byPort), port, snapshot)
      ensures forall p :: p != port ==> (p in byPort <==> p in old(byPort)) && (p in byPort ==> byPort[p] == old(byPort)[p])
    {
      if snapshot.Qualified? {
        byPort := byPort[port := snapshot];
      } else {
        byPort := byPort - {port};
      }
    }

    /** Visits the entries in ascending port order, as the ordered map iterates. */
    method Best() returns (best: Snapshot)
      ensures forall limit: nat :: KeysBelow(byPort, limit) ==> best == BestBelow(byPort, limit)
    {
      best := Empty;
      var p: int := 0;
      while p < 0x1_0000
        invariant 0 <= p <= 0x1_0000
        invariant best == BestBelow(byPort, p)
      {
        if p in byPort && SnapshotBetter(byPort[p], best) {
          best := byPort[p];
        }
        p := p + 1;
      }
      forall limit: nat | KeysBelow(byPort, limit) ensures best == BestBelow(byPort, limit) {
        if limit <= p {
          LimitIsIrrelevant(byPort, limit, p);
        } else {
          LimitIsIrrelevant(byPort, p, limit);
        }
      }
    }
  }
}
