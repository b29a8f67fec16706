/** Foreign master records: qualification window, per-port store and per-port best (E_rbest). */
module Foreign {
  import opened Base
  import opened Clock
  import opened Dataset
  import opened Time

  /** E_best or E_rbest. */
  datatype Snapshot = Empty | Qualified(ds: ClockDS, source: PortIdentity, receiver: PortIdentity)
  {
    function Topology(): TopologyDS
      requires Qualified?
    {
      TopologyDS(ds, source, receiver)
    }
  }

  /** `BestForeignSnapshot::is_better_or_better_by_topology`. */
  predicate SnapshotBetter(a: Snapshot, b: Snapshot) {
    a.Qualified? && (b.Qualified? ==> IsBetter(a.Topology(), b.Topology()))
  }

  /** A snapshot replaces another exactly when it is qualified and the other is empty or strictly behind
  it, in plain numbers; an incomparable pair leaves the other in place. */
  lemma SnapshotBetterExactly(a: Snapshot, b: Snapshot)
    ensures SnapshotBetter(a, b) <==>
              && a.Qualified?
              && (|| b.Empty?
                  || (a.ds.identity != b.ds.identity && BetterGrandmaster(a.ds, b.ds))
                  || (a.ds.identity == b.ds.identity && BetterPath(a.Topology(), b.Topology())
                      && !LostToError1(a.Topology(), b.Topology())))
  {
    if a.Qualified? && b.Qualified? {
      BetterIsTwoOrders(a.Topology(), b.Topology());
    }
  }

  /** A foreign clock record with its sliding qualification window (instants in nanoseconds). */
  datatype Record = Record(
    source: PortIdentity,
    ds: ClockDS,
    last: nat,
    prev: Option<nat>,
    window: nat)
  {
    predicate IsQualified() {
      prev.Some? && prev.value <= last && last - prev.value <= window
    }

    /** Silent for longer than its window, or observed after `now`. */
    predicate IsStale(now: nat) {
      now < last || now - last > window
    }

    function UpdatedFrom(r: Record): Record {
      Record(source, r.ds, r.last, Some(last), r.window)
    }

    function Topology(receiver: PortIdentity): TopologyDS {
      TopologyDS(ds, source, receiver)
    }
  }

  /** An Announce as `Bmca::consider` receives it. */
  datatype Observation = Observation(source: PortIdentity, ds: ClockDS, interval: LogInterval, now: nat)

  /** `ForeignMasterTimeWindow::duration`: four announced intervals. */
  function Window(interval: LogInterval): nat {
    SaturatingMul(IntervalDuration(interval), 4)
  }

  /** The multiplication never saturates, for any interval a `LogInterval` can hold. */
  lemma WindowIsFourIntervals(interval: LogInterval)
    ensures Window(interval) == 4 * IntervalDuration(interval)
  {
    if interval >= 0 {
      LongIntervals(interval);
    } else {
      ShortIntervals(interval);
    }
  }

  function NewRecord(o: Observation): Record {
    Record(o.source, o.ds, o.now, None, Window(o.interval))
  }

  // ----- The store as a value

  predicate DistinctSources(rs: seq<Record>) {
    forall i, j :: 0 <= i < j < |rs| ==> rs[i].source != rs[j].source
  }

  predicate Knows(rs: seq<Record>, source: PortIdentity) {
    exists i :: 0 <= i < |rs| && rs[i].source == source
  }

  /** The first record of `source`, if there is one. */
  function Find(rs: seq<Record>, source: PortIdentity): Option<Record> {
    if rs == [] then None
    else if rs[0].source == source then Some(rs[0])
    else Find(rs[1..], source)
  }

  function Remembered(rs: seq<Record>, r: Record): seq<Record> {
    if rs == [] then [r]
    else if rs[0].source == r.source then [rs[0].UpdatedFrom(r)] + rs[1..]
    else [rs[0]] + Remembered(rs[1..], r)
  }

  function Pruned(rs: seq<Record>, now: nat): seq<Record> {
    if rs == [] then []
    else (if rs[0].IsStale(now) then [] else [rs[0]]) + Pruned(rs[1..], now)
  }

  function Considered(rs: seq<Record>, o: Observation): seq<Record> {
    Remembered(Pruned(rs, o.now), NewRecord(o))
  }

  lemma {:induction false} FindIsMember(rs: seq<Record>, source: PortIdentity)
    ensures Find(rs, source).Some? ==> Find(rs, source).value in rs && Find(rs, source).value.source == source
    ensures Find(rs, source).Some? <==> Knows(rs, source)
    ensures DistinctSources(rs) ==> forall r :: r in rs && r.source == source ==> Find(rs, source) == Some(r)
  {
    if rs != [] {
      FindIsMember(rs[1..], source);
      assert rs == [rs[0]] + rs[1..];
      if rs[0].source != source && Knows(rs, source) {
        var i :| 0 <= i < |rs| && rs[i].source == source;
        assert rs[1..][i - 1].source == source;
      }
    }
  }

  lemma {:induction false} FindRemembered(rs: seq<Record>, r: Record, source: PortIdentity)
    ensures Find(Remembered(rs, r), source) ==
            if source != r.source then Find(rs, source)
            else if Find(rs, source).None? then Some(r)
            else Some(Find(rs, source).value.UpdatedFrom(r))
  {
    if rs != [] && rs[0].source != r.source {
      FindRemembered(rs[1..], r, source);
    }
  }

  /** What the linear search of `remember` establishes when it stops at index `i`. */
  lemma {:induction false} FirstMatch(rs: seq<Record>, r: Record, i: nat)
    requires i <= |rs|
    requires forall j :: 0 <= j < i ==> rs[j].source != r.source
    requires i < |rs| ==> rs[i].source == r.source
    ensures Find(rs, r.source) == if i < |rs| then Some(rs[i]) else None
    ensures Remembered(rs, r) == if i < |rs| then rs[i := rs[i].UpdatedFrom(r)] else rs + [r]
  {
    if i > 0 {
      FirstMatch(rs[1..], r, i - 1);
    }
  }

  lemma {:induction false} FindPruned(rs: seq<Record>, now: nat, source: PortIdentity)
    requires DistinctSources(rs)
    ensures Find(Pruned(rs, now), source) ==
            match Find(rs, source)
            case None => None
            case Some(r) => if r.IsStale(now) then None else Some(r)
  {
    if rs != [] {
      FindPruned(rs[1..], now, source);
      assert ([rs[0]] + Pruned(rs[1..], now))[1..] == Pruned(rs[1..], now);
      assert [] + Pruned(rs[1..], now) == Pruned(rs[1..], now);
      if rs[0].source == source {
        FindIsMember(rs[1..], source);
      }
    }
  }

  lemma {:induction false} PrunedIsSubset(rs: seq<Record>, now: nat)
    ensures forall r :: r in Pruned(rs, now) <==> r in rs && !r.IsStale(now)
    ensures DistinctSources(rs) ==> DistinctSources(Pruned(rs, now))
    ensures |Pruned(rs, now)| <= |rs|
  {
    if rs != [] {
      PrunedIsSubset(rs[1..], now);
      var tail := Pruned(rs[1..], now);
      assert Pruned(rs, now) == (if rs[0].IsStale(now) then [] else [rs[0]]) + tail;
      assert rs == [rs[0]] + rs[1..];
      if DistinctSources(rs) {
        forall r | r in tail ensures r.source != rs[0].source {
          assert r in rs[1..];
        }
      }
    }
  }

  /** One round of retaining: record `i` moves from what is left to what is kept. */
  lemma PrunedStep(rs: seq<Record>, i: nat, now: nat, kept: seq<Record>)
    requires i < |rs|
    ensures kept + Pruned(rs[i..], now) ==
            (if rs[i].IsStale(now) then kept else kept + [rs[i]]) + Pruned(rs[i + 1..], now)
  {
    assert rs[i..][1..] == rs[i + 1..];
    assert Pruned(rs[i..], now) == (if rs[i].IsStale(now) then [] else [rs[i]]) + Pruned(rs[i + 1..], now);
  }

  lemma {:induction false} PrunedLength(rs: seq<Record>, now: nat)
    ensures |Pruned(rs, now)| <= |rs|
    ensures |Pruned(rs, now)| < |rs| <==> exists r :: r in rs && r.IsStale(now)
  {
    if rs != [] {
      PrunedLength(rs[1..], now);
      assert rs == [rs[0]] + rs[1..];
    }
  }

  lemma {:induction false} RememberedMembers(rs: seq<Record>, r: Record)
    ensures forall x :: x in Remembered(rs, r) ==>
              x in rs || x == r || (x.source == r.source && x.ds == r.ds)
    ensures forall x :: x in Remembered(rs, r) ==> x.source == r.source || x in rs
    ensures DistinctSources(rs) ==> DistinctSources(Remembered(rs, r))
  {
    if rs != [] {
      assert rs == [rs[0]] + rs[1..];
      RememberedMembers(rs[1..], r);
      if DistinctSources(rs) && rs[0].source != r.source {
        var tail := Remembered(rs[1..], r);
        forall x | x in tail ensures x.source != rs[0].source {
        }
      }
    }
  }

  lemma SameSourceSameRecord(rs: seq<Record>, r: Record, s: Record)
    requires DistinctSources(rs) && r in rs && s in rs && r.source == s.source
    ensures r == s
  {
    var i, j :| 0 <= i < |rs| && 0 <= j < |rs| && rs[i] == r && rs[j] == s;
    assert !(i < j) && !(j < i);
  }

  lemma ConsideredKeepsSources(rs: seq<Record>, o: Observation)
    requires DistinctSources(rs)
    ensures DistinctSources(Considered(rs, o))
    ensures forall x :: x in Considered(rs, o) ==>
              (x in rs && !x.IsStale(o.now)) || (x.source == o.source && x.ds == o.ds)
  {
    PrunedIsSubset(rs, o.now);
    RememberedMembers(Pruned(rs, o.now), NewRecord(o));
  }

  // ----- Per-port selection

  /** The `reduce` over qualified records: later candidates replace the best only when better. */
  function BestQualified(rs: seq<Record>, receiver: PortIdentity): Option<Record> {
    if rs == [] then None
    else
      var best := BestQualified(rs[..|rs| - 1], receiver);
      var candidate := rs[|rs| - 1];
      if !candidate.IsQualified() then best
      else if best.None? || IsBetter(candidate.Topology(receiver), best.value.Topology(receiver)) then
        Some(candidate)
      else best
  }

  /** `BestForeignRecord::snapshot`. */
  function SnapshotOf(rs: seq<Record>, receiver: PortIdentity): Snapshot {
    match BestQualified(rs, receiver)
    case None => Empty
    case Some(r) => Qualified(r.ds, r.source, receiver)
  }

  /** H1 and H2 for the records of one port. */
  predicate Comparable(rs: seq<Record>, receiver: PortIdentity) {
    && (forall r :: r in rs ==> r.source != receiver)
    && (forall r, s :: r in rs && s in rs ==> SameAttributes(r.ds, s.ds))
  }

  lemma {:induction false} BestQualifiedIsMember(rs: seq<Record>, receiver: PortIdentity)
    ensures BestQualified(rs, receiver).None? ==> forall r :: r in rs ==> !r.IsQualified()
    ensures BestQualified(rs, receiver).Some? ==>
              BestQualified(rs, receiver).value in rs && BestQualified(rs, receiver).value.IsQualified()
  {
    if rs != [] {
      var init := rs[..|rs| - 1];
      assert rs == init + [rs[|rs| - 1]];
      BestQualifiedIsMember(init, receiver);
    }
  }

  /** The fold returns the record that beats every other qualified record of the port. */
  lemma {:induction false} BestQualifiedBeatsAll(rs: seq<Record>, receiver: PortIdentity, r: Record)
    requires DistinctSources(rs) && Comparable(rs, receiver)
    requires r in rs && r.IsQualified()
    ensures BestQualified(rs, receiver).Some?
    ensures r == BestQualified(rs, receiver).value
            || IsBetter(BestQualified(rs, receiver).value.Topology(receiver), r.Topology(receiver))
  {
    var init, candidate := rs[..|rs| - 1], rs[|rs| - 1];
    assert rs == init + [candidate];
    BestQualifiedIsMember(init, receiver);
    if r in init {
      BestQualifiedBeatsAll(init, receiver, r);
      var best := BestQualified(init, receiver).value;
      if candidate.IsQualified() {
        BetterIsStrictTotalOrder(candidate.Topology(receiver), best.Topology(receiver), r.Topology(receiver));
      }
    } else if BestQualified(init, receiver).Some? {
      var best := BestQualified(init, receiver).value;
      BetterIsStrictTotalOrder(candidate.Topology(receiver), best.Topology(receiver), r.Topology(receiver));
    }
  }

  /** Insertion order does not matter: stores holding the same qualified records agree. */
  lemma SelectionIgnoresOrder(rs: seq<Record>, ss: seq<Record>, receiver: PortIdentity)
    requires DistinctSources(rs) && Comparable(rs, receiver)
    requires DistinctSources(ss) && Comparable(ss, receiver)
    requires forall r: Record :: r.IsQualified() ==> (r in rs <==> r in ss)
    ensures SnapshotOf(rs, receiver) == SnapshotOf(ss, receiver)
  {
    BestQualifiedIsMember(rs, receiver);
    BestQualifiedIsMember(ss, receiver);
    if BestQualified(rs, receiver).Some? {
      var r := BestQualified(rs, receiver).value;
      BestQualifiedBeatsAll(ss, receiver, r);
      var s := BestQualified(ss, receiver).value;
      BestQualifiedBeatsAll(rs, receiver, s);
      BetterIsAsymmetric(r.Topology(receiver), s.Topology(receiver));
    }
  }

  // ----- The Vec-backed store

  /** `ForeignClockRecordsVec`: a vector of records updated, pushed to and retained in place. */
  class ForeignClockRecordsVec {
    var records: seq<Record>

    constructor ()
      ensures records == []
    {
      records := [];
    }

    method Remember(record: Record)
      modifies this
      ensures records == Remembered(old(records), record)
    {
      var i := 0;
      while i < |records| && records[i].source != record.source
        invariant 0 <= i <= |records|
        invariant forall j :: 0 <= j < i ==> records[j].source != record.source
      {
        i := i + 1;
      }
      FirstMatch(records, record, i);
      if i < |records| {
        records := records[i := records[i].UpdatedFrom(record)];
      } else {
        records := records + [record];
      }
    }

    /** `Vec::retain` keeps the fresh records in order and reports whether any was removed. */
    method PruneStale(now: nat) returns (removed: bool)
      modifies this
      ensures records == Pruned(old(records), now)
      ensures removed <==> exists r :: r in old(records) && r.IsStale(now)
    {
      var before := |records|;
      var kept: seq<Record> := [];
      var i := 0;
      while i < |records|
        invariant 0 <= i <= |records|
        invariant records == old(records)
        invariant kept + Pruned(records[i..], now) == Pruned(records, now)
      {
        PrunedStep(records, i, now, kept);
        if !records[i].IsStale(now) {
          kept := kept + [records[i]];
        }
        i := i + 1;
      }
      PrunedLength(records, now);
      records := kept;
      removed := |records| != before;
    }

    /** `BestForeignRecord::consider`: prune, then remember. */
    method Consider(o: Observation)
      modifies this
      ensures records == Considered(old(records), o)
    {
      var _ := PruneStale(o.now);
      Remember(NewRecord(o));
    }

    /** `BestForeignRecord::snapshot`. */
    method TakeSnapshot(receiver: PortIdentity) returns (best: Snapshot)
      ensures best == SnapshotOf(records, receiver)
    {
      var chosen: Option<Record> := None;
      for i := 0 to |records|
        invariant chosen == BestQualified(records[..i], receiver)
      {
        assert records[..i + 1][..i] == records[..i];
        if records[i].IsQualified() {
          if chosen.None? || IsBetter(records[i].Topology(receiver), chosen.value.Topology(receiver)) {
            chosen := Some(records[i]);
          }
        }
      }
      assert records[..|records|] == records;
      best := if chosen.None? then Empty else Qualified(chosen.value.ds, chosen.value.source, receiver);
    }
  }
}
