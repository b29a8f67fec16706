/** The fixed-capacity record store and its replacement policy. */
module Heapless {
  import opened Base
  import opened Clock
  import opened Dataset
  import opened Foreign

  predicate Beats(a: Record, b: Record, receiver: PortIdentity) {
    IsBetter(a.Topology(receiver), b.Topology(receiver))
  }

  /** `candidate_index` over the first `n` records: the last record beaten by `r` that does not beat
  the victim found so far. */
  function Victim(rs: seq<Record>, n: nat, r: Record, receiver: PortIdentity): (v: Option<nat>)
    requires n <= |rs|
    ensures v.Some? ==> v.value < n && Beats(r, rs[v.value], receiver)
    ensures v.None? ==> forall i :: 0 <= i < n ==> !Beats(r, rs[i], receiver)
  {
    if n == 0 then None
    else
      var worst := Victim(rs, n - 1, r, receiver);
      if !Beats(r, rs[n - 1], receiver) then worst
      else if worst.Some? && Beats(rs[n - 1], rs[worst.value], receiver) then worst
      else Some(n - 1)
  }

  function Without(rs: seq<Record>, i: nat): seq<Record>
    requires i < |rs|
  {
    rs[..i] + rs[i + 1..]
  }

  function BoundedRemembered(rs: seq<Record>, r: Record, capacity: nat, receiver: PortIdentity): seq<Record> {
    if Find(rs, r.source).Some? then Remembered(rs, r)
    else if |rs| < capacity then rs + [r]
    else
      match Victim(rs, |rs|, r, receiver)
      case None => rs
      case Some(i) => Without(rs, i) + [r]
  }

  /** The scan finds the worst of the beaten records. */
  lemma {:induction false} VictimIsWorst(rs: seq<Record>, n: nat, r: Record, receiver: PortIdentity, k: nat)
    requires n <= |rs| && DistinctSources(rs) && Comparable(rs, receiver)
    requires k < n && Beats(r, rs[k], receiver)
    ensures Victim(rs, n, r, receiver).Some?
    ensures NoBetter(rs, k, Victim(rs, n, r, receiver).value, receiver)
  {
    var before, after := Victim(rs, n - 1, r, receiver), Victim(rs, n, r, receiver);
    if k < n - 1 {
      VictimIsWorst(rs, n - 1, r, receiver, k);
      if after != before {
        StoredWorseReplacesWorst(rs, receiver, k, before.value, n - 1);
      }
    }
  }

  /** Record `i` is the record at `worst` or beats it. */
  predicate NoBetter(rs: seq<Record>, i: nat, worst: nat, receiver: PortIdentity)
    requires i < |rs| && worst < |rs|
  {
    i == worst || Beats(rs[i], rs[worst], receiver)
  }

  lemma StoredWorseReplacesWorst(rs: seq<Record>, receiver: PortIdentity, k: nat, w: nat, n: nat)
    requires DistinctSources(rs) && Comparable(rs, receiver) && k < n < |rs| && w < n
    requires NoBetter(rs, k, w, receiver)
    requires !Beats(rs[n], rs[w], receiver)
    ensures Beats(rs[k], rs[n], receiver)
  {
    assert rs[k] in rs && rs[w] in rs && rs[n] in rs;
    WorseReplacesWorst(rs[k].Topology(receiver), rs[w].Topology(receiver), rs[n].Topology(receiver));
  }

  /** What beats the worst so far also beats a later record that does not beat it. */
  lemma WorseReplacesWorst(x: TopologyDS, worst: TopologyDS, later: TopologyDS)
    requires NoSelfLoop(x) && NoSelfLoop(worst) && NoSelfLoop(later)
    requires SameAttributes(x.ds, worst.ds) && SameAttributes(worst.ds, later.ds) && SameAttributes(x.ds, later.ds)
    requires worst.sender != later.sender
    requires x == worst || IsBetter(x, worst)
    requires !IsBetter(later, worst)
    ensures IsBetter(x, later)
  {
    BetterIsStrictTotalOrder(x, worst, later);
    BetterIsStrictTotalOrder(worst, later, x);
  }

  /** The worst of the `rs` and `r` is evicted when a full store remembers an unseen source. */
  ghost predicate KeepsAllButWorst(rs: seq<Record>, r: Record, kept: seq<Record>, receiver: PortIdentity, worst: Record) {
    && worst in rs + [r]
    && multiset(kept) == multiset(rs + [r]) - multiset{worst}
    && forall x :: x in kept ==> Beats(x, worst, receiver)
  }

  /** A full store that remembers an unseen source keeps exactly the N best of the N + 1 records. */
  lemma FullStoreKeepsTheBest(rs: seq<Record>, r: Record, receiver: PortIdentity) returns (worst: Record)
    requires DistinctSources(rs + [r]) && Comparable(rs + [r], receiver)
    ensures KeepsAllButWorst(rs, r, BoundedRemembered(rs, r, |rs|, receiver), receiver, worst)
    ensures worst == r <==> forall x :: x in rs ==> !Beats(r, x, receiver)
  {
    UnseenIsUnknown(rs, r);
    match Victim(rs, |rs|, r, receiver)
    case None =>
      worst := r;
      NewcomerIsWorst(rs, r, receiver);
    case Some(i) =>
      worst := rs[i];
      VictimIsEvicted(rs, r, receiver, i);
      SourcesDiffer(rs, r, worst);
  }

  lemma NewcomerIsWorst(rs: seq<Record>, r: Record, receiver: PortIdentity)
    requires DistinctSources(rs + [r]) && Comparable(rs + [r], receiver)
    requires Victim(rs, |rs|, r, receiver).None?
    ensures KeepsAllButWorst(rs, r, rs, receiver, r)
    ensures forall x :: x in rs ==> !Beats(r, x, receiver)
  {
    forall x | x in rs ensures Beats(x, r, receiver) && !Beats(r, x, receiver) {
      NewcomerIsDecided(rs, r, receiver, x);
    }
    assert multiset(rs + [r]) - multiset{r} == multiset(rs);
  }

  lemma VictimIsEvicted(rs: seq<Record>, r: Record, receiver: PortIdentity, i: nat)
    requires DistinctSources(rs + [r]) && Comparable(rs + [r], receiver)
    requires Victim(rs, |rs|, r, receiver) == Some(i)
    ensures KeepsAllButWorst(rs, r, Without(rs, i) + [r], receiver, rs[i])
  {
    WithoutRemoves(rs, i, r);
    forall x | x in Without(rs, i) + [r] ensures Beats(x, rs[i], receiver) {
      if x != r {
        var k :| 0 <= k < |rs| && rs[k] == x && k != i;
        SurvivorBeatsVictim(rs, r, receiver, i, k);
      }
    }
  }

  /** The newcomer and a stored record always compare one way or the other. */
  lemma NewcomerIsDecided(rs: seq<Record>, r: Record, receiver: PortIdentity, x: Record)
    requires DistinctSources(rs + [r]) && Comparable(rs + [r], receiver)
    requires x in rs
    ensures Beats(x, r, receiver) || Beats(r, x, receiver)
  {
    SourcesDiffer(rs, r, x);
    assert r in rs + [r] && x in rs + [r];
    BetterIsStrictTotalOrder(x.Topology(receiver), r.Topology(receiver), r.Topology(receiver));
  }

  lemma SurvivorBeatsVictim(rs: seq<Record>, r: Record, receiver: PortIdentity, i: nat, k: nat)
    requires DistinctSources(rs + [r]) && Comparable(rs + [r], receiver)
    requires Victim(rs, |rs|, r, receiver) == Some(i)
    requires k < |rs| && k != i
    ensures Beats(rs[k], rs[i], receiver)
  {
    HypothesesRestrict(rs, r, receiver);
    NewcomerIsDecided(rs, r, receiver, rs[k]);
    if Beats(r, rs[k], receiver) {
      VictimIsWorst(rs, |rs|, r, receiver, k);
    } else {
      assert r in rs + [r] && rs[k] in rs + [r] && rs[i] in rs + [r];
      BetterIsStrictTotalOrder(rs[k].Topology(receiver), r.Topology(receiver), rs[i].Topology(receiver));
    }
  }

  lemma WithoutRemoves(rs: seq<Record>, i: nat, r: Record)
    requires i < |rs|
    ensures multiset(Without(rs, i) + [r]) == multiset(rs + [r]) - multiset{rs[i]}
    ensures forall x :: x in Without(rs, i) + [r] && x != r ==> exists k :: 0 <= k < |rs| && rs[k] == x && k != i
  {
    assert rs == rs[..i] + [rs[i]] + rs[i + 1..];
    forall x | x in Without(rs, i) + [r] && x != r
      ensures exists k :: 0 <= k < |rs| && rs[k] == x && k != i
    {
      var j :| 0 <= j < |Without(rs, i)| && Without(rs, i)[j] == x;
      assert rs[if j < i then j else j + 1] == x;
    }
  }

  lemma SourcesDiffer(rs: seq<Record>, r: Record, x: Record)
    requires DistinctSources(rs + [r]) && x in rs
    ensures x.source != r.source
  {
    var k :| 0 <= k < |rs| && rs[k] == x;
    assert (rs + [r])[k].source != (rs + [r])[|rs|].source;
  }

  lemma UnseenIsUnknown(rs: seq<Record>, r: Record)
    requires DistinctSources(rs + [r])
    ensures Find(rs, r.source).None?
  {
    FindIsMember(rs, r.source);
    if Knows(rs, r.source) {
      var i :| 0 <= i < |rs| && rs[i].source == r.source;
      SourcesDiffer(rs, r, rs[i]);
    }
  }

  lemma HypothesesRestrict(rs: seq<Record>, r: Record, receiver: PortIdentity)
    requires DistinctSources(rs + [r]) && Comparable(rs + [r], receiver)
    ensures DistinctSources(rs) && Comparable(rs, receiver)
  {
    forall i, j | 0 <= i < j < |rs| ensures rs[i].source != rs[j].source {
      assert (rs + [r])[i].source != (rs + [r])[j].source;
    }
  }

  // ----- Whole runs of the bounded store

  datatype Operation = Remember(record: Record) | PruneStale(now: nat)

  function Perform(rs: seq<Record>, op: Operation, capacity: nat, receiver: PortIdentity): seq<Record> {
    match op
    case Remember(r) => BoundedRemembered(rs, r, capacity, receiver)
    case PruneStale(now) => Pruned(rs, now)
  }

  function PerformAll(ops: seq<Operation>, capacity: nat, receiver: PortIdentity): seq<Record> {
    if ops == [] then []
    else Perform(PerformAll(ops[..|ops| - 1], capacity, receiver), ops[|ops| - 1], capacity, receiver)
  }

  /** Over any run the store stays within capacity and keeps one record per source, with no
  hypothesis on the records. */
  lemma {:induction false} BoundedStoreStaysBounded(ops: seq<Operation>, capacity: nat, receiver: PortIdentity)
    ensures |PerformAll(ops, capacity, receiver)| <= capacity
    ensures DistinctSources(PerformAll(ops, capacity, receiver))
  {
    if ops != [] {
      var init := ops[..|ops| - 1];
      BoundedStoreStaysBounded(init, capacity, receiver);
      StepStaysBounded(PerformAll(init, capacity, receiver), ops[|ops| - 1], capacity, receiver);
    }
  }

  lemma StepStaysBounded(rs: seq<Record>, op: Operation, capacity: nat, receiver: PortIdentity)
    requires |rs| <= capacity && DistinctSources(rs)
    ensures |Perform(rs, op, capacity, receiver)| <= capacity
    ensures DistinctSources(Perform(rs, op, capacity, receiver))
  {
    match op
    case PruneStale(now) => PrunedIsSubset(rs, now);
    case Remember(r) =>
      FindIsMember(rs, r.source);
      if Find(rs, r.source).Some? {
        RememberedMembers(rs, r);
        RememberedLength(rs, r);
      }
  }

  lemma {:induction false} RememberedLength(rs: seq<Record>, r: Record)
    ensures |Remembered(rs, r)| == if Find(rs, r.source).Some? then |rs| else |rs| + 1
  {
    if rs != [] && rs[0].source != r.source {
      RememberedLength(rs[1..], r);
    }
  }

  // ----- The documented order of the records

  /** The order the store documents: qualified records first, then the better dataset. */
  predicate Ahead(a: Record, b: Record, receiver: PortIdentity) {
    if a.IsQualified() != b.IsQualified() then a.IsQualified() else Beats(a, b, receiver)
  }

  predicate Sorted(rs: seq<Record>, receiver: PortIdentity) {
    forall i, j :: 0 <= i < j < |rs| ==> Ahead(rs[i], rs[j], receiver)
  }

  /** `r` belongs at position `i` of `rs`. */
  predicate BelongsAt(rs: seq<Record>, i: nat, r: Record, receiver: PortIdentity)
    requires i <= |rs|
  {
    && (forall j :: 0 <= j < i ==> Ahead(rs[j], r, receiver))
    && (forall j :: i <= j < |rs| ==> Ahead(r, rs[j], receiver))
  }

  function Inserted(rs: seq<Record>, i: nat, r: Record): seq<Record>
    requires i <= |rs|
  {
    rs[..i] + [r] + rs[i..]
  }

  lemma InsertedIsSorted(rs: seq<Record>, i: nat, r: Record, receiver: PortIdentity)
    requires i <= |rs|
    ensures Sorted(Inserted(rs, i, r), receiver) <==> Sorted(rs, receiver) && BelongsAt(rs, i, r, receiver)
  {
    var all := Inserted(rs, i, r);
    assert all[i] == r;
    assert forall j :: 0 <= j < i ==> all[j] == rs[j];
    assert forall j :: i <= j < |rs| ==> all[j + 1] == rs[j];
    if Sorted(all, receiver) {
      forall j, k | 0 <= j < k < |rs| ensures Ahead(rs[j], rs[k], receiver) {
        assert Ahead(all[if j < i then j else j + 1], all[if k < i then k else k + 1], receiver);
      }
    }
    if Sorted(rs, receiver) && BelongsAt(rs, i, r, receiver) {
      forall j, k | 0 <= j < k < |all| ensures Ahead(all[j], all[k], receiver) {
        if j < i && k > i {
          assert Ahead(rs[j], rs[k - 1], receiver);
        } else if j > i {
          assert Ahead(rs[j - 1], rs[k - 1], receiver);
        }
      }
    }
  }

  /** Remembering puts one record into the others: at its source's position, at the end, or nowhere. */
  datatype Placement = Dropped | Placed(others: seq<Record>, at: nat, record: Record)

  function PlacementOf(rs: seq<Record>, r: Record, capacity: nat, receiver: PortIdentity): (p: Placement)
    ensures p.Placed? ==> p.at <= |p.others|
  {
    var i := IndexOf(rs, r.source);
    if i < |rs| then Placed(Without(rs, i), i, rs[i].UpdatedFrom(r))
    else if |rs| < capacity then Placed(rs, |rs|, r)
    else
      match Victim(rs, |rs|, r, receiver)
      case None => Dropped
      case Some(v) => Placed(Without(rs, v), |rs| - 1, r)
  }

  /** The first position of `source`, or the length. */
  function IndexOf(rs: seq<Record>, source: PortIdentity): (i: nat)
    ensures i <= |rs|
    ensures forall j :: 0 <= j < i ==> rs[j].source != source
    ensures i < |rs| ==> rs[i].source == source
  {
    if rs == [] || rs[0].source == source then 0 else 1 + IndexOf(rs[1..], source)
  }

  lemma PlacementIsExact(rs: seq<Record>, r: Record, capacity: nat, receiver: PortIdentity)
    ensures var p := PlacementOf(rs, r, capacity, receiver);
            BoundedRemembered(rs, r, capacity, receiver) ==
              if p.Dropped? then rs else Inserted(p.others, p.at, p.record)
  {
    FirstMatch(rs, r, IndexOf(rs, r.source));
  }

  /** The documented order holds after remembering exactly when the other records are in order and
  the record happens to belong where it lands; nothing moves it there. */
  lemma SortedExactly(rs: seq<Record>, r: Record, capacity: nat, receiver: PortIdentity)
    ensures var p := PlacementOf(rs, r, capacity, receiver);
            Sorted(BoundedRemembered(rs, r, capacity, receiver), receiver) <==>
              if p.Dropped? then Sorted(rs, receiver)
              else Sorted(p.others, receiver) && BelongsAt(p.others, p.at, p.record, receiver)
  {
    var p := PlacementOf(rs, r, capacity, receiver);
    PlacementIsExact(rs, r, capacity, receiver);
    if p.Placed? {
      InsertedIsSorted(p.others, p.at, p.record, receiver);
    }
  }

  /** Pruning never disturbs the order. */
  lemma {:induction false} PruningKeepsOrder(rs: seq<Record>, now: nat, receiver: PortIdentity)
    requires Sorted(rs, receiver)
    ensures Sorted(Pruned(rs, now), receiver)
  {
    if rs != [] {
      PruningKeepsOrder(rs[1..], now, receiver);
      PrunedIsSubset(rs[1..], now);
      var tail := Pruned(rs[1..], now);
      forall x | x in tail ensures Ahead(rs[0], x, receiver) {
        var k :| 0 <= k < |rs[1..]| && rs[1..][k] == x;
        assert rs[k + 1] == x;
      }
    }
  }

  /** Two records remembered with the better one second are out of order, at any capacity that holds
  both. */
  lemma RecordsAreNotSorted(capacity: nat)
    returns (ops: seq<Operation>, receiver: PortIdentity)
    requires capacity >= 2
    ensures !Sorted(PerformAll(ops, capacity, receiver), receiver)
  {
    receiver := PortIdentity(9, 1);
    var q := ClockQuality(DefaultClass, Within1us, 0);
    var worse := Record(PortIdentity(2, 1), ClockDS(2, 20, 0, q, 0), 0, None, 0);
    var better := Record(PortIdentity(1, 1), ClockDS(1, 10, 0, q, 0), 0, None, 0);
    ops := [Remember(worse), Remember(better)];
    assert ops[..1] == [Remember(worse)] && ops[..1][..0] == [];
    assert PerformAll(ops[..1], capacity, receiver) == [worse];
    assert [worse][1..] == [] && Find([worse], better.source) == None;
    assert PerformAll(ops, capacity, receiver) == [worse, better];
    assert !Ahead([worse, better][0], [worse, better][1], receiver);
  }

  // ----- The mutable store

  class HeaplessForeignClockRecords {
    const capacity: nat
    const receiver: PortIdentity
    var records: seq<Record>

    constructor (capacity: nat, receiver: PortIdentity)
      ensures this.capacity == capacity && this.receiver == receiver && records == []
    {
      this.capacity, this.receiver := capacity, receiver;
      records := [];
    }

    method CandidateIndex(candidate: Record) returns (worst: Option<nat>)
      ensures worst == Victim(records, |records|, candidate, receiver)
    {
      worst := None;
      for i := 0 to |records|
        invariant worst == Victim(records, i, candidate, receiver)
      {
        if Beats(candidate, records[i], receiver) {
          match worst
          case None => worst := Some(i);
          case Some(w) =>
            if !Beats(records[i], records[w], receiver) {
              worst := Some(i);
            }
        }
      }
    }

    method Remember(record: Record)
      requires |records| <= capacity
      modifies this
      ensures records == BoundedRemembered(old(records), record, capacity, receiver)
      ensures |records| <= capacity
    {
      var i := 0;
      while i < |records| && records[i].source != record.source
        invariant 0 <= i <= |records|
        invariant forall j :: 0 <= j < i ==> records[j].source != record.source
      {
        i := i + 1;
      }
      FirstMatch(records, record, i);
      if i < |records| {
        records := records[i := records[i].UpdatedFrom(record)];
      } else if |records| < capacity {
        records := records + [record];
      } else {
        var worst := CandidateIndex(record);
        if worst.Some? {
          records := records[..worst.value] + records[worst.value + 1..];
          records := records + [record];
        }
      }
    }
  }
}
