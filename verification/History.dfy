/** The record store refines the announce history: what one pass of in-place updates keeps is a
function of the last two Announces of each source. */
module History {
  import opened Base
  import opened Clock
  import Dataset
  import opened Foreign

  /** The store after the observations of `h`, in order, starting empty. */
  function Store(h: seq<Observation>): seq<Record> {
    if h == [] then [] else Considered(Store(h[..|h| - 1]), h[|h| - 1])
  }

  predicate Monotone(h: seq<Observation>) {
    forall i, j :: 0 <= i <= j < |h| ==> h[i].now <= h[j].now
  }

  /** Index of the latest Announce from `source`. */
  function Latest(h: seq<Observation>, source: PortIdentity): (r: Option<nat>)
    ensures r.Some? ==> r.value < |h| && h[r.value].source == source
    ensures r.Some? ==> forall i :: r.value < i < |h| ==> h[i].source != source
    ensures r.None? ==> forall i :: 0 <= i < |h| ==> h[i].source != source
  {
    if h == [] then None
    else if h[|h| - 1].source == source then Some(|h| - 1)
    else Latest(h[..|h| - 1], source)
  }

  function WindowAt(h: seq<Observation>, i: nat): nat
    requires i < |h|
  {
    Window(h[i].interval)
  }

  /** No Announce considered after Announce `n` and before `upTo` found it stale: none was stamped
  earlier, and none more than its window later. */
  predicate Survives(h: seq<Observation>, n: nat, upTo: nat)
    requires n < upTo <= |h|
  {
    forall k :: n < k < upTo ==> h[n].now <= h[k].now && h[k].now - h[n].now <= WindowAt(h, n)
  }

  /** The record of `source`, read off any history: it exists iff its latest Announce survives, and it
  remembers the Announce before that iff that one survived up to the latest. */
  function RecordOf(h: seq<Observation>, source: PortIdentity): Option<Record> {
    match Latest(h, source)
    case None => None
    case Some(n) =>
      if !Survives(h, n, |h|) then None
      else Some(Record(source, h[n].ds, h[n].now, SurvivingPredecessor(h, n), WindowAt(h, n)))
  }

  /** The instant of the previous Announce of the source of Announce `n`, if it survived until then. */
  function SurvivingPredecessor(h: seq<Observation>, n: nat): Option<nat>
    requires n < |h|
  {
    match Latest(h[..n], h[n].source)
    case None => None
    case Some(m) => if Survives(h, m, n + 1) then Some(h[m].now) else None
  }

  /** What pruning at `now` leaves of a source's record. */
  function Fresh(r: Option<Record>, now: nat): Option<Record> {
    if r.Some? && r.value.IsStale(now) then None else r
  }

  /** Reading off a history that grows by one Announce: other sources may age out, and the record of
  the announcing source is made new or updated. */
  lemma RecordOfExtended(h: seq<Observation>, source: PortIdentity)
    requires h != []
    ensures var o := h[|h| - 1];
            var kept := Fresh(RecordOf(h[..|h| - 1], source), o.now);
            RecordOf(h, source) ==
              if source != o.source then kept
              else if kept.None? then Some(NewRecord(o))
              else Some(kept.value.UpdatedFrom(NewRecord(o)))
  {
    var init, o := h[..|h| - 1], h[|h| - 1];
    var known := Latest(init, source);
    if known.Some? {
      var n := known.value;
      SurvivesLonger(h, n);
      if source != o.source {
        assert init[..n] == h[..n];
        PredecessorKept(h, n);
      }
    }
  }

  /** Surviving one Announce more means not being stale at its instant. */
  lemma SurvivesLonger(h: seq<Observation>, n: nat)
    requires n < |h| - 1
    ensures var init, o := h[..|h| - 1], h[|h| - 1];
            Survives(h, n, |h|) <==>
              Survives(init, n, |init|) && h[n].now <= o.now && o.now - h[n].now <= WindowAt(h, n)
  {
    var init := h[..|h| - 1];
    if Survives(h, n, |h|) {
      forall k | n < k < |init| ensures init[n].now <= init[k].now && init[k].now - init[n].now <= WindowAt(init, n) {
        assert h[n].now <= h[k].now;
      }
      assert h[n].now <= h[|h| - 1].now;
    } else if Survives(init, n, |init|) {
      var k :| n < k < |h| && !(h[n].now <= h[k].now && h[k].now - h[n].now <= WindowAt(h, n));
      assert k < |init| ==> init[n].now <= init[k].now;
    }
  }

  lemma PredecessorKept(h: seq<Observation>, n: nat)
    requires n < |h| - 1
    ensures SurvivingPredecessor(h[..|h| - 1], n) == SurvivingPredecessor(h, n)
  {
    var init := h[..|h| - 1];
    assert init[..n] == h[..n];
    var known := Latest(h[..n], h[n].source);
    if known.Some? {
      var m := known.value;
      assert h[..n][m] == h[m];
      assert Survives(init, m, n + 1) <==> Survives(h, m, n + 1) by {
        assert forall k :: m < k < n + 1 ==> init[k] == h[k];
      }
    }
  }

  /** The in-place store is a function of the history, for every history. */
  lemma {:induction false} StoreIsRecordOf(h: seq<Observation>, source: PortIdentity)
    ensures DistinctSources(Store(h))
    ensures Find(Store(h), source) == RecordOf(h, source)
  {
    if h != [] {
      var init, o := h[..|h| - 1], h[|h| - 1];
      RecordOfExtended(h, source);
      StoreIsRecordOf(init, source);
      ConsideredKeepsSources(Store(init), o);
      FindPruned(Store(init), o.now, source);
      FindRemembered(Pruned(Store(init), o.now), NewRecord(o), source);
    }
  }

  predicate QualifiedIn(rs: seq<Record>, source: PortIdentity) {
    exists r :: r in rs && r.source == source && r.IsQualified()
  }

  /** Two surviving Announces of `source`, the second within its window of the first. */
  predicate SurvivingPair(h: seq<Observation>, source: PortIdentity) {
    match Latest(h, source)
    case None => false
    case Some(n) =>
      && Survives(h, n, |h|)
      && match Latest(h[..n], source)
         case None => false
         case Some(m) => Survives(h, m, n + 1) && h[n].now - h[m].now <= WindowAt(h, n)
  }

  /** For every history, with time running any way: a source is qualified exactly when its last two
  Announces form a surviving pair, it is stored exactly when the last one survives, and its record
  carries the dataset of the last one. */
  lemma QualifiedExactly(h: seq<Observation>, source: PortIdentity)
    ensures QualifiedIn(Store(h), source) <==> SurvivingPair(h, source)
    ensures Knows(Store(h), source) <==>
              Latest(h, source).Some? && Survives(h, Latest(h, source).value, |h|)
    ensures forall r :: r in Store(h) && r.source == source ==>
              Latest(h, source).Some? && r.ds == h[Latest(h, source).value].ds
    ensures DistinctSources(Store(h))
  {
    StoreIsRecordOf(h, source);
    FindIsMember(Store(h), source);
    var latest := Latest(h, source);
    if latest.Some? && Latest(h[..latest.value], source).Some? {
      var m := Latest(h[..latest.value], source).value;
      assert Survives(h, m, latest.value + 1) ==> h[m].now <= h[latest.value].now;
    }
  }

  /** The last two Announces of `source` are no further apart than either of their windows, and the
  last one is within its window of the port's most recent Announce. */
  predicate RecentPair(h: seq<Observation>, source: PortIdentity) {
    match Latest(h, source)
    case None => false
    case Some(n) =>
      && h[|h| - 1].now - h[n].now <= WindowAt(h, n)
      && match Latest(h[..n], source)
         case None => false
         case Some(m) =>
           && h[n].now - h[m].now <= WindowAt(h, m)
           && h[n].now - h[m].now <= WindowAt(h, n)
  }

  /** When time does not run backwards, as the source documents for its instants, only the two latest
  Announces and the newest one matter. */
  lemma StoreRefinesHistory(h: seq<Observation>, source: PortIdentity)
    requires Monotone(h)
    ensures QualifiedIn(Store(h), source) <==> RecentPair(h, source)
    ensures forall r :: r in Store(h) && r.source == source ==>
              Latest(h, source).Some? && r.ds == h[Latest(h, source).value].ds
    ensures DistinctSources(Store(h))
  {
    QualifiedExactly(h, source);
    var latest := Latest(h, source);
    if latest.Some? {
      var n := latest.value;
      MonotoneSurvival(h, n, |h|);
      if Latest(h[..n], source).Some? {
        MonotoneSurvival(h, Latest(h[..n], source).value, n + 1);
      }
    }
  }

  lemma MonotoneSurvival(h: seq<Observation>, n: nat, upTo: nat)
    requires Monotone(h) && n < upTo <= |h|
    ensures Survives(h, n, upTo) <==> h[upTo - 1].now - h[n].now <= WindowAt(h, n)
  {
    if h[upTo - 1].now - h[n].now <= WindowAt(h, n) {
      forall k | n < k < upTo ensures h[n].now <= h[k].now && h[k].now - h[n].now <= WindowAt(h, n) {
        assert h[k].now <= h[upTo - 1].now;
      }
    }
  }

  /** Time going backwards breaks the simple form: an Announce stamped before a stored one prunes it. */
  lemma NonMonotoneHistoryForgets()
    returns (h: seq<Observation>, source: PortIdentity)
    ensures RecentPair(h, source) && !Knows(Store(h), source)
  {
    source := PortIdentity(1, 1);
    var q := ClockQuality(DefaultClass, Within1us, 0);
    var ds := Dataset.ClockDS(1, 128, 128, q, 0);
    var o := Observation(source, ds, 0, 10);
    var other := Observation(PortIdentity(2, 1), ds, 0, 5);
    h := [o, o, other];
    assert h[..2] == [o, o] && [o, o][..1] == [o] && [o][..0] == [];
    assert Latest(h, source) == Some(1) && Latest(h[..1], source) == Some(0);
    var r := NewRecord(o);
    assert Store([o]) == [r];
    var twice := r.UpdatedFrom(r);
    assert Pruned([r], 10) == [r];
    assert Store([o, o]) == [twice];
    assert twice.IsStale(5);
    assert Pruned([twice], 5) == [];
    assert Store(h) == [NewRecord(other)];
  }
}
