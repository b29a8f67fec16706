/** The BMCA dataset comparison (IEEE 1588-2019 section 9.3.4, figures 34 and 35). */
module Dataset {
  import opened Base
  import opened Clock

  datatype ClockDS = ClockDS(
    identity: ClockIdentity,
    priority1: byte,
    priority2: byte,
    quality: ClockQuality,
    steps: uint16)

  predicate IsAuthoritative(ds: ClockDS) {
    IsAuthoritativeClass(ds.quality.clockClass)
  }

  function WithAddedStep(ds: ClockDS): ClockDS {
    ds.(steps := SaturatingInc(ds.steps))
  }

  /** A dataset with the sender that announced it and the port that received it. */
  datatype TopologyDS = TopologyDS(ds: ClockDS, sender: PortIdentity, receiver: PortIdentity)

  /** The local dataset D_0: sender and receiver are both port 0 of the clock. */
  function LocalTopology(ds: ClockDS): TopologyDS {
    TopologyDS(ds, PortIdentity(ds.identity, 0), PortIdentity(ds.identity, 0))
  }

  /** `UnreachableArm` stands for the `unreachable!` of `ClockDS::compare`. */
  datatype DsComparison = Better | Worse | TopologyTieBreak(steps: Ordering) | UnreachableArm

  function CompareSteps(a: uint16, b: uint16): DsComparison {
    if SaturatingInc(a) < b then Better
    else if a > SaturatingInc(b) then Worse
    else TopologyTieBreak(CompareInt(a, b))
  }

  /** The dataset attributes other than identity and stepsRemoved, in comparison order. */
  function CompareAttributes(a: ClockDS, b: ClockDS): Ordering {
    CompareInt(a.priority1, b.priority1)
      .Then(CompareQuality(a.quality, b.quality))
      .Then(CompareInt(a.priority2, b.priority2))
  }

  function CompareDatasets(a: ClockDS, b: ClockDS): (r: DsComparison)
    ensures r != UnreachableArm
  {
    if a.identity == b.identity then CompareSteps(a.steps, b.steps)
    else
      match CompareAttributes(a, b).Then(CompareInt(a.identity, b.identity))
      case Less => Better
      case Greater => Worse
      case Equal => UnreachableArm
  }

  datatype TopologyOrdering =
    TopoBetter | TopoBetterByTopology | TopoWorse | TopoWorseByTopology | Error1 | Error2

  function CompareTopology(a: TopologyDS, steps: Ordering, b: TopologyDS): TopologyOrdering {
    match steps
    case Less => (
      match ComparePorts(b.receiver, b.sender)
      case Less => TopoBetter
      case Greater => TopoBetterByTopology
      case Equal => Error1
    )
    case Greater => (
      match ComparePorts(a.receiver, a.sender)
      case Less => TopoWorse
      case Greater => TopoWorseByTopology
      case Equal => Error1
    )
    case Equal => (
      match ComparePorts(a.sender, b.sender)
      case Less => TopoBetterByTopology
      case Greater => TopoWorseByTopology
      case Equal => (
        match CompareInt(a.receiver.port, b.receiver.port)
        case Less => TopoBetterByTopology
        case Greater => TopoWorseByTopology
        case Equal => Error2
      )
    )
  }

  predicate IsBetter(a: TopologyDS, b: TopologyDS) {
    match CompareDatasets(a.ds, b.ds)
    case Better => true
    case TopologyTieBreak(steps) =>
      var o := CompareTopology(a, steps, b);
      o == TopoBetter || o == TopoBetterByTopology
    case _ => false
  }

  predicate IsBetterByTopology(a: TopologyDS, b: TopologyDS) {
    match CompareDatasets(a.ds, b.ds)
    case TopologyTieBreak(steps) => CompareTopology(a, steps, b) == TopoBetterByTopology
    case _ => false
  }

  // ----- The simple order the flowchart refines, in plain numbers

  /** The two datasets state the same priorities and quality. */
  predicate SameValues(a: ClockDS, b: ClockDS) {
    && a.priority1 == b.priority1
    && ClassValue(a.quality.clockClass) == ClassValue(b.quality.clockClass)
    && AccuracyValue(a.quality.accuracy) == AccuracyValue(b.quality.accuracy)
    && a.quality.variance == b.quality.variance
    && a.priority2 == b.priority2
  }

  /** Hypothesis H1 for a pair: one grandmaster identity has one set of attributes. */
  predicate SameAttributes(a: ClockDS, b: ClockDS) {
    a.identity == b.identity ==> SameValues(a, b)
  }

  /** Hypothesis H2: nobody receives its own Announce. */
  predicate NoSelfLoop(t: TopologyDS) {
    t.sender != t.receiver
  }

  /** The first difference of (priority1, class, accuracy, variance, priority2) is a smaller number. */
  predicate SmallerValues(a: ClockDS, b: ClockDS) {
    var x, y := ClassValue(a.quality.clockClass), ClassValue(b.quality.clockClass);
    var u, v := AccuracyValue(a.quality.accuracy), AccuracyValue(b.quality.accuracy);
    || a.priority1 < b.priority1
    || (a.priority1 == b.priority1 && x < y)
    || (a.priority1 == b.priority1 && x == y && u < v)
    || (a.priority1 == b.priority1 && x == y && u == v && a.quality.variance < b.quality.variance)
    || (a.priority1 == b.priority1 && x == y && u == v && a.quality.variance == b.quality.variance
        && a.priority2 < b.priority2)
  }

  /** The better grandmaster: attributes, then identity. */
  predicate BetterGrandmaster(a: ClockDS, b: ClockDS) {
    SmallerValues(a, b) || (SameValues(a, b) && a.identity < b.identity)
  }

  /** The better path to one grandmaster: steps, then sender, then receiver port. */
  predicate BetterPath(a: TopologyDS, b: TopologyDS) {
    || a.ds.steps < b.ds.steps
    || (a.ds.steps == b.ds.steps && PortBefore(a.sender, b.sender))
    || (a.ds.steps == b.ds.steps && a.sender == b.sender && a.receiver.port < b.receiver.port)
  }

  /** Lexicographic order on (priority1, class, accuracy, variance, priority2, identity, steps, sender,
  receiver port). */
  predicate SmallerKey(a: TopologyDS, b: TopologyDS) {
    || BetterGrandmaster(a.ds, b.ds)
    || (SameValues(a.ds, b.ds) && a.ds.identity == b.ds.identity && BetterPath(a, b))
  }

  predicate SameKey(a: TopologyDS, b: TopologyDS) {
    && SameValues(a.ds, b.ds) && a.ds.identity == b.ds.identity && a.ds.steps == b.ds.steps
    && a.sender == b.sender && a.receiver.port == b.receiver.port
  }

  /** The comparison of figure 35 that ends in error-1 although `a` has one step fewer. */
  predicate LostToError1(a: TopologyDS, b: TopologyDS) {
    && a.ds.identity == b.ds.identity
    && a.ds.steps + 1 == b.ds.steps
    && b.sender == b.receiver
  }

  /** "Better or better by topology" is asymmetric, with no hypothesis at all. */
  lemma BetterIsAsymmetric(a: TopologyDS, b: TopologyDS)
    ensures !(IsBetter(a, b) && IsBetter(b, a))
    ensures IsBetterByTopology(a, b) ==> IsBetter(a, b)
  {
  }

  function Mirrored(o: TopologyOrdering): TopologyOrdering {
    match o
    case TopoBetter => TopoWorse
    case TopoBetterByTopology => TopoWorseByTopology
    case TopoWorse => TopoBetter
    case TopoWorseByTopology => TopoBetterByTopology
    case _ => o
  }

  /** Comparing the other way round gives the mirrored outcome, errors included, for all inputs. */
  lemma ComparisonIsMirrored(a: TopologyDS, b: TopologyDS)
    ensures CompareDatasets(a.ds, b.ds) == Better <==> CompareDatasets(b.ds, a.ds) == Worse
    ensures var there, back := CompareInt(a.ds.steps, b.ds.steps), CompareInt(b.ds.steps, a.ds.steps);
            && (CompareDatasets(a.ds, b.ds) == TopologyTieBreak(there) <==> CompareDatasets(b.ds, a.ds) == TopologyTieBreak(back))
            && CompareTopology(b, back, a) == Mirrored(CompareTopology(a, there, b))
  {
  }

  /** For all inputs the comparison is two orders: by path between datasets of one grandmaster, whatever
  attributes they state, except exactly where it stops in error-1; and by grandmaster otherwise. */
  lemma BetterIsTwoOrders(a: TopologyDS, b: TopologyDS)
    ensures IsBetter(a, b) <==>
              if a.ds.identity == b.ds.identity then BetterPath(a, b) && !LostToError1(a, b)
              else BetterGrandmaster(a.ds, b.ds)
  {
  }

  /** Two paths to one grandmaster, the better one at equal steps, or one step ahead of a path whose
  sender is the smaller port. */
  predicate ParallelPath(a: TopologyDS, b: TopologyDS) {
    && a.ds.identity == b.ds.identity
    && BetterPath(a, b)
    && (a.ds.steps == b.ds.steps || (a.ds.steps + 1 == b.ds.steps && PortBefore(b.sender, b.receiver)))
  }

  lemma BetterByTopologyExactly(a: TopologyDS, b: TopologyDS)
    ensures IsBetterByTopology(a, b) <==> ParallelPath(a, b)
  {
  }

  /** Under H1 the flowchart is the lexicographic order, except exactly where it stops in error-1. */
  lemma BetterExactly(a: TopologyDS, b: TopologyDS)
    requires SameAttributes(a.ds, b.ds)
    ensures IsBetter(a, b) <==> SmallerKey(a, b) && !LostToError1(a, b)
  {
    BetterIsTwoOrders(a, b);
  }

  lemma BetterIsKeyOrder(a: TopologyDS, b: TopologyDS)
    requires SameAttributes(a.ds, b.ds) && NoSelfLoop(a) && NoSelfLoop(b)
    ensures IsBetter(a, b) <==> SmallerKey(a, b)
    ensures IsBetter(b, a) <==> SmallerKey(b, a)
  {
    BetterExactly(a, b);
    BetterExactly(b, a);
  }

  /** The key order is a strict total order on keys. */
  lemma KeysAreOrdered(a: TopologyDS, b: TopologyDS, c: TopologyDS)
    ensures !(SmallerKey(a, b) && SmallerKey(b, a))
    ensures SameKey(a, b) <==> !SmallerKey(a, b) && !SmallerKey(b, a)
    ensures SmallerKey(a, b) && SmallerKey(b, c) ==> SmallerKey(a, c)
  {
  }

  /** Under H1 and H2 "better" is transitive, and decides every pair of distinct sources. */
  lemma BetterIsStrictTotalOrder(a: TopologyDS, b: TopologyDS, c: TopologyDS)
    requires SameAttributes(a.ds, b.ds) && SameAttributes(b.ds, c.ds) && SameAttributes(a.ds, c.ds)
    requires NoSelfLoop(a) && NoSelfLoop(b) && NoSelfLoop(c)
    ensures IsBetter(a, b) && IsBetter(b, c) ==> IsBetter(a, c)
    ensures a.sender != b.sender || a.receiver.port != b.receiver.port ==> IsBetter(a, b) || IsBetter(b, a)
  {
    BetterIsKeyOrder(a, b);
    BetterIsKeyOrder(b, c);
    BetterIsKeyOrder(a, c);
    KeysAreOrdered(a, b, c);
  }

  // ----- What goes wrong without the hypotheses

  lemma GrandmastersAreOrdered(a: ClockDS, b: ClockDS, c: ClockDS)
    requires BetterGrandmaster(a, b) && BetterGrandmaster(b, c)
    ensures BetterGrandmaster(a, c)
  {
  }

  /** Exactly when the comparison fails to be transitive: two of the three datasets share a grandmaster
  identity, and the third one lies, as a grandmaster, where only different attributes of the two let
  it. */
  lemma IntransitiveExactly(a: TopologyDS, b: TopologyDS, c: TopologyDS)
    requires NoSelfLoop(a) && NoSelfLoop(b) && NoSelfLoop(c)
    requires IsBetter(a, b) && IsBetter(b, c)
    ensures var x, y, z := a.ds, b.ds, c.ds;
            !IsBetter(a, c) <==>
              || (x.identity == y.identity != z.identity && BetterGrandmaster(y, z) && !BetterGrandmaster(x, z))
              || (x.identity != y.identity == z.identity && BetterGrandmaster(x, y) && !BetterGrandmaster(x, z))
              || (x.identity == z.identity != y.identity && BetterGrandmaster(x, z) && !BetterPath(a, c))
    ensures !IsBetter(a, c) ==>
              !SameAttributes(a.ds, b.ds) || !SameAttributes(b.ds, c.ds) || !SameAttributes(a.ds, c.ds)
  {
    BetterIsTwoOrders(a, b);
    BetterIsTwoOrders(b, c);
    BetterIsTwoOrders(a, c);
    if a.ds.identity != b.ds.identity && b.ds.identity != c.ds.identity {
      GrandmastersAreOrdered(a.ds, b.ds, c.ds);
    }
  }

  /** Without H1 the comparison has a cycle: two datasets of grandmaster 1 with different priorities
  around one of grandmaster 2. */
  lemma CyclicWithoutH1()
    returns (a: TopologyDS, b: TopologyDS, c: TopologyDS)
    ensures NoSelfLoop(a) && NoSelfLoop(b) && NoSelfLoop(c)
    ensures !SameAttributes(a.ds, c.ds)
    ensures IsBetter(a, b) && IsBetter(b, c) && IsBetter(c, a)
  {
    var q := ClockQuality(DefaultClass, Within1us, 0);
    var receiver := PortIdentity(9, 1);
    a := TopologyDS(ClockDS(1, 10, 0, q, 5), PortIdentity(3, 1), receiver);
    b := TopologyDS(ClockDS(2, 20, 0, q, 0), PortIdentity(4, 1), receiver);
    c := TopologyDS(ClockDS(1, 30, 0, q, 0), PortIdentity(5, 1), receiver);
  }

  /** Without H2 two datasets one step apart may be incomparable. */
  lemma IncomparableWithoutH2()
    returns (a: TopologyDS, b: TopologyDS)
    ensures SameAttributes(a.ds, b.ds) && a.ds.steps < b.ds.steps
    ensures !IsBetter(a, b) && !IsBetter(b, a)
  {
    var q := ClockQuality(DefaultClass, Within1us, 0);
    a := TopologyDS(ClockDS(1, 10, 0, q, 0), PortIdentity(3, 1), PortIdentity(9, 1));
    b := TopologyDS(ClockDS(1, 10, 0, q, 1), PortIdentity(9, 1), PortIdentity(9, 1));
  }
}
