/** Clock servos: the stepping servo and the PI servo with its step policy and drift calibration.
Floating point is modelled by exact reals. */
module Servo {
  import opened Base
  import opened Time
  import opened Delay

  datatype ServoState = Unlocked | Calibrating | Locked

  /** What a servo does to the clock. */
  datatype ClockAction = Step(to: TimeStamp) | Adjust(rate: real)

  datatype Threshold = Disabled | Enabled(limit: TimeInterval)

  datatype RawPiConfig = PiConfig(
    firstStep: Threshold,
    step: Threshold,
    driftMin: real,
    driftMax: real,
    minDelta: TimeInterval,
    kp: real,
    ki: real)

  /** `f64::clamp` panics unless the lower bound is at most the upper one. */
  type PiConfig = c: RawPiConfig | c.driftMin <= c.driftMax
    witness PiConfig(Disabled, Disabled, 0.0, 0.0, Interval(0, 0), 0.0, 0.0)

  /** The `Cell` fields of `PiServo` and its collaborators. */
  datatype PiState = PiState(
    initial: Option<Threshold>,
    baseline: Option<ServoSample>,
    integral: real,
    state: ServoState)

  datatype Fed<+S> = Fed(servo: S, verdict: ServoState, action: Option<ClockAction>)

  function MasterEstimate(x: ServoSample): Option<TimeStamp> {
    CheckedSub(x.ingress, x.offset)
  }

  predicate Exceeds(t: Threshold, x: ServoSample) {
    t.Enabled? && CompareIntervals(t.limit, ZERO) == Greater && CompareIntervals(AbsInterval(x.offset), t.limit) == Greater
  }

  /** `StepPolicy::should_step`; the initial threshold is consulted for the first sample only. */
  function StepTarget(c: PiConfig, initial: Option<Threshold>, x: ServoSample): Option<TimeStamp> {
    if (initial.Some? && Exceeds(initial.value, x)) || Exceeds(c.step, x) then MasterEstimate(x) else None
  }

  datatype SampleOrdering = InOrder(drift: real) | LowDelta | OutOfOrder

  /** `ServoSample::drift`: the offset change per ingress time between two samples. */
  function DriftBetween(x: ServoSample, prev: ServoSample, minDelta: TimeInterval): SampleOrdering {
    var ingress := StampDifference(x.ingress, prev.ingress);
    var offset := IntervalDifference(x.offset, prev.offset).value;
    if CompareIntervals(ingress, ZERO) != Greater then OutOfOrder
    else if CompareIntervals(AbsInterval(ingress), minDelta) == Less then LowDelta
    else
      assert TotalNanos(ingress) > 0;
      assert Seconds(ingress) > 0.0;
      InOrder(Seconds(offset) / Seconds(ingress))
  }

  function Clamp(x: real, low: real, high: real): real {
    if x < low then low else if x > high then high else x
  }

  function FreshPi(c: PiConfig): PiState {
    PiState(Some(c.firstStep), None, 0.0, Unlocked)
  }

  function Calibrate(c: PiConfig, s: PiState, x: ServoSample): Fed<PiState> {
    if s.baseline.None? then
      Fed(s.(baseline := Some(x), state := Calibrating), Calibrating, None)
    else
      match DriftBetween(x, s.baseline.value, c.minDelta)
      case InOrder(d) =>
        Fed(s.(baseline := None, state := Locked), Locked, Some(Adjust(1.0 + Clamp(d, c.driftMin, c.driftMax))))
      case LowDelta => Fed(s.(state := Calibrating), Calibrating, None)
      case OutOfOrder => Fed(s.(baseline := None, state := Calibrating), Calibrating, None)
  }

  /** The proportional-integral law of `PiLoop`. */
  function PiRate(c: PiConfig, error: real, integral: real): real {
    1.0 - c.kp * error - c.ki * integral
  }

  function PiFeed(c: PiConfig, s: PiState, x: ServoSample): Fed<PiState> {
    var target := StepTarget(c, s.initial, x);
    var t := s.(initial := None);
    if target.Some? then
      Fed(t.(baseline := None, integral := 0.0, state := Unlocked), Unlocked, Some(Step(target.value)))
    else if s.state == Locked then
      var error := Seconds(x.offset);
      var integral := s.integral + error;
      Fed(t.(integral := integral), Locked, Some(Adjust(PiRate(c, error, integral))))
    else
      Calibrate(c, t, x)
  }

  function SteppingFeed(x: ServoSample): Fed<()> {
    match MasterEstimate(x)
    case Some(t) => Fed((), Locked, Some(Step(t)))
    case None => Fed((), Unlocked, None)
  }

  /** On a symmetric path the stepping servo sets the clock to the time the Sync left the master plus
  its path delay, exactly when that instant is representable. */
  lemma SteppingSetsMasterTime(t1: TimeStamp, t2: TimeStamp, t3: TimeStamp, t4: TimeStamp, theta: int, d: int)
    requires StampNanos(t2) == StampNanos(t1) + d + theta
    requires StampNanos(t4) == StampNanos(t3) + d - theta
    ensures var fed := SteppingFeed(Sample(t2, Offset(t1, t2, t3, t4)));
            if 0 <= StampNanos(t1) + d < MAX_NANOS_EXCL
            then fed.verdict == Locked && exists to: TimeStamp ::
                   fed.action == Some(Step(to)) && StampNanos(to) == StampNanos(t1) + d
            else fed.verdict == Unlocked && fed.action == None
  {
    OffsetIsAccurate(t1, t2, t3, t4, theta, d, d);
    var x: ServoSample := Sample(t2, Offset(t1, t2, t3, t4));
    if 0 <= StampNanos(t1) + d < MAX_NANOS_EXCL {
      assert SteppingFeed(x).action == Some(Step(MasterEstimate(x).value));
    }
  }

  // ----- Whole runs of the PI servo

  /** One sample of a run: the state it met and what feeding it did. */
  datatype Moment = Moment(before: PiState, fed: Fed<PiState>)

  /** The run of a fresh servo over the samples `xs`. */
  function Trace(c: PiConfig, xs: seq<ServoSample>): (t: seq<Moment>)
    ensures |t| == |xs|
  {
    if xs == [] then []
    else
      var t := Trace(c, xs[..|xs| - 1]);
      var before := if t == [] then FreshPi(c) else t[|t| - 1].fed.servo;
      t + [Moment(before, PiFeed(c, before, xs[|xs| - 1]))]
  }

  predicate Linked(c: PiConfig, xs: seq<ServoSample>, t: seq<Moment>, i: nat)
    requires |t| == |xs| && i < |t|
  {
    && t[i].before == (if i == 0 then FreshPi(c) else t[i - 1].fed.servo)
    && t[i].fed == PiFeed(c, t[i].before, xs[i])
  }

  predicate IsRun(c: PiConfig, xs: seq<ServoSample>, t: seq<Moment>) {
    |t| == |xs| && forall i :: 0 <= i < |t| ==> Linked(c, xs, t, i)
  }

  lemma {:induction false} TraceIsRun(c: PiConfig, xs: seq<ServoSample>)
    ensures IsRun(c, xs, Trace(c, xs))
  {
    if xs != [] {
      var ys := xs[..|xs| - 1];
      TraceIsRun(c, ys);
      var t := Trace(c, xs);
      assert t[..|t| - 1] == Trace(c, ys);
      forall i | 0 <= i < |t| ensures Linked(c, xs, t, i) {
        if i < |ys| {
          assert Linked(c, ys, Trace(c, ys), i);
        }
      }
    }
  }

  predicate Stepped(m: Moment) {
    m.fed.action.Some? && m.fed.action.value.Step?
  }

  /** Nanoseconds from the arrival of sample `j` to that of sample `k`. */
  function Elapsed(xs: seq<ServoSample>, j: nat, k: nat): int
    requires j < |xs| && k < |xs|
  {
    StampNanos(xs[k].ingress) - StampNanos(xs[j].ingress)
  }

  /** Sample `j` is the baseline that sample `i` meets: no step from `j` on, and every sample between
  them arrived after `j` but too early to calibrate. */
  predicate BaselineAt(c: PiConfig, xs: seq<ServoSample>, t: seq<Moment>, i: nat, j: nat)
    requires |t| == |xs| && i < |t|
  {
    && j < i
    && t[i].before.baseline == Some(xs[j])
    && (forall k :: j <= k < i ==> !Stepped(t[k]))
    && (forall k :: j < k < i ==> 0 < Elapsed(xs, j, k) < TotalNanos(c.minDelta))
  }

  /** A sample that leaves a baseline does not step or lock: it is the new baseline itself, or came too
  soon after the old one. */
  lemma BaselineStep(c: PiConfig, s: PiState, x: ServoSample)
    requires s.baseline.Some? ==> s.state != Locked
    ensures var fed := PiFeed(c, s, x);
            fed.servo.baseline.Some? ==>
              && fed.servo.state != Locked && fed.action == None
              && if s.baseline.None? then fed.servo.baseline == Some(x)
                 else fed.servo.baseline == s.baseline && DriftBetween(x, s.baseline.value, c.minDelta).LowDelta?
  {
  }

  lemma {:induction false} BaselineIsRetained(c: PiConfig, xs: seq<ServoSample>, t: seq<Moment>, i: nat) returns (j: nat)
    requires IsRun(c, xs, t) && i < |t|
    ensures t[i].before.baseline.Some? ==> t[i].before.state != Locked && BaselineAt(c, xs, t, i, j)
  {
    j := 0;
    assert Linked(c, xs, t, i);
    if i > 0 {
      assert Linked(c, xs, t, i - 1);
      j := BaselineIsRetained(c, xs, t, i - 1);
      BaselineStep(c, t[i - 1].before, xs[i - 1]);
      if t[i - 1].before.baseline.None? {
        j := i - 1;
      } else if t[i].before.baseline.Some? {
        LowDeltaIsClose(xs[i - 1], xs[j], c.minDelta);
      }
    }
  }

  lemma LowDeltaIsClose(x: ServoSample, prev: ServoSample, minDelta: TimeInterval)
    ensures DriftBetween(x, prev, minDelta).LowDelta? <==>
              0 < StampNanos(x.ingress) - StampNanos(prev.ingress) < TotalNanos(minDelta)
  {
    var ingress := StampDifference(x.ingress, prev.ingress);
    IntervalsAreNanoseconds(ingress, ZERO);
    IntervalsAreNanoseconds(AbsInterval(ingress), minDelta);
  }

  /** Offset change over elapsed ingress time, in plain nanoseconds. */
  function Slope(x: ServoSample, prev: ServoSample): real
    requires StampNanos(x.ingress) > StampNanos(prev.ingress)
  {
    (TotalNanos(x.offset) - TotalNanos(prev.offset)) as real
      / (StampNanos(x.ingress) - StampNanos(prev.ingress)) as real
  }

  /** One plus the slope where that is within the limits, and the nearer limit otherwise. */
  predicate LimitedRate(rate: real, slope: real, low: real, high: real) {
    && 1.0 + low <= rate <= 1.0 + high
    && (low <= slope <= high ==> rate == 1.0 + slope)
    && (slope < low ==> rate == 1.0 + low)
    && (slope > high ==> rate == 1.0 + high)
  }

  /** Sample `i` locks the servo on the strength of baseline sample `j`: it is the first sample since
  `j` that arrived at least the minimum delta after it. */
  predicate LockJustified(c: PiConfig, xs: seq<ServoSample>, t: seq<Moment>, i: nat, j: nat)
    requires |t| == |xs| && i < |t|
  {
    && j < i
    && Elapsed(xs, j, i) > 0
    && Elapsed(xs, j, i) >= TotalNanos(c.minDelta)
    && (forall k :: j < k < i ==> 0 < Elapsed(xs, j, k) < TotalNanos(c.minDelta))
    && (forall k :: j <= k <= i ==> !Stepped(t[k]))
    && t[i].fed.action.Some? && t[i].fed.action.value.Adjust?
    && LimitedRate(t[i].fed.action.value.rate, Slope(xs[i], xs[j]), c.driftMin, c.driftMax)
  }

  lemma CancelScale(a: real, b: real, k: real)
    requires b > 0.0 && k > 0.0
    ensures b / k > 0.0
    ensures (a / k) / (b / k) == a / b
  {
    var q := a / b;
    assert q * b == a;
    assert q * (b / k) == a / k;
  }

  lemma DriftIsSlope(x: ServoSample, prev: ServoSample, minDelta: TimeInterval)
    requires DriftBetween(x, prev, minDelta).InOrder?
    ensures StampNanos(x.ingress) > StampNanos(prev.ingress)
    ensures StampNanos(x.ingress) - StampNanos(prev.ingress) >= TotalNanos(minDelta)
    ensures DriftBetween(x, prev, minDelta).drift == Slope(x, prev)
  {
    var ingress := StampDifference(x.ingress, prev.ingress);
    var offset := IntervalDifference(x.offset, prev.offset).value;
    IntervalsAreNanoseconds(ingress, ZERO);
    IntervalsAreNanoseconds(AbsInterval(ingress), minDelta);
    CancelScale(TotalNanos(offset) as real, TotalNanos(ingress) as real, 1_000_000_000.0);
  }

  /** Every entry into Locked rests on an earlier baseline sample, far enough before it, with no step
  since; the first rate respects the drift limits. */
  lemma LockIsJustified(c: PiConfig, xs: seq<ServoSample>, t: seq<Moment>, i: nat) returns (j: nat)
    requires IsRun(c, xs, t) && i < |t|
    requires t[i].before.state != Locked && t[i].fed.verdict == Locked
    ensures LockJustified(c, xs, t, i, j)
  {
    assert Linked(c, xs, t, i);
    j := BaselineIsRetained(c, xs, t, i);
    DriftIsSlope(xs[i], xs[j], c.minDelta);
  }

  /** A threshold is exceeded in plain nanoseconds; limits that are not positive never are. */
  predicate Beyond(limit: Threshold, x: ServoSample) {
    limit.Enabled? && 0 < TotalNanos(limit.limit) < Abs(TotalNanos(x.offset))
  }

  lemma ExceedsIsBeyond(limit: Threshold, x: ServoSample)
    ensures Exceeds(limit, x) <==> Beyond(limit, x)
  {
    if limit.Enabled? {
      IntervalsAreNanoseconds(limit.limit, ZERO);
      IntervalsAreNanoseconds(AbsInterval(x.offset), limit.limit);
    }
  }

  /** A sample steps the clock exactly when its offset is beyond the threshold, or beyond the initial
  one on the first sample, and the master time is representable; the clock is set to that time. */
  lemma StepsExactly(c: PiConfig, xs: seq<ServoSample>, t: seq<Moment>, i: nat)
    requires IsRun(c, xs, t) && i < |t|
    ensures var master := StampNanos(xs[i].ingress) - TotalNanos(xs[i].offset);
            && (Stepped(t[i]) <==>
                  && (Beyond(c.step, xs[i]) || (i == 0 && Beyond(c.firstStep, xs[i])))
                  && 0 <= master < MAX_NANOS_EXCL)
            && (Stepped(t[i]) ==> StampNanos(t[i].fed.action.value.to) == master)
  {
    assert Linked(c, xs, t, i);
    if i > 0 {
      assert Linked(c, xs, t, i - 1);
    }
    ExceedsIsBeyond(c.step, xs[i]);
    ExceedsIsBeyond(c.firstStep, xs[i]);
  }

  /** Locked is left only by a step, and the recorded state is always the last verdict. */
  lemma LockedUntilStep(c: PiConfig, xs: seq<ServoSample>, t: seq<Moment>, i: nat)
    requires IsRun(c, xs, t) && i < |t|
    ensures t[i].before.state == Locked ==> (t[i].fed.verdict != Locked <==> Stepped(t[i]))
    ensures Stepped(t[i]) ==> t[i].fed.verdict == Unlocked
    ensures t[i].fed.servo.state == t[i].fed.verdict
  {
    assert Linked(c, xs, t, i);
  }

  /** One past the last step among the first `n` samples. */
  function SinceStep(t: seq<Moment>, n: nat): (r: nat)
    requires n <= |t|
    ensures r <= n
    ensures r > 0 ==> Stepped(t[r - 1])
    ensures forall k :: r <= k < n ==> !Stepped(t[k])
  {
    if n == 0 then 0 else if Stepped(t[n - 1]) then n else SinceStep(t, n - 1)
  }

  /** The sum, in nanoseconds, of the offsets of samples `from` up to `to` that were fed while Locked. */
  function LockedNanos(xs: seq<ServoSample>, t: seq<Moment>, from: nat, to: nat): int
    requires |t| == |xs| && from <= to <= |xs|
  {
    if from == to then 0
    else LockedNanos(xs, t, from, to - 1) +
         if t[to - 1].before.state == Locked then TotalNanos(xs[to - 1].offset) else 0
  }

  /** After every sample the PI integral is the sum, in seconds, of the offsets fed while Locked since
  the last step, and while Locked the rate is one minus the weighted offset minus the weighted sum. */
  lemma {:induction false} IntegralIsLockedOffsets(c: PiConfig, xs: seq<ServoSample>, t: seq<Moment>, i: nat)
    requires IsRun(c, xs, t) && i < |t|
    ensures var sum := LockedNanos(xs, t, SinceStep(t, i + 1), i + 1) as real / 1_000_000_000.0;
            && t[i].fed.servo.integral == sum
            && (t[i].before.state == Locked && !Stepped(t[i]) ==>
                  IsAdjustment(t[i].fed.action, c, TotalNanos(xs[i].offset) as real / 1_000_000_000.0, sum))
  {
    assert Linked(c, xs, t, i);
    if i > 0 {
      IntegralIsLockedOffsets(c, xs, t, i - 1);
    }
    if t[i].before.state == Locked && !Stepped(t[i]) {
      LockedRate(c, t[i].before, xs[i]);
    }
  }

  /** The action is a rate of one, minus the weighted offset, minus the weighted integral, all in
  seconds. */
  predicate IsAdjustment(action: Option<ClockAction>, c: PiConfig, offset: real, integral: real) {
    && action.Some? && action.value.Adjust?
    && action.value.rate == 1.0 - c.kp * offset - c.ki * integral
  }

  lemma LockedRate(c: PiConfig, s: PiState, x: ServoSample)
    requires s.state == Locked && StepTarget(c, s.initial, x).None?
    ensures var offset := TotalNanos(x.offset) as real / 1_000_000_000.0;
            IsAdjustment(PiFeed(c, s, x).action, c, offset, s.integral + offset)
    ensures PiFeed(c, s, x).servo.integral == s.integral + TotalNanos(x.offset) as real / 1_000_000_000.0
  {
  }

  /** Negative feedback: with gains that are not negative, a clock that is ahead with an integral that
  is not negative is never sped up, and one that is further ahead never runs faster. */
  lemma FeedbackIsNegative(c: PiConfig, s: PiState, x: ServoSample, y: ServoSample)
    requires c.kp >= 0.0 && c.ki >= 0.0 && s.state == Locked
    requires StepTarget(c, s.initial, x).None? && StepTarget(c, s.initial, y).None?
    requires TotalNanos(x.offset) <= TotalNanos(y.offset)
    ensures PiFeed(c, s, x).action.Some? && PiFeed(c, s, x).action.value.Adjust?
    ensures PiFeed(c, s, y).action.Some? && PiFeed(c, s, y).action.value.Adjust?
    ensures PiFeed(c, s, y).action.value.rate <= PiFeed(c, s, x).action.value.rate
    ensures s.integral >= 0.0 && TotalNanos(x.offset) >= 0 ==> PiFeed(c, s, x).action.value.rate <= 1.0
  {
    LockedRate(c, s, x);
    LockedRate(c, s, y);
    var a, b := TotalNanos(x.offset) as real / 1_000_000_000.0, TotalNanos(y.offset) as real / 1_000_000_000.0;
    RateFalls(c, PiFeed(c, s, x).action, PiFeed(c, s, y).action, a, s.integral + a, b, s.integral + b);
  }

  lemma RateFalls(c: PiConfig, p: Option<ClockAction>, q: Option<ClockAction>, a: real, sumA: real, b: real, sumB: real)
    requires c.kp >= 0.0 && c.ki >= 0.0 && a <= b && sumA <= sumB
    requires IsAdjustment(p, c, a, sumA) && IsAdjustment(q, c, b, sumB)
    ensures q.value.rate <= p.value.rate
    ensures a >= 0.0 && sumA >= 0.0 ==> p.value.rate <= 1.0
  {
    var x, y, u, v := c.kp * a, c.ki * sumA, c.kp * b, c.ki * sumB;
    assert p.value.rate == 1.0 - x - y && q.value.rate == 1.0 - u - v;
    assert x <= u && y <= v by {
      WeightedIsMonotone(c.kp, a, b);
      WeightedIsMonotone(c.ki, sumA, sumB);
    }
    if a >= 0.0 && sumA >= 0.0 {
      WeightedIsMonotone(c.kp, 0.0, a);
      WeightedIsMonotone(c.ki, 0.0, sumA);
      assert x >= 0.0 && y >= 0.0;
    }
  }

  lemma WeightedIsMonotone(k: real, a: real, b: real)
    requires k >= 0.0 && a <= b
    ensures k * a <= k * b
  {
    assert k * (b - a) >= 0.0;
  }

  // ----- Servo selection

  datatype Config = SteppingConfig | PiServoConfig(config: PiConfig)

  datatype Servo = Stepping | Pi(config: PiConfig, pi: PiState)

  /** `ServoConfig::servo`: a servo with reset internal state. */
  function BuildServo(c: Config): Servo {
    match c
    case SteppingConfig => Stepping
    case PiServoConfig(config) => Pi(config, FreshPi(config))
  }

  function Feed(s: Servo, x: ServoSample): Fed<Servo> {
    match s
    case Stepping => var fed := SteppingFeed(x); Fed(Stepping, fed.verdict, fed.action)
    case Pi(c, pi) => var fed := PiFeed(c, pi, x); Fed(Pi(c, fed.servo), fed.verdict, fed.action)
  }

  // ----- The mutable servo

  /** The clock a servo disciplines, as the log of what was done to it. */
  class DisciplinedClock {
    var actions: seq<ClockAction>

    constructor ()
      ensures actions == []
    {
      actions := [];
    }

    method Perform(action: ClockAction)
      modifies this
      ensures actions == old(actions) + [action]
    {
      actions := actions + [action];
    }
  }

  function Performed(action: Option<ClockAction>): seq<ClockAction> {
    if action.Some? then [action.value] else []
  }

  class PiServo {
    const config: PiConfig
    var initial: Option<Threshold>
    var baseline: Option<ServoSample>
    var integral: real
    var state: ServoState

    function Value(): PiState
      reads this
    {
      PiState(initial, baseline, integral, state)
    }

    constructor (config: PiConfig)
      ensures this.config == config && Value() == FreshPi(config)
    {
      this.config := config;
      initial, baseline, integral, state := Some(config.firstStep), None, 0.0, Unlocked;
    }

    /** Takes the initial threshold, whether or not it is exceeded. */
    method ShouldStep(x: ServoSample) returns (target: Option<TimeStamp>)
      modifies this`initial
      ensures target == StepTarget(config, old(initial), x)
      ensures initial == None
    {
      var taken := initial;
      initial := None;
      if taken.Some? && Exceeds(taken.value, x) {
        return MasterEstimate(x);
      }
      if Exceeds(config.step, x) {
        target := MasterEstimate(x);
      } else {
        target := None;
      }
    }

    /** A drift estimate leaves the new sample as baseline; an out-of-order one drops the baseline. */
    method Estimate(x: ServoSample) returns (drift: Option<real>)
      modifies this`baseline
      ensures old(baseline).None? ==> drift == None && baseline == Some(x)
      ensures old(baseline).Some? ==>
                match DriftBetween(x, old(baseline).value, config.minDelta)
                case InOrder(d) => drift == Some(Clamp(d, config.driftMin, config.driftMax)) && baseline == Some(x)
                case LowDelta => drift == None && baseline == old(baseline)
                case OutOfOrder => drift == None && baseline == None
    {
      drift := None;
      if baseline.Some? {
        match DriftBetween(x, baseline.value, config.minDelta)
        case InOrder(d) =>
          baseline := Some(x);
          drift := Some(Clamp(d, config.driftMin, config.driftMax));
        case LowDelta =>
        case OutOfOrder =>
          baseline := None;
      } else {
        baseline := Some(x);
      }
    }

    method Feed(clock: DisciplinedClock, x: ServoSample) returns (verdict: ServoState)
      modifies this, clock
      ensures var fed := PiFeed(config, old(Value()), x);
              && Value() == fed.servo
              && verdict == fed.verdict
              && clock.actions == old(clock.actions) + Performed(fed.action)
    {
      assert clock.actions + [] == clock.actions;
      var target := ShouldStep(x);
      if target.Some? {
        clock.Perform(Step(target.value));
        integral := 0.0;
        baseline := None;
        verdict := Unlocked;
      } else if state == Locked {
        var error := Seconds(x.offset);
        integral := integral + error;
        clock.Perform(Adjust(PiRate(config, error, integral)));
        verdict := Locked;
      } else {
        var drift := Estimate(x);
        if drift.Some? {
          baseline := None;
          clock.Perform(Adjust(1.0 + drift.value));
          verdict := Locked;
        } else {
          verdict := Calibrating;
        }
      }
      state := verdict;
    }
  }
}
