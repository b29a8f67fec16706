/** The clock-discipline pipeline of a slave-like port: delay mechanism into servo. */
module Discipline {
  import opened Base
  import opened Clock
  import opened Delay
  import opened Servo
  import opened Time

  datatype Pipeline = Pipeline(mechanism: Mechanism, servo: Servo)

  datatype Absorbed = Absorbed(pipeline: Pipeline, verdict: Option<ServoState>, action: Option<ClockAction>)

  function FreshPipeline(c: Config): Pipeline {
    Pipeline(FRESH, BuildServo(c))
  }

  /** A one-step Sync and a FollowUp are the two messages after which a port asks for a sample. */
  function SampleAfter(m: Mechanism, f: Fragment): Option<ServoSample> {
    if f.GotOneStep? || f.GotFollowUp? then SampleOf(Recorded(m, f)) else None
  }

  /** Record a fragment and, if that completes a sample, feed it to the servo. */
  function Absorb(p: Pipeline, f: Fragment): Absorbed {
    var m := Recorded(p.mechanism, f);
    match SampleAfter(p.mechanism, f)
    case None => Absorbed(Pipeline(m, p.servo), None, None)
    case Some(x) =>
      var fed := Feed(p.servo, x);
      Absorbed(Pipeline(m, fed.servo), Some(fed.verdict), fed.action)
  }

  // ----- The pipeline as a function of everything absorbed since it was built

  /** The pipeline and the servo's last verdict, if it gave one. */
  datatype Replayed = Replayed(pipeline: Pipeline, verdict: Option<ServoState>)

  function Replay(c: Config, log: seq<Fragment>): Replayed {
    if log == [] then Replayed(FreshPipeline(c), None)
    else
      var r := Replay(c, log[..|log| - 1]);
      var a := Absorb(r.pipeline, log[|log| - 1]);
      Replayed(a.pipeline, if a.verdict.Some? then a.verdict else r.verdict)
  }

  lemma ReplayAppend(c: Config, log: seq<Fragment>, f: Fragment)
    ensures Replay(c, log + [f]) ==
            var r := Replay(c, log);
            var a := Absorb(r.pipeline, f);
            Replayed(a.pipeline, if a.verdict.Some? then a.verdict else r.verdict)
  {
    assert (log + [f])[..|log|] == log;
  }

  lemma {:induction false} ReplayRecords(c: Config, log: seq<Fragment>)
    ensures Replay(c, log).pipeline.mechanism == RecordedAll(log)
  {
    if log != [] {
      ReplayRecords(c, log[..|log| - 1]);
    }
  }

  /** The samples the servo was fed, read off the log: one for each one-step Sync or FollowUp at which
  the latest Sync and the latest delay exchange are both complete. */
  function FedSamples(log: seq<Fragment>): seq<ServoSample> {
    if log == [] then []
    else
      var before, f := FedSamples(log[..|log| - 1]), log[|log| - 1];
      if (f.GotOneStep? || f.GotFollowUp?) && SyncPair(log).Some? && DelayPair(log).Some? then
        var (t1, t2) := SyncPair(log).value;
        var (t3, t4) := DelayPair(log).value;
        before + [Sample(t2, Offset(t1, t2, t3, t4))]
      else before
  }

  /** What absorbing the next fragment feeds is the next sample read off the log. */
  lemma NextSample(log: seq<Fragment>)
    requires log != []
    ensures var init, f := log[..|log| - 1], log[|log| - 1];
            FedSamples(log) ==
              match SampleAfter(RecordedAll(init), f)
              case None => FedSamples(init)
              case Some(x) => FedSamples(init) + [x]
  {
    SampleIsCoherent(log);
  }

  /** The state and the verdict a fresh PI servo has after the samples `xs`. */
  function PiAfter(c: PiConfig, xs: seq<ServoSample>): (PiState, Option<ServoState>) {
    var t := Trace(c, xs);
    if t == [] then (FreshPi(c), None) else (t[|t| - 1].fed.servo, Some(t[|t| - 1].fed.verdict))
  }

  lemma PiAfterNext(c: PiConfig, xs: seq<ServoSample>, x: ServoSample)
    ensures var fed := PiFeed(c, PiAfter(c, xs).0, x);
            PiAfter(c, xs + [x]) == (fed.servo, Some(fed.verdict))
  {
    assert (xs + [x])[..|xs|] == xs;
  }

  /** A PI servo inside a port has run over exactly the samples drawn from the fragments, so the run
  theorems of the servo apply to it. */
  lemma {:induction false} ServoRunsOverSamples(c: PiConfig, log: seq<Fragment>)
    ensures var r, after := Replay(PiServoConfig(c), log), PiAfter(c, FedSamples(log));
            r.pipeline.servo == Pi(c, after.0) && r.verdict == after.1
  {
    if log != [] {
      var init, f := log[..|log| - 1], log[|log| - 1];
      ServoRunsOverSamples(c, init);
      ReplayRecords(PiServoConfig(c), init);
      NextSample(log);
      var x := SampleAfter(RecordedAll(init), f);
      if x.Some? {
        PiAfterNext(c, FedSamples(init), x.value);
      }
    }
  }

  /** A stepping servo inside a port keeps no state, and its verdict is Locked exactly when the master
  time of the last sample was representable. */
  lemma {:induction false} SteppingServoFollowsLastSample(log: seq<Fragment>)
    ensures var r, xs := Replay(SteppingConfig, log), FedSamples(log);
            && r.pipeline.servo == Stepping
            && r.verdict ==
                 if xs == [] then None
                 else
                   var x := xs[|xs| - 1];
                   Some(if 0 <= StampNanos(x.ingress) - TotalNanos(x.offset) < MAX_NANOS_EXCL then Locked else Unlocked)
  {
    if log != [] {
      SteppingServoFollowsLastSample(log[..|log| - 1]);
      ReplayRecords(SteppingConfig, log[..|log| - 1]);
      NextSample(log);
    }
  }

  /** The sender of a received fragment. */
  function Sender(f: Fragment): Option<PortIdentity> {
    match f
    case GotOneStep(_, from) => Some(from)
    case GotTwoStep(_, from) => Some(from)
    case GotFollowUp(_, from) => Some(from)
    case GotResponse(_, from) => Some(from)
    case _ => None
  }

  /** Every received fragment came from `parent`. */
  predicate AllFrom(log: seq<Fragment>, parent: PortIdentity) {
    forall i :: 0 <= i < |log| ==> Sender(log[i]) == None || Sender(log[i]) == Some(parent)
  }
}
