/** What holds over every run of a measurement session. */
module SessionLaws {
  import opened Session

  // --------------------------------------------------------------------------
  // Terminal states and stale replies
  // --------------------------------------------------------------------------

  /** Whatever happens to a finished session, its state stays and no callback is called. */
  lemma {:induction false} TerminalAbsorbs(s: Session, e: Event)
    requires Terminal(s)
    ensures Step(s, e).phase == s.phase && Step(s, e).fired == s.fired
  {
  }

  /** A reply of the wrong kind for the phase, unparsable, or with another probe's id changes nothing. */
  lemma {:induction false} StaleChangesNothing(s: Session, e: Event)
    requires e.LatencyReply? || e.BandwidthReply? || e.FlopsReply?
    requires !e.parsed || e.id != s.inFlight
             || s.phase != (if e.LatencyReply? then LatPending else if e.BandwidthReply? then BwPending
                else FlopsPending)
    ensures Step(s, e) == s
  {
  }

  lemma {:induction false} IdsGrow(cfg: Config, es: seq<Event>, n: nat)
    requires n <= |es|
    ensures Grew(Run(cfg, es[..n]), Run(cfg, es))
  {
    var last := |es| - 1;
    if n <= last {
      IdsGrow(cfg, es[..last], n);
      assert es[..last][..n] == es[..n];
      GrewTwice(Run(cfg, es[..n]), Run(cfg, es[..last]), Run(cfg, es));
    } else {
      assert es[..n] == es;
    }
  }

  lemma {:induction false} GrewTwice(s: Session, t: Session, u: Session)
    requires Grew(s, t) && Grew(t, u)
    ensures Grew(s, u)
  {
  }

  /** A late reply, to a probe of an earlier phase, carries another id than the probe in flight and changes nothing. */
  lemma {:induction false} LateReplyIsStale(cfg: Config, es: seq<Event>, n: nat, e: Event)
    requires n <= |es| && Pending(Run(cfg, es[..n])) && Pending(Run(cfg, es))
    requires Run(cfg, es).phase != Run(cfg, es[..n]).phase
    requires e.LatencyReply? || e.BandwidthReply? || e.FlopsReply?
    requires e.id == Run(cfg, es[..n]).inFlight
    ensures Step(Run(cfg, es), e) == Run(cfg, es)
  {
    IdsGrow(cfg, es, n);
    RunGood(cfg, es);
    RunGood(cfg, es[..n]);
    StaleChangesNothing(Run(cfg, es), e);
  }

  // --------------------------------------------------------------------------
  // The invariant
  // --------------------------------------------------------------------------

  lemma {:induction false} LaunchGood(s: Session, phase: Phase, ok: bool)
    requires phase == LatPending || phase == BwPending
    requires Asked(s.cfg, phase) && s.fired == [] && !s.refOutstanding && s.stashed.None?
             && (s.refReady ==> s.ref.Some?)
    ensures Good(Sent(NextProbe(s, phase), ok), Before(s.cfg, phase))
  {
  }

  /** A session waiting for the FLOPS reply, before the timer is armed. */
  predicate Waiting(s: Session) {
    && s.cfg.flops && s.phase == FlopsPending && s.fired == [] && s.inFlight == s.probeSeq
    && s.stashed.None? && (s.refReady ==> s.ref.Some?) && s.refOutstanding == !s.refReady
  }

  lemma {:induction false} WaitingGood(s: Session, ok: bool)
    requires Waiting(s)
    ensures Good(Sent(s, ok), Before(s.cfg, FlopsPending))
  {
  }

  lemma {:induction false} LaunchFlopsGood(s: Session, env: Env)
    requires s.cfg.flops && s.fired == []
    ensures Good(StartFlopsProbe(s, env), Before(s.cfg, FlopsPending))
  {
    var s1 := AskReference(s, env);
    if s1.phase != Failed {
      WaitingGood(s1, env.sendOk);
    }
  }

  lemma {:induction false} FirstProbeGood(s: Session, env: Env)
    requires s.fired == [] && !s.refOutstanding && s.stashed.None? && (s.refReady ==> s.ref.Some?)
    ensures s.cfg.latency ==> Good(StartLatencyProbe(s, env), [])
    ensures !s.cfg.latency && s.cfg.bandwidth ==> Good(StartBandwidthProbe(s, env), [])
    ensures !s.cfg.latency && !s.cfg.bandwidth && s.cfg.flops ==> Good(StartFlopsProbe(s, env), [])
  {
    if s.cfg.latency {
      LaunchGood(s, LatPending, env.sendOk);
    } else if s.cfg.bandwidth {
      LaunchGood(s, BwPending, env.sendOk);
    } else if s.cfg.flops {
      LaunchFlopsGood(s, env);
    }
  }

  lemma {:induction false} StartGood(s: Session, answered: seq<Probe>, onDone: Option<nat>, env: Env)
    requires Good(s, answered)
    ensures Good(OnStart(s, onDone, env), answered)
  {
    var s1 := s.(onDone := onDone);
    if s.phase == Idle {
      FirstProbeGood(s1, env);
    }
  }

  lemma {:induction false} CompleteGood(s: Session)
    requires !s.cfg.flops && s.fired == [] && !s.refOutstanding && (s.refReady ==> s.ref.Some?)
    requires s.cfg.latency || s.cfg.bandwidth
    ensures Good(Complete(s), Enabled(s.cfg))
  {
  }

  lemma {:induction false} LatencyGood(s: Session, answered: seq<Probe>, id: nat, rtt: nat, env: Env)
    requires Good(s, answered) && s.phase == LatPending && id == s.inFlight
    ensures Good(OnLatencyReply(s, true, id, rtt, env), answered + [Latency])
  {
    var s1 := CancelTimer(s).(lat := rtt / 2, profile := s.profile.(lat := rtt / 2));
    assert answered == [];
    if s.cfg.bandwidth {
      LaunchGood(s1, BwPending, env.sendOk);
    } else if s.cfg.flops {
      LaunchFlopsGood(s1, env);
    } else {
      CompleteGood(s1);
    }
  }

  lemma {:induction false} AfterBandwidth(s: Session, answered: seq<Probe>, env: Env)
    requires s.cfg.bandwidth && answered == Before(s.cfg, BwPending)
    requires s.fired == [] && !s.refOutstanding && (s.refReady ==> s.ref.Some?)
    ensures Good(if s.cfg.flops then StartFlopsProbe(s, env) else Complete(s), answered + [Bandwidth])
  {
    if s.cfg.flops {
      assert answered + [Bandwidth] == Before(s.cfg, FlopsPending);
      LaunchFlopsGood(s, env);
    } else {
      assert answered + [Bandwidth] == Enabled(s.cfg);
      CompleteGood(s);
    }
  }

  lemma {:induction false} BandwidthGood(s: Session, answered: seq<Probe>, id: nat, rtt: nat, env: Env)
    requires Good(s, answered) && s.phase == BwPending && id == s.inFlight
    ensures Good(OnBandwidthReply(s, true, id, rtt, env), answered + [Bandwidth])
  {
    var bps := Truncate(s.cfg.payload as real / Seconds(Net(rtt, s.lat)));
    var s1 := CancelTimer(s).(profile := s.profile.(ulBw := bps, dlBw := bps));
    AfterBandwidth(s1, answered, env);
  }

  lemma {:induction false} FlopsGood(s: Session, answered: seq<Probe>, id: nat, rtt: nat, c: seq<Float>)
    requires Good(s, answered) && s.phase == FlopsPending && id == s.inFlight
    ensures Good(OnFlopsReply(s, true, id, rtt, c), answered + (if s.stashed.None? then [Flops] else []))
  {
    var s1 := CancelTimer(s).(elapsed := Seconds(Net(rtt, s.lat)));
    var answered' := answered + (if s.stashed.None? then [Flops] else []);
    assert answered' == Enabled(s.cfg);
    if |c| == s.cfg.dim * s.cfg.dim && s.refReady {
      ConcludeGood(s1, s.ref.value, c);
    }
  }

  lemma {:induction false} ConcludeGood(s: Session, expected: seq<Float>, got: seq<Float>)
    requires s.cfg.flops && s.phase == FlopsPending && s.fired == [] && !s.refOutstanding
             && (s.refReady ==> s.ref.Some?)
    ensures Good(Conclude(s, expected, got), Enabled(s.cfg))
  {
  }

  lemma {:induction false} ReferenceGood(s: Session, answered: seq<Probe>, result: Option<seq<Float>>)
    requires Good(s, answered) && s.refOutstanding
    ensures Good(OnReference(s, result), answered)
  {
    if s.phase == FlopsPending && s.stashed.Some? && result.Some? {
      assert answered == Enabled(s.cfg);
      ConcludeGood(s.(refOutstanding := false, ref := result, refReady := true, stashed := None), result.value,
        s.stashed.value);
    }
  }

  lemma {:induction false} StepGood(s: Session, answered: seq<Probe>, e: Event)
    requires Good(s, answered)
    ensures Good(Step(s, e), answered + Answers(s, e))
  {
    assert answered + [] == answered;
    match e
    case Start(onDone, env) => StartGood(s, answered, onDone, env);
    case LatencyReply(parsed, id, rtt, env) =>
      if s.phase == LatPending && parsed && id == s.inFlight {
        LatencyGood(s, answered, id, rtt, env);
      }
    case BandwidthReply(parsed, id, rtt, env) =>
      if s.phase == BwPending && parsed && id == s.inFlight {
        BandwidthGood(s, answered, id, rtt, env);
      }
    case FlopsReply(parsed, id, rtt, c) =>
      if s.phase == FlopsPending && parsed && id == s.inFlight {
        FlopsGood(s, answered, id, rtt, c);
      }
    case Reference(result) =>
      if s.refOutstanding {
        ReferenceGood(s, answered, result);
      }
    case Timeout =>
  }

  lemma {:induction false} RunGood(cfg: Config, es: seq<Event>)
    ensures Run(cfg, es).cfg == cfg && Good(Run(cfg, es), Answered(cfg, es))
  {
    if es != [] {
      var n := |es| - 1;
      RunGood(cfg, es[..n]);
      StepGood(Run(cfg, es[..n]), Answered(cfg, es[..n]), es[n]);
    }
  }

  lemma {:induction false} StartCalled(s: Session, answered: seq<Probe>, onDone: Option<nat>, env: Env)
    requires Good(s, answered) && Called(s) && onDone.Some?
    ensures Called(OnStart(s, onDone, env))
  {
    var s1 := s.(onDone := onDone);
    assert s.phase == Idle && s.cfg.latency ==> Passed(NextProbe(s1, LatPending), OnStart(s, onDone, env));
  }

  lemma {:induction false} ReplyCalled(s: Session, answered: seq<Probe>, e: Event)
    requires Good(s, answered) && Called(s) && Pending(s)
    requires e.LatencyReply? || e.BandwidthReply?
    ensures Called(Step(s, e))
  {
  }

  lemma {:induction false} StepCalled(s: Session, answered: seq<Probe>, e: Event)
    requires Good(s, answered) && Called(s) && (e.Start? ==> e.onDone.Some?)
    ensures Called(Step(s, e))
  {
    if Terminal(s) {
      TerminalAbsorbs(s, e);
    } else if e.Start? {
      StartCalled(s, answered, e.onDone, e.env);
    } else if Pending(s) && (e.LatencyReply? || e.BandwidthReply?) {
      ReplyCalled(s, answered, e);
    }
  }

  lemma {:induction false} RunCalled(cfg: Config, es: seq<Event>)
    requires forall i | 0 <= i < |es| && es[i].Start? :: es[i].onDone.Some?
    ensures Called(Run(cfg, es))
  {
    if es != [] {
      var n := |es| - 1;
      RunCalled(cfg, es[..n]);
      RunGood(cfg, es[..n]);
      StepCalled(Run(cfg, es[..n]), Answered(cfg, es[..n]), es[n]);
    }
  }

  // --------------------------------------------------------------------------
  // What a run promises
  // --------------------------------------------------------------------------

  /** Over a whole session at most one callback is called, once, and only in a terminal state. */
  lemma {:induction false} CallbackAtMostOnce(cfg: Config, es: seq<Event>)
    ensures |Run(cfg, es).fired| <= 1
    ensures Run(cfg, es).fired != [] ==> Terminal(Run(cfg, es))
  {
    RunGood(cfg, es);
  }

  /**
   In a terminal state the callback has been called exactly once, except exactly when a
   sequence without FLOPS ended well: then it is never called.
   */
  lemma {:induction false} CallbackExactlyOnce(cfg: Config, es: seq<Event>)
    requires forall i | 0 <= i < |es| && es[i].Start? :: es[i].onDone.Some?
    requires Terminal(Run(cfg, es))
    ensures |Run(cfg, es).fired| == (if Silent(cfg, Run(cfg, es).phase) then 0 else 1)
    ensures cfg.flops ==> |Run(cfg, es).fired| == 1
  {
    RunGood(cfg, es);
    RunCalled(cfg, es);
  }

  /** Success means that every enabled probe was answered, in order, and the FLOPS answer was verified. */
  lemma {:induction false} DoneMeansAnswered(cfg: Config, es: seq<Event>)
    ensures Run(cfg, es).phase == Done ==>
              Answered(cfg, es) == Enabled(cfg)
              && (cfg.flops ==> Run(cfg, es).profile.verified)
    ensures Run(cfg, es).fired != [] ==>
              Run(cfg, es).fired[0].ok == (Run(cfg, es).phase == Done)
              && (Run(cfg, es).fired[0].ok && cfg.flops ==> Run(cfg, es).fired[0].profile.verified)
  {
    RunGood(cfg, es);
  }

  /** A waiting session has its timer armed, unless it holds a reply and waits for the reference product alone. */
  lemma {:induction false} TimerOrReference(cfg: Config, es: seq<Event>)
    requires cfg.timed && Pending(Run(cfg, es))
    ensures Run(cfg, es).timerArmed
            || (Run(cfg, es).phase == FlopsPending && Run(cfg, es).stashed.Some? && Run(cfg, es).refOutstanding)
  {
    RunGood(cfg, es);
  }

  // --------------------------------------------------------------------------
  // Reference first or reply first
  // --------------------------------------------------------------------------

  /** Two sessions nobody can tell apart from now on. */
  predicate Same(s: Session, t: Session) {
    s == t
    || (Terminal(s) && s.phase == t.phase && s.profile == t.profile && s.fired == t.fired && s.cfg == t.cfg
        && !s.refOutstanding && !t.refOutstanding)
  }

  lemma {:induction false} SameStep(s: Session, t: Session, e: Event)
    requires Same(s, t)
    ensures Same(Step(s, e), Step(t, e))
  {
  }

  function RunFrom(s: Session, es: seq<Event>): Session {
    if es == [] then s else Step(RunFrom(s, es[..|es| - 1]), es[|es| - 1])
  }

  lemma {:induction false} SameRun(s: Session, t: Session, es: seq<Event>)
    requires Same(s, t)
    ensures Same(RunFrom(s, es), RunFrom(t, es))
  {
    if es != [] {
      SameRun(s, t, es[..|es| - 1]);
      SameStep(RunFrom(s, es[..|es| - 1]), RunFrom(t, es[..|es| - 1]), es[|es| - 1]);
    }
  }

  lemma {:induction false} EitherOrderVerified(s: Session, expected: seq<Float>, rtt: nat, c: seq<Float>)
    requires s.phase == FlopsPending && s.stashed.None? && s.refOutstanding && |c| == s.cfg.dim * s.cfg.dim
    ensures OnFlopsReply(OnReference(s, Some(expected)), true, s.inFlight, rtt, c)
            == Conclude(s.(timerArmed := false, elapsed := Seconds(Net(rtt, s.lat)), refOutstanding := false,
                           ref := Some(expected), refReady := true), expected, c)
    ensures !s.refReady ==>
              OnReference(OnFlopsReply(s, true, s.inFlight, rtt, c), Some(expected))
              == Conclude(s.(timerArmed := false, elapsed := Seconds(Net(rtt, s.lat)), refOutstanding := false,
                             ref := Some(expected), refReady := true), expected, c)
  {
  }

  lemma {:induction false} EitherOrderAnswer(s: Session, result: Option<seq<Float>>, rtt: nat, c: seq<Float>)
    requires s.phase == FlopsPending && s.stashed.None? && s.refOutstanding && !s.refReady
    ensures Same(OnFlopsReply(OnReference(s, result), true, s.inFlight, rtt, c),
                 OnReference(OnFlopsReply(s, true, s.inFlight, rtt, c), result))
  {
    if result.Some? && |c| == s.cfg.dim * s.cfg.dim {
      EitherOrderVerified(s, result.value, rtt, c);
    }
  }

  lemma {:induction false} EitherOrder(s: Session, answered: seq<Probe>, result: Option<seq<Float>>, reply: Event)
    requires Good(s, answered) && reply.FlopsReply?
    requires s.phase == FlopsPending ==> s.stashed.None?
    ensures Same(Step(Step(s, Reference(result)), reply), Step(Step(s, reply), Reference(result)))
  {
    if s.phase == FlopsPending && s.refOutstanding && reply.parsed && reply.id == s.inFlight {
      EitherOrderAnswer(s, result, reply.rtt, reply.c);
    } else if s.refOutstanding {
      StaleChangesNothing(s, reply);
      StaleChangesNothing(Step(s, Reference(result)), reply);
    }
  }

  /** No matter what the reference and the reply are, their order does not show. */
  ghost predicate OrderIrrelevant(s: Session) {
    forall result: Option<seq<Float>>, reply: Event | reply.FlopsReply? ::
      Same(Step(Step(s, Reference(result)), reply), Step(Step(s, reply), Reference(result)))
  }

  /** A second reply, of the wrong size, decides the outcome when it overtakes the reference. */
  lemma {:induction false} SecondReplyMatters(s: Session, answered: seq<Probe>, held: seq<Float>)
    requires Good(s, answered) && s.phase == FlopsPending && s.stashed == Some(held) && s.cfg.tolerance >= 0.0
    ensures var reply := FlopsReply(true, s.inFlight, 0, seq(s.cfg.dim * s.cfg.dim + 1, _ => Num(0.0)));
            Step(Step(s, Reference(Some(held))), reply).phase == Done
            && Step(Step(s, reply), Reference(Some(held))).phase == Failed
  {
    assert AllPass(held, held, s.cfg.tolerance);
  }

  lemma {:induction false} WithoutReplyIrrelevant(s: Session, answered: seq<Probe>)
    requires Good(s, answered) && (s.phase == FlopsPending ==> s.stashed.None?)
    ensures OrderIrrelevant(s)
  {
    forall result: Option<seq<Float>>, reply: Event | reply.FlopsReply?
      ensures Same(Step(Step(s, Reference(result)), reply), Step(Step(s, reply), Reference(result)))
    {
      EitherOrder(s, answered, result, reply);
    }
  }

  lemma {:induction false} DifferentPhases(s: Session, result: Option<seq<Float>>, reply: Event)
    requires reply.FlopsReply?
    requires Step(Step(s, Reference(result)), reply).phase != Step(Step(s, reply), Reference(result)).phase
    ensures !OrderIrrelevant(s)
  {
  }

  lemma {:induction false} OrderExactly(s: Session, answered: seq<Probe>)
    requires Good(s, answered) && s.cfg.tolerance >= 0.0
    ensures OrderIrrelevant(s) <==> !(s.phase == FlopsPending && s.stashed.Some?)
  {
    if s.phase == FlopsPending && s.stashed.Some? {
      SecondReplyMatters(s, answered, s.stashed.value);
      DifferentPhases(s, s.stashed, FlopsReply(true, s.inFlight, 0, seq(s.cfg.dim * s.cfg.dim + 1, _ => Num(0.0))));
    } else {
      WithoutReplyIrrelevant(s, answered);
    }
  }

  /** The order does not show exactly when the session does not already hold a reply. */
  lemma {:induction false} OrderIrrelevantExactly(cfg: Config, es: seq<Event>)
    requires cfg.tolerance >= 0.0
    ensures OrderIrrelevant(Run(cfg, es)) <==> !(Run(cfg, es).phase == FlopsPending && Run(cfg, es).stashed.Some?)
  {
    RunGood(cfg, es);
    OrderExactly(Run(cfg, es), Answered(cfg, es));
  }

  /** Reference first or reply first: every continuation ends in the same state, profile and callbacks. */
  lemma {:induction false} OrderDoesNotShow(cfg: Config, es: seq<Event>, result: Option<seq<Float>>, reply: Event,
                                            rest: seq<Event>)
    requires reply.FlopsReply? && !(Run(cfg, es).phase == FlopsPending && Run(cfg, es).stashed.Some?)
    ensures var s := Run(cfg, es);
            Same(RunFrom(Step(Step(s, Reference(result)), reply), rest),
              RunFrom(Step(Step(s, reply), Reference(result)), rest))
  {
    RunGood(cfg, es);
    var s := Run(cfg, es);
    EitherOrder(s, Answered(cfg, es), result, reply);
    SameRun(Step(Step(s, Reference(result)), reply), Step(Step(s, reply), Reference(result)), rest);
  }

  // --------------------------------------------------------------------------
  // What a verified product is
  // --------------------------------------------------------------------------

  ghost predicate AllNumbers(c: seq<Float>) {
    forall i | 0 <= i < |c| :: c[i].Num?
  }

  /**
   Against a reference of numbers, a product passes if and only if it has the size of the
   reference and each entry is a number close to the reference's or a NaN.
   */
  lemma {:induction false} VerifiedExactly(expected: seq<Float>, got: seq<Float>, tolerance: real)
    requires AllNumbers(expected)
    ensures AllPass(expected, got, tolerance)
       <==> && |expected| == |got|
            && forall i | 0 <= i < |got| ::
                 got[i].NaN? || (got[i].Num? && Close(expected[i].value, got[i].value, tolerance))
  {
    forall i | 0 <= i < |expected| && i < |got|
      ensures !Exceeds(expected[i], got[i], tolerance)
         <==> got[i].NaN? || (got[i].Num? && Close(expected[i].value, got[i].value, tolerance))
    {
      assert expected[i].Num?;
    }
  }

  /** A reply of NaNs is verified whatever the reference is. */
  lemma {:induction false} NaNsPass(s: Session, answered: seq<Probe>, expected: seq<Float>, rtt: nat)
    requires Good(s, answered) && s.phase == FlopsPending && s.refReady && s.ref == Some(expected)
    requires |expected| == s.cfg.dim * s.cfg.dim
    ensures Step(s, FlopsReply(true, s.inFlight, rtt, seq(|expected|, _ => NaN))).phase == Done
  {
    var got := seq(|expected|, _ => NaN);
    assert AllPass(expected, got, s.cfg.tolerance);
  }
}
