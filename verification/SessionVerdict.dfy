/** What a measurement session decides and reports, from the events alone. */
module SessionVerdict {
  import opened Session
  import opened SessionLaws

  // --------------------------------------------------------------------------
  // The verdict on a product
  // --------------------------------------------------------------------------

  /**
   An entry y is accepted for the reference entry x: one of them is a NaN, or they are numbers no further apart
   than the tolerance taken once and once times |x|, or x is infinite, when only a negative tolerance refuses.
   */
  predicate Accepted(x: Float, y: Float, tolerance: real) {
    || x.NaN? || y.NaN?
    || (x.Infinite? && (tolerance >= 0.0 || x == y))
    || (x.Num? && y.Num?
        && var slack := tolerance + tolerance * (if x.value >= 0.0 then x.value else -x.value);
           y.value - slack <= x.value <= y.value + slack)
  }

  ghost predicate Agrees(reference: seq<Float>, product: seq<Float>, tolerance: real) {
    |reference| == |product| && forall i | 0 <= i < |reference| :: Accepted(reference[i], product[i], tolerance)
  }

  datatype Pair = Pair(reference: seq<Float>, product: seq<Float>)

  /**
   The reference and the product that an event brings together: a reply to a reference that is
   there, or the reverse.
   */
  function Compared(s: Session, e: Event): Option<Pair> {
    if s.phase != FlopsPending then None
    else if e.FlopsReply? && e.parsed && e.id == s.inFlight && |e.c| == s.cfg.dim * s.cfg.dim && s.refReady
            && s.ref.Some? then
      Some(Pair(s.ref.value, e.c))
    else if e.Reference? && s.refOutstanding && e.result.Some? && s.stashed.Some? then
      Some(Pair(e.result.value, s.stashed.value))
    else None
  }

  lemma {:induction false} AgreesIsAllPass(reference: seq<Float>, product: seq<Float>, tolerance: real)
    ensures AllPass(reference, product, tolerance) <==> Agrees(reference, product, tolerance)
  {
    forall i | 0 <= i < |reference| && i < |product|
      ensures !Exceeds(reference[i], product[i], tolerance) <==> Accepted(reference[i], product[i], tolerance)
    {
    }
  }

  /** Where the products meet the session ends: well, and verified, exactly if every entry is accepted. */
  lemma {:induction false} VerdictExactly(cfg: Config, es: seq<Event>, e: Event, pair: Pair)
    requires Compared(Run(cfg, es), e) == Some(pair)
    ensures var s, s' := Run(cfg, es), Run(cfg, es + [e]);
            var ok := Agrees(pair.reference, pair.product, cfg.tolerance);
            && s'.phase == (if ok then Done else Failed)
            && s'.profile.verified == ok
            && (s.onDone.Some? ==> s'.fired == [Outcome(s.onDone.value, ok, s'.phase, s'.profile)])
  {
    RunGood(cfg, es);
    assert (es + [e])[..|es|] == es;
    AgreesIsAllPass(pair.reference, pair.product, cfg.tolerance);
  }

  /** A reply of another size fails the session, whatever the reference. */
  lemma {:induction false} WrongSizeFails(cfg: Config, es: seq<Event>, e: Event)
    requires Run(cfg, es).phase == FlopsPending && e.FlopsReply? && e.parsed && e.id == Run(cfg, es).inFlight
    requires |e.c| != cfg.dim * cfg.dim
    ensures Run(cfg, es + [e]).phase == Failed
  {
    RunGood(cfg, es);
    assert (es + [e])[..|es|] == es;
  }

  // --------------------------------------------------------------------------
  // Launching a probe
  // --------------------------------------------------------------------------

  /** Nothing that was measured changes. */
  predicate SameFigures(s: Session, r: Session) {
    s.lat == r.lat && s.profile == r.profile
  }

  /** A probe waits in its phase, unless the send fails, or for FLOPS the reference does at once. */
  function Launched(phase: Phase, env: Env): Phase {
    if !env.sendOk || (phase == FlopsPending && env.reference == Some(None)) then Failed else phase
  }

  lemma {:induction false} SentEffect(s: Session, ok: bool)
    requires !Terminal(s) || s.phase == Failed
    ensures var r := Sent(s, ok);
            SameFigures(s, r) && r.phase == (if ok then s.phase else Failed) && r.stashed == s.stashed
  {
  }

  lemma {:induction false} AskEffect(s: Session, env: Env)
    ensures var r := AskReference(s, env);
            && SameFigures(s, r) && r.stashed.None?
            && r.phase == (if env.reference == Some(None) then Failed else FlopsPending)
  {
  }

  lemma {:induction false} LaunchLatency(s: Session, env: Env)
    ensures var r := StartLatencyProbe(s, env); SameFigures(s, r) && r.phase == Launched(LatPending, env)
  {
    SentEffect(NextProbe(s, LatPending), env.sendOk);
  }

  lemma {:induction false} LaunchBandwidth(s: Session, env: Env)
    ensures var r := StartBandwidthProbe(s, env); SameFigures(s, r) && r.phase == Launched(BwPending, env)
  {
    SentEffect(NextProbe(s, BwPending), env.sendOk);
  }

  lemma {:induction false} LaunchFlops(s: Session, env: Env)
    ensures var r := StartFlopsProbe(s, env);
            SameFigures(s, r) && r.phase == Launched(FlopsPending, env) && r.stashed.None?
  {
    AskEffect(s, env);
    SentEffect(AskReference(s, env), env.sendOk);
  }

  /** The phase of the first probe asked for from a given one on; without any, the session is done. */
  function FirstFrom(cfg: Config, probe: Probe): Phase {
    if probe == Latency && cfg.latency then LatPending
    else if probe != Flops && cfg.bandwidth then BwPending
    else if cfg.flops then FlopsPending
    else Done
  }

  /** How an event moves a session that has not ended. */
  function NextPhase(s: Session, e: Event): Phase {
    match e
    case Start(_, env) =>
      if s.phase != Idle then Failed
      else if FirstFrom(s.cfg, Latency) == Done then Done
      else Launched(FirstFrom(s.cfg, Latency), env)
    case LatencyReply(parsed, id, _, env) =>
      if s.phase != LatPending || !parsed || id != s.inFlight then s.phase
      else if FirstFrom(s.cfg, Bandwidth) == Done then Done
      else Launched(FirstFrom(s.cfg, Bandwidth), env)
    case BandwidthReply(parsed, id, _, env) =>
      if s.phase != BwPending || !parsed || id != s.inFlight then s.phase
      else if s.cfg.flops then Launched(FlopsPending, env)
      else Done
    case _ => s.phase
  }

  /** Starts and echo replies lead to the next probe asked for, in order, or to the end; a second start fails. */
  lemma {:induction false} PhaseExactly(cfg: Config, es: seq<Event>, e: Event)
    requires !Terminal(Run(cfg, es)) && (e.Start? || e.LatencyReply? || e.BandwidthReply?)
    ensures Run(cfg, es + [e]).phase == NextPhase(Run(cfg, es), e)
  {
    assert (es + [e])[..|es|] == es;
    PhaseStep(Run(cfg, es), e);
  }

  lemma {:induction false} PhaseStep(s: Session, e: Event)
    requires !Terminal(s) && (e.Start? || e.LatencyReply? || e.BandwidthReply?)
    ensures Step(s, e).phase == NextPhase(s, e)
  {
    match e
    case Start(onDone, env) => StartStep(s, onDone, env);
    case LatencyReply(parsed, id, rtt, env) => LatencyStep(s, parsed, id, rtt, env);
    case BandwidthReply(parsed, id, rtt, env) => BandwidthStep(s, parsed, id, rtt, env);
  }

  lemma {:induction false} StartStep(s: Session, onDone: Option<nat>, env: Env)
    ensures SameFigures(s, OnStart(s, onDone, env))
    ensures !Terminal(s) ==>
              var r := OnStart(s, onDone, env);
              r.phase == NextPhase(s, Start(onDone, env)) && (r.phase == FlopsPending ==> r.stashed.None?)
  {
    var s1 := s.(onDone := onDone);
    if s.phase == Idle {
      if s.cfg.latency {
        LaunchLatency(s1, env);
      } else if s.cfg.bandwidth {
        LaunchBandwidth(s1, env);
      } else if s.cfg.flops {
        LaunchFlops(s1, env);
      }
    }
  }

  lemma {:induction false} AfterLatencyStep(s: Session, env: Env)
    ensures var r := AfterLatency(s, env);
            && SameFigures(s, r) && (r.phase == FlopsPending ==> r.stashed.None?)
            && r.phase == (var next := FirstFrom(s.cfg, Bandwidth); if next == Done then Done else Launched(next, env))
  {
    if s.cfg.bandwidth {
      LaunchBandwidth(s, env);
    } else if s.cfg.flops {
      LaunchFlops(s, env);
    }
  }

  lemma {:induction false} LatencyStep(s: Session, parsed: bool, id: nat, rtt: nat, env: Env)
    ensures var r := OnLatencyReply(s, parsed, id, rtt, env);
            if s.phase == LatPending && parsed && id == s.inFlight
            then SameFigures(s.(lat := rtt / 2, profile := s.profile.(lat := rtt / 2)), r)
                 && r.phase == NextPhase(s, LatencyReply(parsed, id, rtt, env))
                 && (r.phase == FlopsPending ==> r.stashed.None?)
            else r == s
  {
    AfterLatencyStep(CancelTimer(s).(lat := rtt / 2, profile := s.profile.(lat := rtt / 2)), env);
  }

  lemma {:induction false} BandwidthStep(s: Session, parsed: bool, id: nat, rtt: nat, env: Env)
    ensures var r := OnBandwidthReply(s, parsed, id, rtt, env);
            var bps := Truncate(s.cfg.payload as real / Seconds(Net(rtt, s.lat)));
            if s.phase == BwPending && parsed && id == s.inFlight
            then SameFigures(s.(profile := s.profile.(ulBw := bps, dlBw := bps)), r)
                 && r.phase == NextPhase(s, BandwidthReply(parsed, id, rtt, env))
                 && (r.phase == FlopsPending ==> r.stashed.None?)
            else r == s
  {
    var bps := Truncate(s.cfg.payload as real / Seconds(Net(rtt, s.lat)));
    if s.cfg.flops {
      LaunchFlops(CancelTimer(s).(profile := s.profile.(ulBw := bps, dlBw := bps)), env);
    }
  }

  /** The other events end a session exactly here: at a verdict, or failing it. */
  lemma {:induction false} EndExactly(cfg: Config, es: seq<Event>, e: Event)
    requires !Terminal(Run(cfg, es)) && (e.FlopsReply? || e.Reference? || e.Timeout?)
    ensures var s, s' := Run(cfg, es), Run(cfg, es + [e]);
            && (s'.phase == s.phase || s'.phase == Done || s'.phase == Failed)
            && (Terminal(s') <==>
                  || Compared(s, e).Some?
                  || (e.Timeout? && s.timerArmed)
                  || (e.Reference? && s.refOutstanding && e.result.None?)
                  || (e.FlopsReply? && s.phase == FlopsPending && e.parsed && e.id == s.inFlight
                      && |e.c| != cfg.dim * cfg.dim))
            && (Compared(s, e).None? ==> s'.phase != Done)
  {
    RunGood(cfg, es);
    assert (es + [e])[..|es|] == es;
  }

  lemma {:induction false} DoneStep(cfg: Config, es: seq<Event>, e: Event)
    requires cfg.flops && !Terminal(Run(cfg, es)) && Run(cfg, es + [e]).phase == Done
    ensures Compared(Run(cfg, es), e).Some?
  {
    RunGood(cfg, es);
    if e.Start? || e.LatencyReply? || e.BandwidthReply? {
      PhaseExactly(cfg, es, e);
    } else {
      EndExactly(cfg, es, e);
    }
  }

  lemma {:induction false} FirstTrue(bs: seq<bool>) returns (n: nat)
    requires bs != [] && !bs[0] && bs[|bs| - 1]
    ensures n + 1 < |bs| && !bs[n] && bs[n + 1]
  {
    n := 0;
    while !bs[n + 1]
      invariant n + 1 < |bs| && !bs[n]
      decreases |bs| - n
    {
      n := n + 1;
    }
  }

  predicate DoneAfter(cfg: Config, es: seq<Event>, n: nat)
    requires n <= |es|
  {
    Run(cfg, es[..n]).phase == Done
  }

  /** The event that ended a run well. */
  lemma {:induction false} EndingEvent(cfg: Config, es: seq<Event>) returns (n: nat)
    requires !DoneAfter(cfg, es, 0) && DoneAfter(cfg, es, |es|)
    ensures n < |es| && !DoneAfter(cfg, es, n) && DoneAfter(cfg, es, n + 1)
  {
    n := FirstTrue(seq(|es| + 1, i requires 0 <= i <= |es| => DoneAfter(cfg, es, i)));
  }

  lemma {:induction false} EndingCompares(cfg: Config, es: seq<Event>, e: Event)
    requires cfg.flops && Run(cfg, es).phase != Done && Run(cfg, es + [e]).phase == Done
    ensures Compared(Run(cfg, es), e).Some?
  {
    assert (es + [e])[..|es|] == es;
    if Run(cfg, es).phase == Failed {
      TerminalAbsorbs(Run(cfg, es), e);
    }
    DoneStep(cfg, es, e);
  }

  /** With FLOPS asked for, every run that ends well had one event where all entries were accepted. */
  lemma {:induction false} DoneMeansAccepted(cfg: Config, es: seq<Event>) returns (n: nat, pair: Pair)
    requires cfg.flops && Run(cfg, es).phase == Done
    ensures n < |es| && Compared(Run(cfg, es[..n]), es[n]) == Some(pair)
    ensures Agrees(pair.reference, pair.product, cfg.tolerance)
  {
    assert es[..0] == [] && es[..|es|] == es;
    n := EndingEvent(cfg, es);
    assert es[..n + 1] == es[..n] + [es[n]];
    EndingCompares(cfg, es[..n], es[n]);
    pair := Compared(Run(cfg, es[..n]), es[n]).value;
    VerdictExactly(cfg, es[..n], es[n], pair);
  }

  // --------------------------------------------------------------------------
  // The figures
  // --------------------------------------------------------------------------

  /** q is n / t without its fraction. */
  predicate Quotient(q: nat, n: real, t: real) {
    q as real * t <= n < (q as real + 1.0) * t
  }

  /** t seconds are the round trip less twice the latency, where that leaves anything, and no less than a nanosecond. */
  predicate Took(t: real, rtt: nat, lat: nat) {
    t * 1000000000.0 == (if rtt > 2 * lat then rtt - 2 * lat else if rtt > 0 then rtt else 1) as real
  }

  lemma {:induction false} TruncateIsQuotient(n: real, t: real)
    requires n >= 0.0 && t > 0.0
    ensures Quotient(Truncate(n / t), n, t)
  {
    Divided(n, t);
    QuotientOf(Truncate(n / t), n / t, n, t);
  }

  lemma {:induction false} QuotientOf(q: nat, x: real, n: real, t: real)
    requires x * t == n && t > 0.0 && q as real <= x < q as real + 1.0
    ensures Quotient(q, n, t)
  {
    Scaled(q as real, x, t);
    ScaledBelow(x, q as real + 1.0, t);
  }

  lemma {:induction false} Divided(n: real, t: real)
    requires n >= 0.0 && t > 0.0
    ensures n / t * t == n && n / t >= 0.0
  {
  }

  lemma {:induction false} Scaled(x: real, y: real, t: real)
    requires x <= y && t > 0.0
    ensures x * t <= y * t
  {
  }

  lemma {:induction false} ScaledBelow(x: real, y: real, t: real)
    requires x < y && t > 0.0
    ensures x * t < y * t
  {
  }

  lemma {:induction false} SecondsTook(rtt: nat, lat: nat)
    ensures Took(Seconds(Net(rtt, lat)), rtt, lat)
  {
  }

  /** The round trip of the last reply in a run that the session took for a probe. */
  function RoundTrip(cfg: Config, es: seq<Event>, probe: Probe): Option<nat> {
    if es == [] then None
    else
      var before, e := es[..|es| - 1], es[|es| - 1];
      var s := Run(cfg, before);
      if probe == Latency && e.LatencyReply? && s.phase == LatPending && e.parsed && e.id == s.inFlight then Some(e.rtt)
      else if probe == Bandwidth && e.BandwidthReply? && s.phase == BwPending && e.parsed && e.id == s.inFlight then
        Some(e.rtt)
      else if probe == Flops && e.FlopsReply? && s.phase == FlopsPending && e.parsed && e.id == s.inFlight then
        Some(e.rtt)
      else RoundTrip(cfg, before, probe)
  }

  /** The latency is half the round trip of the latency reply, if there was one. */
  predicate LatencyIs(s: Session, rtt: Option<nat>) {
    && s.lat == s.profile.lat
    && (if rtt.None? then s.lat == 0 else 2 * s.lat <= rtt.value < 2 * s.lat + 2)
  }

  /** The bandwidth, both ways, is the payload over the time of the bandwidth reply, if there was one. */
  ghost predicate BandwidthIs(s: Session, rtt: Option<nat>) {
    && s.profile.ulBw == s.profile.dlBw
    && (if rtt.None? then s.profile.ulBw == 0
        else exists t :: Took(t, rtt.value, s.lat) && Quotient(s.profile.ulBw, s.cfg.payload as real, t))
  }

  /** Before a probe's phase no reply was taken for it or for a later one. */
  ghost predicate InOrder(cfg: Config, es: seq<Event>) {
    var phase := Run(cfg, es).phase;
    && (phase == Idle || phase == LatPending ==> RoundTrip(cfg, es, Latency).None?)
    && (phase == Idle || phase == LatPending || phase == BwPending ==> RoundTrip(cfg, es, Bandwidth).None?)
  }

  lemma {:induction false} RoundTripNext(cfg: Config, es: seq<Event>, e: Event, probe: Probe)
    ensures RoundTrip(cfg, es + [e], probe)
            == (var s := Run(cfg, es);
                if probe == Latency && e.LatencyReply? && s.phase == LatPending && e.parsed && e.id == s.inFlight then
                  Some(e.rtt)
                else if probe == Bandwidth && e.BandwidthReply? && s.phase == BwPending && e.parsed
                        && e.id == s.inFlight then
                  Some(e.rtt)
                else if probe == Flops && e.FlopsReply? && s.phase == FlopsPending && e.parsed
                  && e.id == s.inFlight then
                  Some(e.rtt)
                else RoundTrip(cfg, es, probe))
  {
    assert (es + [e])[..|es|] == es;
  }

  predicate SameEcho(s: Session, r: Session) {
    r.lat == s.lat && r.profile.(flops := 0, verified := false) == s.profile.(flops := 0, verified := false)
  }

  lemma {:induction false} FlopsSameEcho(s: Session, parsed: bool, id: nat, rtt: nat, c: seq<Float>)
    ensures SameEcho(s, OnFlopsReply(s, parsed, id, rtt, c))
  {
  }

  lemma {:induction false} ReferenceSameEcho(s: Session, result: Option<seq<Float>>)
    ensures SameEcho(s, OnReference(s, result))
  {
  }

  /** The other events change no latency and no bandwidth. */
  lemma {:induction false} OtherStep(s: Session, e: Event)
    requires e.FlopsReply? || e.Reference? || e.Timeout?
    ensures SameEcho(s, Step(s, e))
  {
    match e
    case FlopsReply(parsed, id, rtt, c) => FlopsSameEcho(s, parsed, id, rtt, c);
    case Reference(result) => ReferenceSameEcho(s, result);
    case Timeout =>
  }

  /** Both, as computed. */
  predicate Echoed(s: Session, latency: Option<nat>, bandwidth: Option<nat>) {
    && s.lat == s.profile.lat == (if latency.None? then 0 else latency.value / 2)
    && s.profile.ulBw == s.profile.dlBw
       == (if bandwidth.None? then 0 else Truncate(s.cfg.payload as real / Seconds(Net(bandwidth.value, s.lat))))
  }

  lemma {:induction false} EchoStep(cfg: Config, es: seq<Event>, e: Event)
    requires Echoed(Run(cfg, es), RoundTrip(cfg, es, Latency), RoundTrip(cfg, es, Bandwidth)) && InOrder(cfg, es)
    ensures Echoed(Run(cfg, es + [e]), RoundTrip(cfg, es + [e], Latency), RoundTrip(cfg, es + [e], Bandwidth))
  {
    var s := Run(cfg, es);
    assert (es + [e])[..|es|] == es;
    RoundTripNext(cfg, es, e, Latency);
    RoundTripNext(cfg, es, e, Bandwidth);
    match e
    case Start(onDone, env) => StartStep(s, onDone, env);
    case LatencyReply(parsed, id, rtt, env) => LatencyStep(s, parsed, id, rtt, env);
    case BandwidthReply(parsed, id, rtt, env) => BandwidthStep(s, parsed, id, rtt, env);
    case _ => OtherStep(s, e);
  }

  lemma {:induction false} OrderStep(cfg: Config, es: seq<Event>, e: Event)
    requires InOrder(cfg, es)
    ensures InOrder(cfg, es + [e])
  {
    var s := Run(cfg, es);
    RunGood(cfg, es);
    assert (es + [e])[..|es|] == es;
    RoundTripNext(cfg, es, e, Latency);
    RoundTripNext(cfg, es, e, Bandwidth);
    if Terminal(s) {
      TerminalAbsorbs(s, e);
    } else if e.Start? || e.LatencyReply? || e.BandwidthReply? {
      PhaseStep(s, e);
    } else {
      EndExactly(cfg, es, e);
    }
  }

  ghost predicate EchoedSoFar(cfg: Config, es: seq<Event>) {
    Echoed(Run(cfg, es), RoundTrip(cfg, es, Latency), RoundTrip(cfg, es, Bandwidth)) && InOrder(cfg, es)
  }

  lemma {:induction false} StepEchoed(cfg: Config, es: seq<Event>, e: Event)
    requires EchoedSoFar(cfg, es)
    ensures EchoedSoFar(cfg, es + [e])
  {
    EchoStep(cfg, es, e);
    OrderStep(cfg, es, e);
  }

  lemma {:induction false} RunEchoed(cfg: Config, es: seq<Event>)
    ensures EchoedSoFar(cfg, es)
  {
    if es != [] {
      var before, e := es[..|es| - 1], es[|es| - 1];
      RunEchoed(cfg, before);
      StepEchoed(cfg, before, e);
      assert before + [e] == es;
    }
  }

  /** In every run the latency and the bandwidth are what the round trips of the replies say. */
  lemma {:induction false} EchoFigures(cfg: Config, es: seq<Event>)
    ensures LatencyIs(Run(cfg, es), RoundTrip(cfg, es, Latency))
    ensures BandwidthIs(Run(cfg, es), RoundTrip(cfg, es, Bandwidth))
  {
    RunEchoed(cfg, es);
    EchoedIs(Run(cfg, es), RoundTrip(cfg, es, Latency), RoundTrip(cfg, es, Bandwidth));
  }

  lemma {:induction false} EchoedIs(s: Session, latency: Option<nat>, bandwidth: Option<nat>)
    requires Echoed(s, latency, bandwidth)
    ensures LatencyIs(s, latency) && BandwidthIs(s, bandwidth)
  {
    if bandwidth.Some? {
      var t := Seconds(Net(bandwidth.value, s.lat));
      TruncateIsQuotient(s.cfg.payload as real, t);
      SecondsTook(bandwidth.value, s.lat);
      assert Took(t, bandwidth.value, s.lat) && Quotient(s.profile.ulBw, s.cfg.payload as real, t);
    }
  }

  // --------------------------------------------------------------------------
  // The FLOPS figure
  // --------------------------------------------------------------------------

  /** A held reply's time is kept, and a verdict's rate is that of the reply's time, as computed. */
  predicate Timed(s: Session, flops: Option<nat>) {
    && (s.phase == FlopsPending && s.stashed.Some? ==>
          flops.Some? && s.elapsed == Seconds(Net(flops.value, s.lat)))
    && (s.phase == Done && s.cfg.flops ==>
          flops.Some? && s.profile.flops == MeasuredFlops(s.cfg.dim, Seconds(Net(flops.value, s.lat))))
  }

  lemma {:induction false} EchoTimed(s: Session, e: Event, flops: Option<nat>)
    requires !Terminal(s) && (e.Start? || e.LatencyReply? || e.BandwidthReply?) && Timed(s, flops)
    ensures Timed(Step(s, e), flops)
  {
    match e
    case Start(onDone, env) => StartStep(s, onDone, env);
    case LatencyReply(parsed, id, rtt, env) => LatencyStep(s, parsed, id, rtt, env);
    case BandwidthReply(parsed, id, rtt, env) => BandwidthStep(s, parsed, id, rtt, env);
  }

  lemma {:induction false} ConcludeTimed(s: Session, reference: seq<Float>, product: seq<Float>, rtt: nat)
    requires s.phase == FlopsPending && s.elapsed == Seconds(Net(rtt, s.lat))
    ensures Timed(Conclude(s, reference, product), Some(rtt))
  {
  }

  lemma {:induction false} FlopsTimed(s: Session, parsed: bool, id: nat, rtt: nat, c: seq<Float>, flops: Option<nat>)
    requires !Terminal(s) && Timed(s, flops)
    ensures Timed(OnFlopsReply(s, parsed, id, rtt, c),
                  if s.phase == FlopsPending && parsed && id == s.inFlight then Some(rtt) else flops)
  {
    if s.phase == FlopsPending && parsed && id == s.inFlight && s.refReady && s.ref.Some? {
      ConcludeTimed(CancelTimer(s).(elapsed := Seconds(Net(rtt, s.lat))), s.ref.value, c, rtt);
    }
  }

  lemma {:induction false} ReferenceTimed(s: Session, answered: seq<Probe>, result: Option<seq<Float>>,
                                          flops: Option<nat>)
    requires Good(s, answered) && !Terminal(s) && s.refOutstanding && Timed(s, flops)
    ensures Timed(OnReference(s, result), flops)
  {
    if result.Some? && s.stashed.Some? {
      ConcludeTimed(s.(refOutstanding := false, ref := result, refReady := true, stashed := None), result.value,
        s.stashed.value, flops.value);
    }
  }

  lemma {:induction false} EndedTimed(s: Session, answered: seq<Probe>, e: Event, flops: Option<nat>)
    requires Good(s, answered) && Terminal(s) && Timed(s, flops)
    ensures Timed(Step(s, e), flops)
  {
  }

  lemma {:induction false} StepTimed(cfg: Config, es: seq<Event>, e: Event)
    requires Timed(Run(cfg, es), RoundTrip(cfg, es, Flops))
    ensures Timed(Step(Run(cfg, es), e), RoundTrip(cfg, es + [e], Flops))
  {
    RunGood(cfg, es);
    RoundTripNext(cfg, es, e, Flops);
    var s, flops := Run(cfg, es), RoundTrip(cfg, es, Flops);
    if Terminal(s) {
      EndedTimed(s, Answered(cfg, es), e, flops);
    } else {
      match e
      case FlopsReply(parsed, id, rtt, c) => FlopsTimed(s, parsed, id, rtt, c, flops);
      case Reference(result) =>
        if s.refOutstanding {
          ReferenceTimed(s, Answered(cfg, es), result, flops);
        }
      case Timeout =>
      case _ => EchoTimed(s, e, flops);
    }
  }

  lemma {:induction false} RunTimed(cfg: Config, es: seq<Event>)
    ensures Timed(Run(cfg, es), RoundTrip(cfg, es, Flops))
  {
    if es != [] {
      var before, e := es[..|es| - 1], es[|es| - 1];
      RunTimed(cfg, before);
      StepTimed(cfg, before, e);
      assert before + [e] == es;
    }
  }

  lemma {:induction false} RateIs(n: real, t: real)
    requires n >= 0.0 && t >= TINY
    ensures Quotient(Rate(n, t), n, t)
  {
    TruncateIsQuotient(n, t);
  }

  lemma {:induction false} OperationsCount(dim: nat)
    ensures Operations(dim) == (2 * dim * dim * dim) as real
    ensures Operations(dim) >= 0.0
  {
    assert (2 * dim * dim * dim) as real == 2.0 * (dim * dim * dim) as real;
    assert (dim * dim * dim) as real == (dim * dim) as real * dim as real;
  }

  /** In every run that ends well the FLOPS figure is the operations over the time of the reply that was judged. */
  lemma {:induction false} FlopsFigure(cfg: Config, es: seq<Event>)
    requires cfg.flops && Run(cfg, es).phase == Done
    ensures RoundTrip(cfg, es, Flops).Some?
    ensures exists t :: Took(t, RoundTrip(cfg, es, Flops).value, Run(cfg, es).lat)
                        && Quotient(Run(cfg, es).profile.flops, Operations(cfg.dim), t)
  {
    RunTimed(cfg, es);
    RunGood(cfg, es);
    var rtt, lat := RoundTrip(cfg, es, Flops).value, Run(cfg, es).lat;
    SecondsTook(rtt, lat);
    OperationsCount(cfg.dim);
    RateIs(Operations(cfg.dim), Seconds(Net(rtt, lat)));
  }

  // --------------------------------------------------------------------------
  // Which callback is called
  // --------------------------------------------------------------------------

  /** The callback given to the last start. */
  function LastGiven(es: seq<Event>): Option<nat> {
    if es == [] then None
    else if es[|es| - 1].Start? then es[|es| - 1].onDone
    else LastGiven(es[..|es| - 1])
  }

  /** The callback is held on to, or the session ended and this one was called, if any, with the outcome. */
  predicate Carried(s: Session, r: Session, given: Option<nat>) {
    && (!Terminal(r) ==> r.onDone == given && r.fired == s.fired)
    && (r.fired == s.fired
        || (Terminal(r) && given.Some?
            && r.fired == s.fired + [Outcome(given.value, r.phase == Done, r.phase, r.profile)]))
  }

  lemma {:induction false} FinishCarries(s: Session, ok: bool)
    requires !Terminal(s)
    ensures Carried(s, Finish(s, ok), s.onDone)
  {
  }

  lemma {:induction false} SentCarries(s0: Session, s: Session, ok: bool)
    requires Carried(s0, s, s0.onDone) && s.phase != Done
    ensures Carried(s0, Sent(s, ok), s0.onDone)
  {
    if !Terminal(s) && !ok {
      FinishCarries(CancelTimer(ArmTimer(s)), false);
    }
  }

  lemma {:induction false} AskCarries(s: Session, env: Env)
    requires !Terminal(s)
    ensures Carried(s, AskReference(s, env), s.onDone)
  {
  }

  lemma {:induction false} ProbeCarries(s: Session, env: Env)
    requires !Terminal(s)
    ensures Carried(s, StartLatencyProbe(s, env), s.onDone) && Carried(s, StartBandwidthProbe(s, env), s.onDone)
    ensures Carried(s, StartFlopsProbe(s, env), s.onDone)
  {
    SentCarries(s, NextProbe(s, LatPending), env.sendOk);
    SentCarries(s, NextProbe(s, BwPending), env.sendOk);
    AskEffect(s, env);
    AskCarries(s, env);
    SentCarries(s, AskReference(s, env), env.sendOk);
  }

  lemma {:induction false} StartCarries(s: Session, onDone: Option<nat>, env: Env)
    requires !Terminal(s)
    ensures Carried(s, OnStart(s, onDone, env), onDone)
  {
    if s.phase == Idle {
      ProbeCarries(s.(onDone := onDone), env);
    } else {
      FinishCarries(s.(onDone := onDone), false);
    }
  }

  lemma {:induction false} LatencyCarries(s: Session, parsed: bool, id: nat, rtt: nat, env: Env)
    requires !Terminal(s)
    ensures Carried(s, OnLatencyReply(s, parsed, id, rtt, env), s.onDone)
  {
    ProbeCarries(CancelTimer(s).(lat := rtt / 2, profile := s.profile.(lat := rtt / 2)), env);
  }

  lemma {:induction false} BandwidthCarries(s: Session, parsed: bool, id: nat, rtt: nat, env: Env)
    requires !Terminal(s)
    ensures Carried(s, OnBandwidthReply(s, parsed, id, rtt, env), s.onDone)
  {
    var bps := Truncate(s.cfg.payload as real / Seconds(Net(rtt, s.lat)));
    ProbeCarries(CancelTimer(s).(profile := s.profile.(ulBw := bps, dlBw := bps)), env);
  }

  lemma {:induction false} FlopsCarries(s: Session, parsed: bool, id: nat, rtt: nat, c: seq<Float>)
    requires !Terminal(s)
    ensures Carried(s, OnFlopsReply(s, parsed, id, rtt, c), s.onDone)
  {
  }

  lemma {:induction false} ReferenceCarries(s: Session, result: Option<seq<Float>>)
    requires !Terminal(s)
    ensures Carried(s, OnReference(s, result), s.onDone)
  {
  }

  lemma {:induction false} StepCarries(s: Session, e: Event)
    requires !Terminal(s)
    ensures Carried(s, Step(s, e), if e.Start? then e.onDone else s.onDone)
  {
    match e
    case Start(onDone, env) => StartCarries(s, onDone, env);
    case LatencyReply(parsed, id, rtt, env) => LatencyCarries(s, parsed, id, rtt, env);
    case BandwidthReply(parsed, id, rtt, env) => BandwidthCarries(s, parsed, id, rtt, env);
    case FlopsReply(parsed, id, rtt, c) => FlopsCarries(s, parsed, id, rtt, c);
    case Reference(result) => ReferenceCarries(s, result);
    case Timeout => FinishCarries(s.(timerArmed := false), false);
  }

  lemma {:induction false} HeldIsGiven(cfg: Config, es: seq<Event>)
    ensures !Terminal(Run(cfg, es)) ==> Run(cfg, es).onDone == LastGiven(es)
  {
    if es != [] {
      var before, e := es[..|es| - 1], es[|es| - 1];
      HeldIsGiven(cfg, before);
      if Terminal(Run(cfg, before)) {
        TerminalAbsorbs(Run(cfg, before), e);
      } else {
        StepCarries(Run(cfg, before), e);
      }
    }
  }

  /** The callback called is the one of the last start, with the outcome, the phase and the profile at the end. */
  lemma {:induction false} LastGivenIsCalled(cfg: Config, es: seq<Event>, e: Event)
    requires Run(cfg, es).fired == [] && Run(cfg, es + [e]).fired != []
    ensures LastGiven(es + [e]).Some?
    ensures var s := Run(cfg, es + [e]);
            s.fired == [Outcome(LastGiven(es + [e]).value, s.phase == Done, s.phase, s.profile)]
  {
    assert (es + [e])[..|es|] == es;
    if Terminal(Run(cfg, es)) {
      TerminalAbsorbs(Run(cfg, es), e);
    } else {
      HeldIsGiven(cfg, es);
      StepCarries(Run(cfg, es), e);
    }
  }

  // --------------------------------------------------------------------------
  // The timer at the end
  // --------------------------------------------------------------------------

  /** The event leads to the FLOPS probe. */
  predicate OpensFlops(s: Session, e: Event) {
    match e
    case Start(_, _) => s.phase == Idle && FirstFrom(s.cfg, Latency) == FlopsPending
    case LatencyReply(parsed, id, _, _) =>
      s.phase == LatPending && parsed && id == s.inFlight && FirstFrom(s.cfg, Bandwidth) == FlopsPending
    case BandwidthReply(parsed, id, _, _) => s.phase == BwPending && parsed && id == s.inFlight && s.cfg.flops
    case _ => false
  }

  lemma {:induction false} LaunchTimer(s: Session, env: Env)
    requires !Terminal(s)
    ensures StartLatencyProbe(s, env).timerArmed == (env.sendOk && s.cfg.timed)
    ensures StartBandwidthProbe(s, env).timerArmed == (env.sendOk && s.cfg.timed)
    ensures StartFlopsProbe(s, env).timerArmed == (env.sendOk && s.cfg.timed)
  {
    AskEffect(s, env);
  }

  lemma {:induction false} EchoTimer(s: Session, answered: seq<Probe>, e: Event)
    requires Good(s, answered) && !Terminal(s) && (e.Start? || e.LatencyReply? || e.BandwidthReply?)
    requires Terminal(Step(s, e))
    ensures Step(s, e).timerArmed
       <==> s.cfg.timed && OpensFlops(s, e) && e.env.sendOk && e.env.reference == Some(None)
  {
    PhaseStep(s, e);
    match e
    case Start(onDone, env) => LaunchTimer(s.(onDone := onDone), env);
    case LatencyReply(parsed, id, rtt, env) =>
      LaunchTimer(CancelTimer(s).(lat := rtt / 2, profile := s.profile.(lat := rtt / 2)), env);
    case BandwidthReply(parsed, id, rtt, env) =>
      var bps := Truncate(s.cfg.payload as real / Seconds(Net(rtt, s.lat)));
      LaunchTimer(CancelTimer(s).(profile := s.profile.(ulBw := bps, dlBw := bps)), env);
  }

  /** A session ends with its timer running exactly if the reference failed while the FLOPS probe was being sent. */
  lemma {:induction false} TimerLeftExactly(cfg: Config, es: seq<Event>, e: Event)
    requires !Terminal(Run(cfg, es)) && Terminal(Run(cfg, es + [e]))
    ensures Run(cfg, es + [e]).timerArmed
       <==> cfg.timed && OpensFlops(Run(cfg, es), e) && e.env.sendOk && e.env.reference == Some(None)
  {
    assert (es + [e])[..|es|] == es;
    RunGood(cfg, es);
    if e.Start? || e.LatencyReply? || e.BandwidthReply? {
      EchoTimer(Run(cfg, es), Answered(cfg, es), e);
    }
  }
}
