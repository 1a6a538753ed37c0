/** A device's measurement session: latency, bandwidth and FLOPS probes, in that order. */
module Session {
  datatype Option<+T> = None | Some(value: T)

  datatype Phase = Idle | LatPending | BwPending | FlopsPending | Done | Failed

  datatype Probe = Latency | Bandwidth | Flops

  /** A matrix entry. */
  datatype Float = Num(value: real) | Infinite(positive: bool) | NaN

  /** `timed` is false for a driver that supplies no timer. */
  datatype Config = Config(latency: bool, bandwidth: bool, flops: bool, payload: nat, dim: nat, tolerance: real,
                           timed: bool)

  datatype Profile = Profile(lat: nat, ulBw: nat, dlBw: nat, flops: nat, verified: bool)

  const UNMEASURED := Profile(0, 0, 0, 0, false)

  /** One call of an on_done callback. */
  datatype Outcome = Outcome(callback: nat, ok: bool, phase: Phase, profile: Profile)

  datatype Session = Session(
    cfg: Config,
    phase: Phase,
    onDone: Option<nat>,
    probeSeq: nat,
    inFlight: nat,
    timerArmed: bool,
    lat: nat,
    refReady: bool,
    ref: Option<seq<Float>>,
    refOutstanding: bool,
    stashed: Option<seq<Float>>,
    elapsed: real,
    profile: Profile,
    fired: seq<Outcome>)

  function Fresh(cfg: Config): Session {
    Session(cfg, Idle, None, 0, 0, false, 0, false, None, false, None, 0.0, UNMEASURED, [])
  }

  /** What the outside does while a probe is launched: the send's result, and a reference product delivered at once. */
  datatype Env = Env(sendOk: bool, reference: Option<Option<seq<Float>>>)

  datatype Event =
    | Start(onDone: Option<nat>, env: Env)
    | LatencyReply(parsed: bool, id: nat, rtt: nat, env: Env)
    | BandwidthReply(parsed: bool, id: nat, rtt: nat, env: Env)
    | FlopsReply(parsed: bool, id: nat, rtt: nat, c: seq<Float>)
    | Reference(result: Option<seq<Float>>)
    | Timeout

  predicate Terminal(s: Session) {
    s.phase == Done || s.phase == Failed
  }

  /** A callback that a session holds is still held, or has been called by the time the session ends. */
  predicate Passed(s: Session, r: Session) {
    s.onDone.Some? && !Terminal(s) ==> if Terminal(r) then r.fired != [] else r.onDone == s.onDone
  }

  /** Probe ids only grow, and another probe has another id. */
  predicate Grew(s: Session, r: Session) {
    s.probeSeq <= r.probeSeq && (Pending(r) && r.phase != s.phase ==> s.probeSeq < r.probeSeq)
  }

  // --------------------------------------------------------------------------
  // Steps
  // --------------------------------------------------------------------------

  function CancelTimer(s: Session): (r: Session)
    ensures r.cfg == s.cfg
  {
    s.(timerArmed := false)
  }

  function ArmTimer(s: Session): (r: Session)
    ensures r.cfg == s.cfg
  {
    s.(timerArmed := s.cfg.timed)
  }

  function Finish(s: Session, ok: bool): (r: Session)
    ensures r.cfg == s.cfg && Passed(s, r) && r.probeSeq == s.probeSeq
  {
    if Terminal(s) then s
    else
      var s1 := s.(phase := if ok then Done else Failed, timerArmed := false);
      if s.onDone.None? then s1
      else s1.(onDone := None, fired := s.fired + [Outcome(s.onDone.value, ok, s1.phase, s.profile)])
  }

  function Sent(s: Session, ok: bool): (r: Session)
    ensures r.cfg == s.cfg && Passed(s, r) && r.probeSeq == s.probeSeq
  {
    if ok then ArmTimer(s) else Finish(CancelTimer(ArmTimer(s)), false)
  }

  function NextProbe(s: Session, phase: Phase): (r: Session)
    requires phase == LatPending || phase == BwPending || phase == FlopsPending
    ensures r.cfg == s.cfg && Passed(s, r)
  {
    s.(phase := phase, probeSeq := s.probeSeq + 1, inFlight := s.probeSeq + 1)
  }

  function StartLatencyProbe(s: Session, env: Env): (r: Session)
    ensures r.cfg == s.cfg && Passed(s, r) && r.probeSeq == s.probeSeq + 1
  {
    Sent(NextProbe(s, LatPending), env.sendOk)
  }

  function StartBandwidthProbe(s: Session, env: Env): (r: Session)
    ensures r.cfg == s.cfg && Passed(s, r) && r.probeSeq == s.probeSeq + 1
  {
    Sent(NextProbe(s, BwPending), env.sendOk)
  }

  /** Starts the FLOPS probe's bookkeeping and asks for the reference product, which may arrive at once. */
  function AskReference(s: Session, env: Env): (r: Session)
    ensures r.cfg == s.cfg && Passed(s, r) && r.probeSeq == s.probeSeq + 1
  {
    var s1 := NextProbe(s, FlopsPending)
              .(refReady := false, ref := None, refOutstanding := true, stashed := None, elapsed := 0.0);
    if env.reference.Some? then OnReference(s1, env.reference.value) else s1
  }

  function StartFlopsProbe(s: Session, env: Env): (r: Session)
    ensures r.cfg == s.cfg && Passed(s, r) && r.probeSeq == s.probeSeq + 1
  {
    Sent(AskReference(s, env), env.sendOk)
  }

  function OnStart(s: Session, onDone: Option<nat>, env: Env): (r: Session)
    ensures r.cfg == s.cfg && Grew(s, r)
  {
    var s1 := s.(onDone := onDone);
    if s1.phase != Idle then Finish(s1, false)
    else if !s.cfg.latency && !s.cfg.bandwidth && !s.cfg.flops then
      var s2 := s1.(phase := Done);
      if onDone.Some? then s2.(fired := s2.fired + [Outcome(onDone.value, true, Done, s2.profile)]) else s2
    else if s.cfg.latency then StartLatencyProbe(s1, env)
    else if s.cfg.bandwidth then StartBandwidthProbe(s1, env)
    else StartFlopsProbe(s1, env)
  }

  /** The end of a sequence without FLOPS: the state is DONE before Finish sees it. */
  function Complete(s: Session): (r: Session)
    ensures r.cfg == s.cfg
  {
    Finish(s.(phase := Done), true)
  }

  function OnLatencyReply(s: Session, parsed: bool, id: nat, rtt: nat, env: Env): (r: Session)
    ensures r.cfg == s.cfg && Grew(s, r)
  {
    if s.phase != LatPending || !parsed || id != s.inFlight then s
    else
      AfterLatency(CancelTimer(s).(lat := rtt / 2, profile := s.profile.(lat := rtt / 2)), env)
  }

  function AfterLatency(s: Session, env: Env): (r: Session)
    ensures r.cfg == s.cfg && s.probeSeq <= r.probeSeq && (Pending(r) ==> s.probeSeq < r.probeSeq)
  {
    if s.cfg.bandwidth then StartBandwidthProbe(s, env)
    else if s.cfg.flops then StartFlopsProbe(s, env)
    else Complete(s)
  }

  /** Nanoseconds left once the round trip's latency is taken off, when that leaves any. */
  function Net(rtt: nat, lat: nat): nat {
    if rtt > 2 * lat then rtt - 2 * lat else rtt
  }

  const TINY := 0.000000001

  function Seconds(ns: nat): (r: real)
    ensures r >= TINY
  {
    var sec := ns as real / 1000000000.0;
    if sec > TINY then sec else TINY
  }

  function OnBandwidthReply(s: Session, parsed: bool, id: nat, rtt: nat, env: Env): (r: Session)
    ensures r.cfg == s.cfg && Grew(s, r)
  {
    if s.phase != BwPending || !parsed || id != s.inFlight then s
    else
      var bps := Truncate(s.cfg.payload as real / Seconds(Net(rtt, s.lat)));
      var s1 := CancelTimer(s).(profile := s.profile.(ulBw := bps, dlBw := bps));
      if s.cfg.flops then StartFlopsProbe(s1, env) else Complete(s1)
  }

  function Truncate(x: real): nat {
    if x < 0.0 then 0 else x.Floor
  }

  function Abs(x: real): real {
    if x < 0.0 then -x else x
  }

  /** Two numbers agree up to an absolute and a relative tolerance. */
  predicate Close(expected: real, got: real, tolerance: real) {
    Abs(expected - got) <= tolerance + tolerance * Abs(expected)
  }

  /**
   The original's test of one entry, as floating-point comparison decides it: nothing exceeds
   or is exceeded by a NaN.
   */
  predicate Exceeds(expected: Float, got: Float, tolerance: real) {
    if expected.NaN? || got.NaN? then false
    else if expected.Infinite? then tolerance < 0.0 && expected != got
    else if got.Infinite? then true
    else !Close(expected.value, got.value, tolerance)
  }

  predicate AllPass(expected: seq<Float>, got: seq<Float>, tolerance: real) {
    |expected| == |got| && forall i | 0 <= i < |expected| :: !Exceeds(expected[i], got[i], tolerance)
  }

  function Rate(operations: real, elapsed: real): nat {
    Truncate(operations / (if elapsed > TINY then elapsed else TINY))
  }

  /** The operations of a square product: a multiplication and an addition for each of its dim * dim * dim terms. */
  function Operations(dim: nat): real {
    2.0 * dim as real * dim as real * dim as real
  }

  function MeasuredFlops(dim: nat, elapsed: real): nat {
    Rate(Operations(dim), elapsed)
  }

  /** Compares the device's product with the reference and ends the session with the verdict. */
  function Conclude(s: Session, expected: seq<Float>, got: seq<Float>): (r: Session)
    ensures r.cfg == s.cfg && Passed(s, r) && r.probeSeq == s.probeSeq
  {
    var verified := AllPass(expected, got, s.cfg.tolerance);
    Finish(s.(profile := s.profile.(flops := MeasuredFlops(s.cfg.dim, s.elapsed), verified := verified)), verified)
  }

  function OnFlopsReply(s: Session, parsed: bool, id: nat, rtt: nat, c: seq<Float>): (r: Session)
    ensures r.cfg == s.cfg && Passed(s, r) && r.probeSeq == s.probeSeq
  {
    if s.phase != FlopsPending || !parsed || id != s.inFlight then s
    else
      var s1 := CancelTimer(s).(elapsed := Seconds(Net(rtt, s.lat)));
      if |c| != s.cfg.dim * s.cfg.dim then Finish(s1, false)
      else if !s.refReady || s.ref.None? then s1.(stashed := Some(c))
      else Conclude(s1, s.ref.value, c)
  }

  function OnReference(s: Session, result: Option<seq<Float>>): (r: Session)
    ensures r.cfg == s.cfg && Passed(s, r) && r.probeSeq == s.probeSeq
  {
    var s1 := s.(refOutstanding := false);
    if result.None? then
      var s2 := s1.(refReady := false);
      if s.phase == FlopsPending then Finish(CancelTimer(s2), false) else s2
    else
      var s2 := s1.(ref := result, refReady := true);
      if s.stashed.Some? then Conclude(s2.(stashed := None), result.value, s.stashed.value) else s2
  }

  function OnTimeout(s: Session): (r: Session)
    ensures r.cfg == s.cfg && Passed(s, r) && r.probeSeq == s.probeSeq
  {
    Finish(s.(timerArmed := false), false)
  }

  /** A reference product is delivered once per request, a timeout only from an armed timer. */
  function Step(s: Session, e: Event): (r: Session)
    ensures r.cfg == s.cfg && Grew(s, r)
  {
    match e
    case Start(onDone, env) => OnStart(s, onDone, env)
    case LatencyReply(parsed, id, rtt, env) => OnLatencyReply(s, parsed, id, rtt, env)
    case BandwidthReply(parsed, id, rtt, env) => OnBandwidthReply(s, parsed, id, rtt, env)
    case FlopsReply(parsed, id, rtt, c) => OnFlopsReply(s, parsed, id, rtt, c)
    case Reference(result) => if s.refOutstanding then OnReference(s, result) else s
    case Timeout => if s.timerArmed then OnTimeout(s) else s
  }

  function Run(cfg: Config, es: seq<Event>): Session {
    if es == [] then Fresh(cfg) else Step(Run(cfg, es[..|es| - 1]), es[|es| - 1])
  }

  // --------------------------------------------------------------------------
  // What every run keeps
  // --------------------------------------------------------------------------

  /** The probes a configuration asks for, in their order. */
  function Enabled(cfg: Config): seq<Probe> {
    (if cfg.latency then [Latency] else [])
    + (if cfg.bandwidth then [Bandwidth] else [])
    + (if cfg.flops then [Flops] else [])
  }

  /** The enabled probes that come before the one a phase waits for. */
  function Before(cfg: Config, phase: Phase): seq<Probe> {
    (if cfg.latency && (phase == BwPending || phase == FlopsPending) then [Latency] else [])
    + (if cfg.bandwidth && phase == FlopsPending then [Bandwidth] else [])
  }

  /** The probe that an event answers: right kind, parsed, right id, and no answer held already. */
  function Answers(s: Session, e: Event): seq<Probe> {
    match e
    case LatencyReply(parsed, id, _, _) => if s.phase == LatPending && parsed && id == s.inFlight then [Latency] else []
    case BandwidthReply(parsed, id, _, _) =>
      if s.phase == BwPending && parsed && id == s.inFlight then [Bandwidth] else []
    case FlopsReply(parsed, id, _, _) =>
      if s.phase == FlopsPending && parsed && id == s.inFlight && s.stashed.None? then [Flops] else []
    case _ => []
  }

  /** The probes answered in a run, in the order of the answers. */
  function Answered(cfg: Config, es: seq<Event>): seq<Probe> {
    if es == [] then []
    else
      var n := |es| - 1;
      Answered(cfg, es[..n]) + Answers(Run(cfg, es[..n]), es[n])
  }

  predicate Asked(cfg: Config, phase: Phase) {
    match phase
    case LatPending => cfg.latency
    case BwPending => cfg.bandwidth
    case FlopsPending => cfg.flops
    case _ => true
  }

  predicate Pending(s: Session) {
    s.phase == LatPending || s.phase == BwPending || s.phase == FlopsPending
  }

  /** Every callback that was given has been called, unless a sequence without FLOPS ended well. */
  predicate Silent(cfg: Config, phase: Phase) {
    phase == Done && !cfg.flops && (cfg.latency || cfg.bandwidth)
  }

  predicate Good(s: Session, answered: seq<Probe>) {
    && Asked(s.cfg, s.phase)
    && (s.phase == Idle ==> s.onDone.None? && answered == [] && !s.timerArmed)
    && (!Terminal(s) ==> s.fired == [])
    && |s.fired| <= 1
    && (Pending(s) ==>
          s.inFlight == s.probeSeq
          && answered == Before(s.cfg, s.phase) + (if s.stashed.Some? then [Flops] else []))
    && (s.phase != FlopsPending && !Terminal(s) ==> !s.refOutstanding && s.stashed.None?)
    && (s.phase == FlopsPending ==> s.refOutstanding == !s.refReady && (s.stashed.Some? ==> s.refOutstanding))
    && (s.refReady ==> s.ref.Some?)
    && (s.phase == Done ==> answered == Enabled(s.cfg) && !s.refOutstanding)
    && (Pending(s) && s.cfg.timed ==> s.timerArmed || s.stashed.Some?)
    && (s.phase == Done && s.cfg.flops ==> s.profile.verified)
    && (s.fired != [] ==> Terminal(s) && !Silent(s.cfg, s.phase)
                          && s.fired[0].ok == (s.phase == Done) && s.fired[0].phase == s.phase
                          && (s.phase == Done ==> s.fired[0].profile == s.profile))
  }

  /** The callback is still held, or has been called. */
  predicate Called(s: Session) {
    && (s.phase == Idle || s.onDone.Some? || Terminal(s))
    && (Terminal(s) && !Silent(s.cfg, s.phase) ==> s.fired != [])
  }
}
