/** The measurement session as it runs: fields changed in place by the callbacks. */
module MeasurementSessions {
  import opened Session

  class MeasurementSession {
    const cfg: Config
    var phase: Phase
    var onDone: Option<nat>
    var probeSeq: nat
    var inFlight: nat
    var timerArmed: bool
    var lat: nat
    var refReady: bool
    var ref: Option<seq<Float>>
    var refOutstanding: bool
    var stashed: Option<seq<Float>>
    var elapsed: real
    var profile: Profile
    var fired: seq<Outcome>

    function State(): Session
      reads this
    {
      Session(cfg, phase, onDone, probeSeq, inFlight, timerArmed, lat, refReady, ref, refOutstanding, stashed, elapsed,
              profile, fired)
    }

    constructor (cfg: Config)
      ensures State() == Fresh(cfg)
    {
      this.cfg := cfg;
      phase, onDone, probeSeq, inFlight, timerArmed, lat := Idle, None, 0, 0, false, 0;
      refReady, ref, refOutstanding, stashed, elapsed := false, None, false, None, 0.0;
      profile, fired := UNMEASURED, [];
    }

    /** Calls and drops the callback on the way into a terminal state; does nothing in one. */
    method EndWith(ok: bool)
      modifies this
      ensures State() == Finish(old(State()), ok)
    {
      if phase == Done || phase == Failed {
        return;
      }
      phase := if ok then Done else Failed;
      timerArmed := false;
      if onDone.Some? {
        fired := fired + [Outcome(onDone.value, ok, phase, profile)];
        onDone := None;
      }
    }

    method ArmAndSend(sendOk: bool)
      modifies this
      ensures State() == Sent(old(State()), sendOk)
    {
      timerArmed := cfg.timed;
      if !sendOk {
        timerArmed := false;
        EndWith(false);
      }
    }

    method Echo(next: Phase, env: Env)
      requires next == LatPending || next == BwPending
      modifies this
      ensures State() == Sent(NextProbe(old(State()), next), env.sendOk)
    {
      phase := next;
      probeSeq := probeSeq + 1;
      inFlight := probeSeq;
      ArmAndSend(env.sendOk);
    }

    /** Asks for the reference product, which may arrive before this returns. */
    method Ask(env: Env)
      modifies this
      ensures State() == AskReference(old(State()), env)
    {
      phase := FlopsPending;
      probeSeq := probeSeq + 1;
      inFlight := probeSeq;
      refReady, ref, stashed, elapsed := false, None, None, 0.0;
      refOutstanding := true;
      if env.reference.Some? {
        ReferenceDone(env.reference.value);
      }
    }

    method Challenge(env: Env)
      modifies this
      ensures State() == StartFlopsProbe(old(State()), env)
    {
      Ask(env);
      ArmAndSend(env.sendOk);
    }

    method Begin(callback: Option<nat>, env: Env)
      modifies this
      ensures State() == OnStart(old(State()), callback, env)
    {
      onDone := callback;
      if phase != Idle {
        EndWith(false);
        return;
      }
      if !cfg.latency && !cfg.bandwidth && !cfg.flops {
        phase := Done;
        if onDone.Some? {
          fired := fired + [Outcome(onDone.value, true, phase, profile)];
        }
        return;
      }
      if cfg.latency {
        Echo(LatPending, env);
      } else if cfg.bandwidth {
        Echo(BwPending, env);
      } else {
        Challenge(env);
      }
    }

    method OnProbeLatencyResponse(parsed: bool, id: nat, rtt: nat, env: Env) returns (advanced: bool)
      modifies this
      ensures State() == OnLatencyReply(old(State()), parsed, id, rtt, env)
      ensures advanced <==> Answers(old(State()), LatencyReply(parsed, id, rtt, env)) != []
    {
      if phase != LatPending || !parsed || id != inFlight {
        return false;
      }
      timerArmed := false;
      lat := rtt / 2;
      profile := profile.(lat := lat);
      LatencyKnown(env);
      return true;
    }

    method LatencyKnown(env: Env)
      modifies this
      ensures State() == AfterLatency(old(State()), env)
    {
      if cfg.bandwidth {
        Echo(BwPending, env);
      } else if cfg.flops {
        Challenge(env);
      } else {
        phase := Done;
        EndWith(true);
      }
    }

    method OnProbeBandwidthResponse(parsed: bool, id: nat, rtt: nat, env: Env) returns (advanced: bool)
      modifies this
      ensures State() == OnBandwidthReply(old(State()), parsed, id, rtt, env)
      ensures advanced <==> Answers(old(State()), BandwidthReply(parsed, id, rtt, env)) != []
    {
      if phase != BwPending || !parsed || id != inFlight {
        return false;
      }
      timerArmed := false;
      var bps := Truncate(cfg.payload as real / Seconds(Net(rtt, lat)));
      profile := profile.(ulBw := bps, dlBw := bps);
      if cfg.flops {
        Challenge(env);
      } else {
        phase := Done;
        EndWith(true);
      }
      return true;
    }

    /** Entry by entry, stopping at the first one out of tolerance. */
    method Verify(expected: seq<Float>, got: seq<Float>) returns (verified: bool)
      ensures verified <==> AllPass(expected, got, cfg.tolerance)
    {
      verified := |expected| == |got|;
      if verified {
        for i := 0 to |expected|
          invariant verified && forall j | 0 <= j < i :: !Exceeds(expected[j], got[j], cfg.tolerance)
        {
          if Exceeds(expected[i], got[i], cfg.tolerance) {
            return false;
          }
        }
      }
    }

    method Judge(expected: seq<Float>, got: seq<Float>)
      modifies this
      ensures State() == Conclude(old(State()), expected, got)
    {
      var verified := Verify(expected, got);
      profile := profile.(flops := MeasuredFlops(cfg.dim, elapsed), verified := verified);
      EndWith(verified);
    }

    method OnProbeFlopsResponse(parsed: bool, id: nat, rtt: nat, c: seq<Float>) returns (advanced: bool)
      modifies this
      ensures State() == OnFlopsReply(old(State()), parsed, id, rtt, c)
      ensures advanced <==> old(phase) == FlopsPending && parsed && id == old(inFlight)
    {
      if phase != FlopsPending || !parsed || id != inFlight {
        return false;
      }
      timerArmed := false;
      elapsed := Seconds(Net(rtt, lat));
      if |c| != cfg.dim * cfg.dim {
        EndWith(false);
      } else if !refReady || ref.None? {
        stashed := Some(c);
      } else {
        Judge(ref.value, c);
      }
      return true;
    }

    /** The reference product's callback. */
    method ReferenceDone(result: Option<seq<Float>>)
      modifies this
      ensures State() == OnReference(old(State()), result)
    {
      refOutstanding := false;
      if result.None? {
        refReady := false;
        if phase == FlopsPending {
          timerArmed := false;
          EndWith(false);
        }
        return;
      }
      ref := result;
      refReady := true;
      if stashed.Some? {
        var got := stashed.value;
        stashed := None;
        Judge(result.value, got);
      }
    }

    method TimerFired()
      modifies this
      ensures State() == OnTimeout(old(State()))
    {
      timerArmed := false;
      EndWith(false);
    }
  }
}
