/** The verdict on one load point (scripts/bench/eval_slo.py:31-33, 88-220). */
module EvalSlo {
  import opened Octets

  /**
   The fields a verdict depends on. Latencies and lags are in milliseconds; the
   timeouts are the sum of the four counters.
   */
  datatype Summary = Summary(
    sessions: nat, partials: nat,
    protocolErrors: nat, inferenceErrors: nat, timeouts: nat,
    correctnessErrors: nat, verified: nat, dropped: nat,
    harnessFaults: nat, lagSamples: nat,
    newestP50: real, newestP95: real, oldestP50: real, oldestP95: real,
    lagP99: real, blockP99: real)

  datatype Gate = NewestP50 | NewestP95 | OldestP50 | OldestP95 | ErrRate | ZeroPartials | CorrectnessErrors

  datatype Verdict = PASS | FAIL | INVALID

  const MAX_ERROR_RATE := 0.00001
  const HARNESS_LAG_P99_MAX_MS := 10.0
  const SEND_BLOCK_P99_MAX_MS := 5.0

  predicate IsLatencyGate(g: Gate)
  {
    g.NewestP50? || g.NewestP95? || g.OldestP50? || g.OldestP95?
  }

  /** Failed sessions and error frames, each once. */
  function CountErrors(s: Summary): nat
  {
    (if s.protocolErrors >= s.timeouts then s.protocolErrors else s.timeouts) + s.inferenceErrors
  }

  function ErrorRate(s: Summary): real
  {
    if s.partials > 0 then CountErrors(s) as real / s.partials as real else 1.0
  }

  /** The summary is for the load asked for and has a lag measurement. */
  predicate Judgeable(s: Summary, requested: Option<nat>)
  {
    && (requested.Some? ==> s.sessions == requested.value)
    && (s.partials > 0 ==> s.lagSamples > 0)
    && s.harnessFaults == 0
  }

  predicate LatencyOk(s: Summary)
  {
    s.newestP50 <= 200.0 && s.newestP95 <= 350.0 && s.oldestP50 <= 1200.0 && s.oldestP95 <= 1650.0
  }

  /** What a lagging load generator cannot explain away. */
  predicate ObservedOk(s: Summary)
  {
    ErrorRate(s) <= MAX_ERROR_RATE && s.partials > 0 && s.correctnessErrors == 0
  }

  predicate HarnessLagged(s: Summary)
  {
    s.lagP99 > HARNESS_LAG_P99_MAX_MS && s.blockP99 < SEND_BLOCK_P99_MAX_MS
  }

  predicate Verified(s: Summary)
  {
    s.dropped == 0 && s.verified == s.partials
  }

  method FailedGates(s: Summary) returns (gates: seq<Gate>)
    ensures gates == [] <==> LatencyOk(s) && ObservedOk(s)
    ensures (forall i :: 0 <= i < |gates| ==> IsLatencyGate(gates[i])) <==> ObservedOk(s)
  {
    gates := [];
    if s.newestP50 > 200.0 {
      gates := gates + [NewestP50];
    }
    if s.newestP95 > 350.0 {
      gates := gates + [NewestP95];
    }
    if s.oldestP50 > 1200.0 {
      gates := gates + [OldestP50];
    }
    if s.oldestP95 > 1650.0 {
      gates := gates + [OldestP95];
    }
    assert forall i :: 0 <= i < |gates| ==> IsLatencyGate(gates[i]);
    ghost var latency := |gates|;
    if ErrorRate(s) > MAX_ERROR_RATE {
      gates := gates + [ErrRate];
    }
    if s.partials == 0 {
      gates := gates + [ZeroPartials];
    }
    if s.correctnessErrors > 0 {
      gates := gates + [CorrectnessErrors];
    }
    assert !ObservedOk(s) ==> latency < |gates| && !IsLatencyGate(gates[latency]);
  }

  /**
   `main`, for a summary that parsed (`None` is one that did not). PASS means every
   gate held on complete evidence; FAIL means the gateway missed a gate in a way
   the load generator's own lag does not explain; everything else is INVALID.
   */
  method Judge(input: Option<Summary>, requested: Option<nat>) returns (v: Verdict)
    ensures v == PASS <==>
              && input.Some? && Judgeable(input.value, requested)
              && LatencyOk(input.value) && ObservedOk(input.value)
              && !HarnessLagged(input.value) && Verified(input.value)
    ensures v == FAIL <==>
              && input.Some? && Judgeable(input.value, requested)
              && (!ObservedOk(input.value) || (!LatencyOk(input.value) && !HarnessLagged(input.value)))
  {
    if input.None? {
      return INVALID;
    }
    var s := input.value;
    if requested.Some? && s.sessions != requested.value {
      return INVALID;
    }
    if s.partials > 0 && s.lagSamples == 0 {
      return INVALID;
    }
    if s.harnessFaults > 0 {
      return INVALID;
    }
    var gates := FailedGates(s);
    v := if gates == [] then PASS else FAIL;
    var invalid := (forall i :: 0 <= i < |gates| ==> IsLatencyGate(gates[i])) && HarnessLagged(s);
    if v == PASS && !invalid {
      invalid := s.dropped > 0 || s.verified != s.partials;
    }
    if invalid {
      v := INVALID;
    }
  }
}
