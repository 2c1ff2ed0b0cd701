/** The backward pass of the SLQ solver: the Riccati equations are
    integrated backwards in time over one partition, interval by interval
    between the events of the partition, with the jump map applied at each
    event. Time is "normalised" (negated), so the integration runs forward
    in normalised time. The ODE integrators, the jump map of the Riccati
    equations and the normalisation of the nominal time are supplied as
    functions. */
module SlqRiccati {
  import opened LinAlg
  import opened Approximation

  // ---------------------------------------------------------------------------
  // Time normalisation

  /** Negated times in reverse order: the normalised time of a nominal time
      trajectory, and also the de-normalised time of a normalised one. */
  function NegateReverse(s: seq<real>): (r: seq<real>)
    ensures |r| == |s|
    ensures forall k :: 0 <= k < |s| ==> r[k] == -s[|s| - 1 - k]
  {
    seq(|s|, k requires 0 <= k < |s| => -s[|s| - 1 - k])
  }

  predicate NonDecreasing(s: seq<real>) {
    forall i, j :: 0 <= i <= j < |s| ==> s[i] <= s[j]
  }

  /** Normalising twice gives back the original time trajectory. */
  lemma NegateReverseInvolution(s: seq<real>)
    ensures NegateReverse(NegateReverse(s)) == s
  {
    var r := NegateReverse(NegateReverse(s));
    forall k | 0 <= k < |s|
      ensures r[k] == s[k]
    {
      assert |s| - 1 - (|s| - 1 - k) == k;
    }
  }

  /** A time trajectory running forwards becomes a normalised trajectory
      that also runs forwards. */
  lemma NegateReverseMonotone(s: seq<real>)
    requires NonDecreasing(s)
    ensures NonDecreasing(NegateReverse(s))
  {
    var r := NegateReverse(s);
    forall i, j | 0 <= i <= j < |r|
      ensures r[i] <= r[j]
    {
      assert s[|s| - 1 - j] <= s[|s| - 1 - i];
    }
  }

  // ---------------------------------------------------------------------------
  // Event indices

  /** Post-event indices of a partition with `n` nominal times: sorted, and
      every event lies strictly inside the partition (no event at its start
      and none past its last time). */
  predicate EventsInside(events: seq<int>, n: int) {
    (forall i, j :: 0 <= i <= j < |events| ==> events[i] <= events[j]) &&
    (forall k :: 0 <= k < |events| ==> 0 < events[k] < n)
  }

  /** Switching indices into the normalised time: 0, then `n - e` for the
      events from last to first, then `n`. */
  function NominalSwitchingIndices(n: int, events: seq<int>): (r: seq<int>)
    ensures |r| == |events| + 2
  {
    [0] + seq(|events|, j requires 0 <= j < |events| => n - events[|events| - 1 - j]) + [n]
  }

  /** Indices `S` cut a normalised time of length `n` into |S| - 1
      consecutive ranges from 0 to `n`; every range boundary that is
      followed by a jump is a valid time index, and when a jump follows the
      first range that range is not empty. */
  predicate ValidSwitchingIndices(S: seq<int>, n: int) {
    |S| >= 2 && S[0] == 0 && S[|S| - 1] == n &&
    (forall j :: 0 <= j < |S| ==> 0 <= S[j] <= n) &&
    (forall j :: 0 <= j < |S| - 1 ==> S[j] <= S[j + 1]) &&
    (forall j :: 0 < j < |S| - 1 ==> S[j] < n) &&
    (|S| > 2 ==> S[0] < S[1])
  }

  /** The switching indices hold numEvents + 2 entries, lie in [0, n], and
      cut the partition into numEvents + 1 ranges, in order. */
  lemma NominalSwitchingIndicesValid(n: nat, events: seq<int>)
    requires EventsInside(events, n)
    ensures ValidSwitchingIndices(NominalSwitchingIndices(n, events), n)
  {
    var S := NominalSwitchingIndices(n, events);
    var m := |events|;
    assert forall j :: 0 < j < m + 1 ==> S[j] == n - events[m - j];
    forall j | 0 <= j < m + 1
      ensures S[j] <= S[j + 1]
    {
      if 0 < j && j + 1 < m + 1 {
        assert events[m - j - 1] <= events[m - j];
      } else if j == 0 && m > 0 {
        assert S[1] == n - events[m - 1];
      } else if j == m && m > 0 {
        assert S[m] == n - events[0];
      }
    }
  }

  /** Builds the switching indices with a loop over the events, last first. */
  method BuildNominalSwitchingIndices(n: int, events: seq<int>) returns (r: seq<int>)
    ensures r == NominalSwitchingIndices(n, events)
  {
    var m := |events|;
    r := [0];
    var k := m - 1;
    while k >= 0
      invariant -1 <= k < m
      invariant |r| == m - k
      invariant r[0] == 0
      invariant forall j :: 0 < j < |r| ==> r[j] == n - events[m - j]
    {
      r := r + [n - events[k]];
      k := k - 1;
    }
    r := r + [n];
  }

  /** Normalised switching times of the adaptive backward pass: the
      negated last time, then the negated event times from last to first,
      then the negated first time. */
  function AdaptiveSwitchingTimes(times: seq<real>, events: seq<int>): (r: seq<real>)
    requires |times| > 0
    requires forall k :: 0 <= k < |events| ==> 0 <= events[k] < |times|
    ensures |r| == |events| + 2
  {
    [-times[|times| - 1]]
      + seq(|events|, j requires 0 <= j < |events| => -times[events[|events| - 1 - j]])
      + [-times[0]]
  }

  /** With a forward-running time trajectory and sorted events, the
      normalised switching times run forwards from -t_back to -t_front. */
  lemma AdaptiveSwitchingTimesMonotone(times: seq<real>, events: seq<int>)
    requires |times| > 0 && NonDecreasing(times)
    requires EventsInside(events, |times|)
    ensures NonDecreasing(AdaptiveSwitchingTimes(times, events))
  {
    var r := AdaptiveSwitchingTimes(times, events);
    var m := |events|;
    assert forall j :: 0 < j < m + 1 ==> r[j] == -times[events[m - j]];
    forall i, j | 0 <= i <= j < |r|
      ensures r[i] <= r[j]
    {
      if 0 < i && j < m + 1 {
        assert events[m - j] <= events[m - i];
        assert times[events[m - j]] <= times[events[m - i]];
      }
    }
  }

  /** Builds the switching times with a loop over the events, last first. */
  method BuildAdaptiveSwitchingTimes(times: seq<real>, events: seq<int>) returns (r: seq<real>)
    requires |times| > 0
    requires forall k :: 0 <= k < |events| ==> 0 <= events[k] < |times|
    ensures r == AdaptiveSwitchingTimes(times, events)
  {
    var m := |events|;
    r := [-times[|times| - 1]];
    var k := m - 1;
    while k >= 0
      invariant -1 <= k < m
      invariant |r| == m - k
      invariant r[0] == -times[|times| - 1]
      invariant forall j :: 0 < j < |r| ==> r[j] == -times[events[m - j]]
    {
      r := r + [-times[events[k]]];
      k := k - 1;
    }
    r := r + [-times[0]];
  }

  // ---------------------------------------------------------------------------
  // Integration over the nominal time nodes

  /** An integrator over given time nodes: from an initial packed value
      function and the nodes, the samples its observer records. */
  type IntegrateTimes = (Vector, seq<real>) -> seq<Vector>

  /** The jump map of the Riccati equations: from the event time and the
      packed value function before the event, the one after it. */
  type JumpMap = (real, Vector) -> Vector

  /** The observer records at least one sample whenever there is a node to
      integrate over. */
  ghost predicate ObservesNonEmpty(integrate: IntegrateTimes) {
    forall x, ts :: |ts| > 0 ==> |integrate(x, ts)| > 0
  }

  /** The observer records exactly one sample per time node. */
  ghost predicate OnePerNode(integrate: IntegrateTimes) {
    forall x, ts :: |integrate(x, ts)| == |ts|
  }

  /** The samples recorded over ranges `i` onwards, appended to `acc`,
      starting from the packed value `x0`; after every range but the last
      the jump map is applied at the range's end time to the last sample. */
  function NominalSweep(ts: seq<real>, S: seq<int>, integrate: IntegrateTimes, jump: JumpMap,
                        x0: Vector, acc: seq<Vector>, i: nat): (r: seq<Vector>)
    requires ValidSwitchingIndices(S, |ts|) && i < |S| - 1
    requires ObservesNonEmpty(integrate)
    requires i > 0 ==> |acc| > 0
    decreases |S| - 1 - i
  {
    var acc' := acc + integrate(x0, ts[S[i]..S[i + 1]]);
    if i + 1 == |S| - 1 then acc'
    else NominalSweep(ts, S, integrate, jump, jump(ts[S[i + 1]], acc'[|acc'| - 1]), acc', i + 1)
  }

  /** With one sample per node, the sweep records exactly one sample per
      normalised time from range `i` on. */
  lemma {:induction false} NominalSweepLength(ts: seq<real>, S: seq<int>, integrate: IntegrateTimes, jump: JumpMap,
                                              x0: Vector, acc: seq<Vector>, i: nat)
    requires ValidSwitchingIndices(S, |ts|) && i < |S| - 1
    requires ObservesNonEmpty(integrate) && OnePerNode(integrate)
    requires i > 0 ==> |acc| > 0
    ensures |NominalSweep(ts, S, integrate, jump, x0, acc, i)| == |acc| + |ts| - S[i]
    decreases |S| - 1 - i
  {
    var acc' := acc + integrate(x0, ts[S[i]..S[i + 1]]);
    assert |acc'| == |acc| + S[i + 1] - S[i];
    if i + 1 < |S| - 1 {
      NominalSweepLength(ts, S, integrate, jump, jump(ts[S[i + 1]], acc'[|acc'| - 1]), acc', i + 1);
    }
  }

  /** The loop over the ranges between switching indices: integrates each
      range in turn, applying the jump map between consecutive ranges. */
  method SweepRanges(ts: seq<real>, S: seq<int>, integrate: IntegrateTimes, jump: JumpMap, x0: Vector)
    returns (allSs: seq<Vector>)
    requires |ts| > 0 && ValidSwitchingIndices(S, |ts|)
    requires ObservesNonEmpty(integrate)
    ensures allSs == NominalSweep(ts, S, integrate, jump, x0, [], 0)
  {
    var m := |S| - 2;
    ghost var whole := NominalSweep(ts, S, integrate, jump, x0, [], 0);
    allSs := [];
    var x := x0;
    var i := 0;
    while i <= m
      invariant 0 <= i <= m + 1
      invariant i > 0 ==> |allSs| > 0
      invariant i <= m ==> NominalSweep(ts, S, integrate, jump, x, allSs, i) == whole
      invariant i == m + 1 ==> allSs == whole
    {
      allSs := allSs + integrate(x, ts[S[i]..S[i + 1]]);
      if i < m {
        x := jump(ts[S[i + 1]], allSs[|allSs| - 1]);
      }
      i := i + 1;
    }
  }

  /** The message of the size check that closes the nominal-time pass. */
  const SizeIncorrectMessage: string := "allSsTrajectory size is incorrect."

  /** `integrateRiccatiEquationNominalTime`: normalises the nominal time,
      integrates over the nominal nodes range by range, and checks that one
      sample per nominal time was recorded. */
  method IntegrateRiccatiEquationNominalTime(
      nominalTime: seq<real>, events: seq<int>, allSsFinal: Vector,
      normalize: (seq<real>, seq<int>) -> (seq<real>, seq<int>),
      integrate: IntegrateTimes, jump: JumpMap)
    returns (ssNormalizedTime: seq<real>, ssNormalizedEvents: seq<int>, allSs: seq<Vector>, out: Outcome)
    requires |nominalTime| > 0
    requires EventsInside(events, |nominalTime|)
    requires |normalize(nominalTime, events).0| == |nominalTime|
    requires ObservesNonEmpty(integrate)
    ensures (ssNormalizedTime, ssNormalizedEvents) == normalize(nominalTime, events)
    ensures ValidSwitchingIndices(NominalSwitchingIndices(|nominalTime|, events), |nominalTime|) &&
            allSs == NominalSweep(ssNormalizedTime, NominalSwitchingIndices(|nominalTime|, events),
                                  integrate, jump, allSsFinal, [], 0)
    ensures out == (if |allSs| == |nominalTime| then Pass else Throw(RuntimeError(SizeIncorrectMessage)))
    ensures OnePerNode(integrate) ==> out == Pass
  {
    var n := |nominalTime|;
    ssNormalizedTime, ssNormalizedEvents := normalize(nominalTime, events).0, normalize(nominalTime, events).1;
    var S := BuildNominalSwitchingIndices(n, events);
    NominalSwitchingIndicesValid(n, events);
    allSs := SweepRanges(ssNormalizedTime, S, integrate, jump, allSsFinal);

    if OnePerNode(integrate) {
      NominalSweepLength(ssNormalizedTime, S, integrate, jump, allSsFinal, [], 0);
    }
    if |allSs| != n {
      out := Throw(RuntimeError(SizeIncorrectMessage));
    } else {
      out := Pass;
    }
  }

  // ---------------------------------------------------------------------------
  // Adaptive integration

  /** An adaptive integrator from an initial packed value function over a
      time interval: the (time, sample) pairs its observer records. */
  type IntegrateAdaptive = (Vector, real, real) -> seq<(real, Vector)>

  /** The observer always records the initial sample. */
  ghost predicate ObservesStart(integrate: IntegrateAdaptive) {
    forall x, t0, t1 :: |integrate(x, t0, t1)| > 0
  }

  function Times(obs: seq<(real, Vector)>): (r: seq<real>)
    ensures |r| == |obs|
  {
    seq(|obs|, k requires 0 <= k < |obs| => obs[k].0)
  }

  function Samples(obs: seq<(real, Vector)>): (r: seq<Vector>)
    ensures |r| == |obs|
  {
    seq(|obs|, k requires 0 <= k < |obs| => obs[k].1)
  }

  /** The outputs of the adaptive pass over intervals `i` onwards of the
      switching times `sw`: the recorded times, the recorded samples and
      the post-event indices, each appended to what was recorded before. */
  datatype AdaptiveTrace = AdaptiveTrace(times: seq<real>, samples: seq<Vector>, postEvents: seq<int>)

  function AdaptiveSweep(sw: seq<real>, integrate: IntegrateAdaptive, jump: JumpMap,
                         x0: Vector, acc: AdaptiveTrace, i: nat): (r: AdaptiveTrace)
    requires i < |sw| - 1
    requires ObservesStart(integrate)
    decreases |sw| - 1 - i
  {
    var t0, t1 := sw[i], sw[i + 1];
    var obs := integrate(x0, t0, t1);
    var times := acc.times + Times(obs);
    var samples := acc.samples + Samples(obs);
    if i + 1 == |sw| - 1 then AdaptiveTrace(times, samples, acc.postEvents)
    else AdaptiveSweep(sw, integrate, jump, jump(sw[i + 1], samples[|samples| - 1]),
                       AdaptiveTrace(times, samples, acc.postEvents + [|samples|]), i + 1)
  }

  /** The recorded times and samples stay paired; the post-event indices
      are non-decreasing, never exceed the number of samples and never
      point at the start. */
  predicate TraceWellFormed(tr: AdaptiveTrace) {
    |tr.times| == |tr.samples| &&
    (forall a, b :: 0 <= a <= b < |tr.postEvents| ==> tr.postEvents[a] <= tr.postEvents[b]) &&
    (forall a :: 0 <= a < |tr.postEvents| ==> 0 < tr.postEvents[a] <= |tr.samples|)
  }

  /** From interval `i` on, one post-event index is recorded per interval
      except the last, and the trace stays well formed. */
  lemma {:induction false} AdaptiveSweepShape(sw: seq<real>, integrate: IntegrateAdaptive, jump: JumpMap,
                                              x0: Vector, acc: AdaptiveTrace, i: nat)
    requires i < |sw| - 1
    requires ObservesStart(integrate)
    requires TraceWellFormed(acc)
    ensures var r := AdaptiveSweep(sw, integrate, jump, x0, acc, i);
            TraceWellFormed(r) &&
            |r.postEvents| == |acc.postEvents| + |sw| - 2 - i &&
            r.postEvents[..|acc.postEvents|] == acc.postEvents &&
            |r.samples| > |acc.samples|
    decreases |sw| - 1 - i
  {
    var t0, t1 := sw[i], sw[i + 1];
    var obs := integrate(x0, t0, t1);
    var times := acc.times + Times(obs);
    var samples := acc.samples + Samples(obs);
    if i + 1 < |sw| - 1 {
      var next := AdaptiveTrace(times, samples, acc.postEvents + [|samples|]);
      assert TraceWellFormed(next) by {
        forall a | 0 <= a < |acc.postEvents|
          ensures next.postEvents[a] <= |samples|
        {
          assert acc.postEvents[a] <= |acc.samples|;
        }
      }
      AdaptiveSweepShape(sw, integrate, jump, jump(sw[i + 1], samples[|samples| - 1]), next, i + 1);
      var r := AdaptiveSweep(sw, integrate, jump, jump(sw[i + 1], samples[|samples| - 1]), next, i + 1);
      assert r.postEvents[..|acc.postEvents|] == (r.postEvents[..|next.postEvents|])[..|acc.postEvents|];
    }
  }

  /** `integrateRiccatiEquationAdaptiveTime`: integrates adaptively between
      the normalised switching times, recording the post-event index (the
      number of samples so far) and applying the jump map after every
      interval but the last. */
  method IntegrateRiccatiEquationAdaptiveTime(
      nominalTime: seq<real>, events: seq<int>, allSsFinal: Vector,
      integrate: IntegrateAdaptive, jump: JumpMap)
    returns (ssNormalizedTime: seq<real>, ssNormalizedEvents: seq<int>, allSs: seq<Vector>)
    requires |nominalTime| > 0
    requires forall k :: 0 <= k < |events| ==> 0 <= events[k] < |nominalTime|
    requires ObservesStart(integrate)
    ensures AdaptiveTrace(ssNormalizedTime, allSs, ssNormalizedEvents) ==
            AdaptiveSweep(AdaptiveSwitchingTimes(nominalTime, events), integrate, jump, allSsFinal,
                          AdaptiveTrace([], [], []), 0)
    ensures |ssNormalizedEvents| == |events|
    ensures |ssNormalizedTime| == |allSs| > 0
    ensures forall a, b :: 0 <= a <= b < |ssNormalizedEvents| ==> ssNormalizedEvents[a] <= ssNormalizedEvents[b]
    ensures forall a :: 0 <= a < |ssNormalizedEvents| ==> 0 < ssNormalizedEvents[a] <= |allSs|
  {
    var m := |events|;
    var sw := BuildAdaptiveSwitchingTimes(nominalTime, events);
    ghost var whole := AdaptiveSweep(sw, integrate, jump, allSsFinal, AdaptiveTrace([], [], []), 0);
    AdaptiveSweepShape(sw, integrate, jump, allSsFinal, AdaptiveTrace([], [], []), 0);

    ssNormalizedTime, allSs, ssNormalizedEvents := [], [], [];
    var x := allSsFinal;
    var i := 0;
    while i <= m
      invariant 0 <= i <= m + 1
      invariant i <= m ==>
                  AdaptiveSweep(sw, integrate, jump, x, AdaptiveTrace(ssNormalizedTime, allSs, ssNormalizedEvents), i) == whole
      invariant i == m + 1 ==> AdaptiveTrace(ssNormalizedTime, allSs, ssNormalizedEvents) == whole
    {
      var obs := integrate(x, sw[i], sw[i + 1]);
      ssNormalizedTime := ssNormalizedTime + Times(obs);
      allSs := allSs + Samples(obs);
      if i < m {
        ssNormalizedEvents := ssNormalizedEvents + [|allSs|];
        x := jump(sw[i + 1], allSs[|allSs| - 1]);
      }
      i := i + 1;
    }
  }

  // ---------------------------------------------------------------------------
  // De-normalisation

  /** Unpacks a packed value-function sample into (Sm, Sv, s). */
  type Unpack = Vector -> (Matrix, Vector, real)

  /** The de-normalised backward-pass output of one partition. */
  datatype ValueFunctionTrajectory = ValueFunctionTrajectory(
    time: seq<real>, Sm: seq<Matrix>, Sv: seq<Vector>, s: seq<real>)

  /** Entry k of every output comes from normalised sample outputN - 1 - k,
      with its time negated. */
  predicate Denormalizes(out: ValueFunctionTrajectory, normalized: seq<real>, allSs: seq<Vector>, unpack: Unpack)
    requires |allSs| >= |normalized|
  {
    var n := |normalized|;
    |out.time| == n && |out.Sm| == n && |out.Sv| == n && |out.s| == n &&
    forall k :: 0 <= k < n ==>
      out.time[k] == -normalized[n - 1 - k] &&
      (out.Sm[k], out.Sv[k], out.s[k]) == unpack(allSs[n - 1 - k])
  }

  /** The de-normalisation loop at the end of `riccatiEquationsWorker`. */
  method Denormalize(normalized: seq<real>, allSs: seq<Vector>, unpack: Unpack)
    returns (out: ValueFunctionTrajectory)
    requires |allSs| >= |normalized|
    ensures Denormalizes(out, normalized, allSs, unpack)
    ensures out.time == NegateReverse(normalized)
  {
    var n := |normalized|;
    var time, Sm, Sv, s := [], [], [], [];
    var k := 0;
    while k < n
      invariant 0 <= k <= n
      invariant |time| == k && |Sm| == k && |Sv| == k && |s| == k
      invariant forall j :: 0 <= j < k ==>
                  time[j] == -normalized[n - 1 - j] &&
                  (Sm[j], Sv[j], s[j]) == unpack(allSs[n - 1 - j])
    {
      var packed := unpack(allSs[n - 1 - k]);
      time := time + [-normalized[n - 1 - k]];
      Sm := Sm + [packed.0];
      Sv := Sv + [packed.1];
      s := s + [packed.2];
      k := k + 1;
    }
    out := ValueFunctionTrajectory(time, Sm, Sv, s);
  }

  /** When the normalisation negates and reverses the nominal time, the
      de-normalised time of the nominal-time pass is the nominal time. */
  lemma DenormalizedNominalTime(nominalTime: seq<real>, out: ValueFunctionTrajectory, allSs: seq<Vector>, unpack: Unpack)
    requires |allSs| >= |nominalTime|
    requires Denormalizes(out, NegateReverse(nominalTime), allSs, unpack)
    ensures out.time == nominalTime
  {
    var normalized := NegateReverse(nominalTime);
    var n := |nominalTime|;
    assert |out.time| == n;
    forall k | 0 <= k < n
      ensures out.time[k] == nominalTime[k]
    {
      var m := n - 1 - k;
      assert normalized[m] == -nominalTime[n - 1 - m];
      assert out.time[k] == -normalized[m];
    }
  }

  // ---------------------------------------------------------------------------
  // The backward pass of one partition

  /** What the backward pass of one partition produces from the packed
      final value function `x0`: the normalised time and post-event
      indices, the outcome, and, when it completes, the de-normalised value
      function trajectory. */
  ghost predicate BackwardPassResult(
      useNominalTime: bool, times: seq<real>, events: seq<int>, x0: Vector, unpack: Unpack,
      normalize: (seq<real>, seq<int>) -> (seq<real>, seq<int>),
      integrateTimes: IntegrateTimes, integrateAdaptive: IntegrateAdaptive, jump: JumpMap,
      normalizedTime: seq<real>, normalizedEvents: seq<int>, output: ValueFunctionTrajectory, out: Outcome)
    requires |times| > 0 && EventsInside(events, |times|)
    requires |normalize(times, events).0| == |times|
    requires ObservesNonEmpty(integrateTimes) && ObservesStart(integrateAdaptive)
  {
    if useNominalTime then
      (normalizedTime, normalizedEvents) == normalize(times, events) &&
      ValidSwitchingIndices(NominalSwitchingIndices(|times|, events), |times|) &&
      var allSs := NominalSweep(normalizedTime, NominalSwitchingIndices(|times|, events),
                                integrateTimes, jump, x0, [], 0);
      out == (if |allSs| == |times| then Pass else Throw(RuntimeError(SizeIncorrectMessage))) &&
      (out.Pass? ==> Denormalizes(output, normalizedTime, allSs, unpack))
    else
      var trace := AdaptiveSweep(AdaptiveSwitchingTimes(times, events), integrateAdaptive, jump, x0,
                                 AdaptiveTrace([], [], []), 0);
      out == Pass && normalizedTime == trace.times && normalizedEvents == trace.postEvents &&
      |trace.samples| == |trace.times| &&
      Denormalizes(output, trace.times, trace.samples, unpack)
  }

  /** A pass that raises says nothing about the value function trajectory:
      whatever the caller keeps there satisfies the result. */
  lemma BackwardPassResultOnThrow(
      useNominalTime: bool, times: seq<real>, events: seq<int>, x0: Vector, unpack: Unpack,
      normalize: (seq<real>, seq<int>) -> (seq<real>, seq<int>),
      integrateTimes: IntegrateTimes, integrateAdaptive: IntegrateAdaptive, jump: JumpMap,
      normalizedTime: seq<real>, normalizedEvents: seq<int>, output: ValueFunctionTrajectory, out: Outcome,
      kept: ValueFunctionTrajectory)
    requires |times| > 0 && EventsInside(events, |times|)
    requires |normalize(times, events).0| == |times|
    requires ObservesNonEmpty(integrateTimes) && ObservesStart(integrateAdaptive)
    requires BackwardPassResult(useNominalTime, times, events, x0, unpack, normalize, integrateTimes,
                                integrateAdaptive, jump, normalizedTime, normalizedEvents, output, out)
    requires out.Throw?
    ensures BackwardPassResult(useNominalTime, times, events, x0, unpack, normalize, integrateTimes,
                               integrateAdaptive, jump, normalizedTime, normalizedEvents, kept, out)
  {
  }

  /** The integration and de-normalisation of `riccatiEquationsWorker`,
      over the nominal time nodes or adaptively. */
  method BackwardPass(
      useNominalTime: bool, times: seq<real>, events: seq<int>, x0: Vector, unpack: Unpack,
      normalize: (seq<real>, seq<int>) -> (seq<real>, seq<int>),
      integrateTimes: IntegrateTimes, integrateAdaptive: IntegrateAdaptive, jump: JumpMap)
    returns (normalizedTime: seq<real>, normalizedEvents: seq<int>, output: ValueFunctionTrajectory, out: Outcome)
    requires |times| > 0 && EventsInside(events, |times|)
    requires |normalize(times, events).0| == |times|
    requires ObservesNonEmpty(integrateTimes) && ObservesStart(integrateAdaptive)
    ensures BackwardPassResult(useNominalTime, times, events, x0, unpack, normalize, integrateTimes,
                               integrateAdaptive, jump, normalizedTime, normalizedEvents, output, out)
    ensures useNominalTime && out.Pass? && normalize(times, events).0 == NegateReverse(times) ==>
              output.time == times
    ensures !useNominalTime ==> out.Pass? && |normalizedEvents| == |events|
  {
    var allSs: seq<Vector>;
    if useNominalTime {
      normalizedTime, normalizedEvents, allSs, out :=
        IntegrateRiccatiEquationNominalTime(times, events, x0, normalize, integrateTimes, jump);
    } else {
      normalizedTime, normalizedEvents, allSs :=
        IntegrateRiccatiEquationAdaptiveTime(times, events, x0, integrateAdaptive, jump);
      out := Pass;
    }
    if out.Pass? {
      output := Denormalize(normalizedTime, allSs, unpack);
      if useNominalTime && normalizedTime == NegateReverse(times) {
        DenormalizedNominalTime(times, output, allSs, unpack);
      }
    } else {
      output := ValueFunctionTrajectory([], [], [], []);
    }
  }
}
