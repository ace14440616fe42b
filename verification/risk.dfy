/**
 * The monitor's decision logic: the risk score that fuses the sensor
 * readings with the marker distance, the two-threshold state machine, the
 * virtual distance substituted during a stress window when no marker is
 * seen, and the operator suggestions derived from the risk.
 */
module Risk {
  import opened Common
  import opened Sensors

  /** Below this risk the machine runs. */
  const RISK_WARNING: real := 0.50
  /** At or above this risk the machine stops. */
  const RISK_CRITICAL: real := 0.70

  /** `min(1.0, x)`: a reading normalised and capped at one. */
  function Cap(x: real): (r: real)
    ensures r <= 1.0 && r <= x
    ensures x <= 1.0 ==> r == x
    ensures x >= 1.0 ==> r == 1.0
  {
    if x < 1.0 then x else 1.0
  }

  /** The proximity term: 1 at distance 0 falling to 0 at two metres; 0 when the distance is unknown. */
  function Proximity(d: Option<real>): (p: real)
    ensures p >= 0.0
    ensures d.None? ==> p == 0.0
    ensures d.Some? && d.value >= 2.0 ==> p == 0.0
    ensures d.Some? && d.value >= 0.0 ==> p <= 1.0
    ensures d.Some? && d.value <= 2.0 ==> p == 1.0 - d.value / 2.0
  {
    match d
    case None => 0.0
    case Some(x) =>
      var q := 1.0 - (if x / 2.0 < 1.0 then x / 2.0 else 1.0);
      if q > 0.0 then q else 0.0
  }

  /** All five readings the score uses are non-negative. */
  predicate NonNegative(s: Snapshot) {
    s.temperature >= 0.0 && s.pressure >= 0.0 && s.load >= 0.0 && s.vibration >= 0.0 && s.humidity >= 0.0
  }

  /**
   * The risk score before rounding: five capped readings and the proximity
   * term, weighted 0.25, 0.20, 0.15, 0.15, 0.10 and 0.15 (summing to one).
   */
  function ComputeRisk(s: Snapshot, d: Option<real>): (r: real)
    ensures d.None? || d.value >= 0.0 ==> r <= 1.0
    ensures NonNegative(s) ==> r >= 0.0
  {
    0.25 * Cap(s.temperature / 100.0)
    + 0.20 * Cap(s.pressure / 5.0)
    + 0.15 * Cap(s.load / 120.0)
    + 0.15 * Cap(s.vibration / 12.0)
    + 0.10 * Cap(s.humidity / 80.0)
    + 0.15 * Proximity(d)
  }

  /** An unknown distance scores exactly like any distance of two metres or more. */
  lemma UnknownDistanceScoresAsFar(s: Snapshot, d: real)
    requires d >= 2.0
    ensures ComputeRisk(s, None) == ComputeRisk(s, Some(d))
  {
  }

  /** An unknown distance never scores higher than a known one. */
  lemma UnknownDistanceNeverRaisesRisk(s: Snapshot, d: real)
    ensures ComputeRisk(s, None) <= ComputeRisk(s, Some(d))
  {
  }

  /** Raising any reading, the others held, never lowers the score. */
  lemma RiskMonotoneInReadings(s: Snapshot, t: Snapshot, d: Option<real>)
    requires s.temperature <= t.temperature && s.pressure <= t.pressure && s.load <= t.load
    requires s.vibration <= t.vibration && s.humidity <= t.humidity
    ensures ComputeRisk(s, d) <= ComputeRisk(t, d)
  {
  }

  /** Moving the marker further away never raises the score. */
  lemma RiskAntitoneInDistance(s: Snapshot, near: real, far: real)
    requires near <= far
    ensures ComputeRisk(s, Some(far)) <= ComputeRisk(s, Some(near))
  {
  }

  /** The state after one evaluation of the hysteresis rule. */
  function NextState(prev: OpState, risk: real): (next: OpState)
    ensures risk >= RISK_CRITICAL ==> next == Stopped
    ensures risk < RISK_WARNING ==> next == Running
    ensures RISK_WARNING <= risk < RISK_CRITICAL ==> next == prev
  {
    if risk >= RISK_CRITICAL then Stopped else if risk < RISK_WARNING then Running else prev
  }

  /** The state only ever changes by crossing a threshold: stopping needs the critical level, restarting needs less than the warning level. */
  lemma ChangesNeedThresholds(prev: OpState, risk: real)
    ensures prev == Running && NextState(prev, risk) == Stopped ==> risk >= RISK_CRITICAL
    ensures prev == Stopped && NextState(prev, risk) == Running ==> risk < RISK_WARNING
  {
  }

  /** Re-evaluating with the same risk changes nothing more. */
  lemma NextStateIdempotent(prev: OpState, risk: real)
    ensures NextState(NextState(prev, risk), risk) == NextState(prev, risk)
  {
  }

  /** The states after each risk in turn, starting from `s`. */
  function States(s: OpState, risks: seq<real>): (out: seq<OpState>)
    ensures |out| == |risks|
    ensures |risks| > 0 ==> out[0] == NextState(s, risks[0])
    ensures forall i :: 0 < i < |risks| ==> out[i] == NextState(out[i - 1], risks[i])
    decreases |risks|
  {
    if risks == [] then []
    else
      var n := NextState(s, risks[0]);
      var rest := States(n, risks[1..]);
      assert forall i :: 1 < i < |risks| ==> risks[1..][i - 1] == risks[i];
      [n] + rest
  }

  /** Every risk lies in the holding band. */
  predicate InBand(risks: seq<real>) {
    forall i :: 0 <= i < |risks| ==> RISK_WARNING <= risks[i] < RISK_CRITICAL
  }

  /** However long the risk stays in the holding band, the state holds. */
  lemma {:induction false} BandHoldsState(s: OpState, risks: seq<real>)
    requires InBand(risks)
    ensures forall i :: 0 <= i < |risks| ==> States(s, risks)[i] == s
    decreases |risks|
  {
    if risks != [] {
      assert InBand(risks[1..]) by {
        forall i | 0 <= i < |risks[1..]| ensures RISK_WARNING <= risks[1..][i] < RISK_CRITICAL {
          assert risks[1..][i] == risks[i + 1];
        }
      }
      BandHoldsState(s, risks[1..]);
      var out := States(s, risks);
      forall i | 0 <= i < |risks| ensures out[i] == s {
        if i > 0 { assert out[i] == States(s, risks[1..])[i - 1]; }
      }
    }
  }

  /** From RUNNING, risks 0.3, 0.6, 0.6, 0.8, 0.4 give RUNNING, RUNNING, RUNNING, STOPPED, RUNNING. */
  lemma TraceFromRunning()
    ensures States(Running, [0.3, 0.6, 0.6, 0.8, 0.4]) == [Running, Running, Running, Stopped, Running]
  {
  }

  /** From STOPPED, risks 0.55, 0.45 give STOPPED, RUNNING. */
  lemma TraceFromStopped()
    ensures States(Stopped, [0.55, 0.45]) == [Stopped, Running]
  {
  }

  /** Seconds since the stress window was started; zero when it never was (`stress_started_at` falsy). */
  function Elapsed(now: real, startedAt: real): (e: real)
    ensures e >= 0.0
    ensures startedAt == 0.0 ==> e == 0.0
    ensures startedAt != 0.0 && now >= startedAt ==> e == now - startedAt
    ensures startedAt != 0.0 && now < startedAt ==> e == 0.0
  {
    if startedAt == 0.0 then 0.0
    else if now - startedAt > 0.0 then now - startedAt
    else 0.0
  }

  /** How far the virtual squeeze has progressed: linear over eight seconds, then complete. */
  function Squeeze(elapsed: real): (q: real)
    ensures elapsed >= 0.0 ==> 0.0 <= q <= 1.0
    ensures elapsed >= 8.0 ==> q == 1.0
    ensures elapsed <= 8.0 ==> q == elapsed / 8.0
  {
    if elapsed / 8.0 < 1.0 then elapsed / 8.0 else 1.0
  }

  /** The virtual distance before wobble: 1.6 m narrowing to 0.6 m. */
  function SqueezeBase(elapsed: real): (b: real)
    ensures elapsed >= 0.0 ==> 0.6 <= b <= 1.6
    ensures elapsed >= 8.0 ==> b == 0.6
  {
    1.6 - 1.0 * Squeeze(elapsed)
  }

  /** The virtual distance: the base plus a wobble of 0.05 times `wave` (= sin(3 * elapsed)), floored at 0.45 m. */
  function VirtualDistance(elapsed: real, wave: real): (v: real)
    ensures v >= 0.45
    ensures elapsed >= 0.0 && -1.0 <= wave <= 1.0 ==> v <= 1.65
    ensures elapsed >= 8.0 && -1.0 <= wave <= 1.0 ==> v <= 0.65
  {
    var x := SqueezeBase(elapsed) + 0.05 * wave;
    if x > 0.45 then x else 0.45
  }

  /** The distance the risk is computed from: the marker's if any, else the virtual one while stress is active. */
  function EffectiveDistance(marker: Option<real>, stressActive: bool, elapsed: real, wave: real): (d: Option<real>)
    ensures marker.Some? ==> d == marker
    ensures marker.None? && !stressActive ==> d.None?
    ensures marker.None? && stressActive ==> d == Some(VirtualDistance(elapsed, wave))
  {
    if marker.None? && stressActive then Some(VirtualDistance(elapsed, wave)) else marker
  }

  /** A virtual distance never pushes the score above one. */
  lemma VirtualDistanceKeepsRiskBounded(s: Snapshot, elapsed: real, wave: real)
    ensures ComputeRisk(s, Some(VirtualDistance(elapsed, wave))) <= 1.0
  {
  }

  /** An operator suggestion. */
  datatype Tip = ShowMarker | Critical | Warning | Safe

  /** The suggestions for a distance and a risk. */
  function Suggestions(d: Option<real>, risk: real): (tips: seq<Tip>)
    ensures |tips| == if d.None? then 2 else 1
    ensures ShowMarker in tips <==> d.None?
    ensures tips[|tips| - 1] == Critical <==> risk >= RISK_CRITICAL
    ensures tips[|tips| - 1] == Safe <==> risk < RISK_WARNING
  {
    var level := if risk >= RISK_CRITICAL then Critical else if risk >= RISK_WARNING then Warning else Safe;
    (if d.None? then [ShowMarker] else []) + [level]
  }

  /** The critical suggestion appears exactly when the state machine is forced to STOPPED, the safe one exactly when it is forced to RUNNING. */
  lemma SuggestionsAgreeWithStates(d: Option<real>, risk: real)
    ensures var last := Suggestions(d, risk)[|Suggestions(d, risk)| - 1];
      && (last == Critical <==> (forall p :: NextState(p, risk) == Stopped))
      && (last == Safe <==> (forall p :: NextState(p, risk) == Running))
  {
    if RISK_WARNING <= risk < RISK_CRITICAL {
      assert NextState(Running, risk) == Running && NextState(Stopped, risk) == Stopped;
    } else if risk < RISK_WARNING {
      assert NextState(Running, risk) == Running;
    } else {
      assert NextState(Stopped, risk) == Stopped;
    }
  }
}
