/**
 * Capture-source selection at startup and the frame loop of the monitor:
 * reading a frame (with the consecutive-failure counter), distance
 * estimation, the virtual distance during stress, the risk score and the
 * state transition pushed to the simulator. Device and network outcomes,
 * the clock and the sine of the wobble are parameters.
 */
module Pipeline {
  import opened Common
  import opened Sensors
  import opened Risk
  import Distance

  /** The capture mode (`CAP_MODE`). */
  datatype CapMode = StreamMode | SnapshotMode | LocalMode | DemoMode

  /** An open capture handle (`CAP_OBJ`): the network stream, or a local device opened through a backend. */
  datatype Capture = StreamCapture | LocalCapture(backend: nat)

  /** Consecutive read failures tolerated before the loop switches source locally. */
  const FAIL_LIMIT: nat := 200

  /** The first backend that reports itself open, trying them in order. */
  method OpenLocalCamera(opens: seq<bool>) returns (cap: Option<Capture>)
    ensures cap.Some? <==> true in opens
    ensures cap.Some? ==> cap.value.LocalCapture? && cap.value.backend < |opens| && opens[cap.value.backend]
    ensures cap.Some? ==> forall j :: 0 <= j < cap.value.backend ==> !opens[j]
  {
    var i := 0;
    while i < |opens|
      invariant 0 <= i <= |opens|
      invariant forall j :: 0 <= j < i ==> !opens[j]
    {
      if opens[i] {
        return Some(LocalCapture(i));
      }
      i := i + 1;
    }
    return None;
  }

  /**
   * Startup probing in priority order: the network stream if its URL is set
   * and it opens, else the snapshot endpoint if its URL is set, else the
   * first local backend that opens, else the demo generator.
   */
  method SelectSource(streamUrlSet: bool, streamOpens: bool, snapshotUrlSet: bool, backendOpens: seq<bool>)
    returns (mode: CapMode, obj: Option<Capture>)
    ensures mode == StreamMode <==> streamUrlSet && streamOpens
    ensures mode == SnapshotMode <==> !(streamUrlSet && streamOpens) && snapshotUrlSet
    ensures mode == LocalMode <==> !(streamUrlSet && streamOpens) && !snapshotUrlSet && true in backendOpens
    ensures mode == DemoMode <==> !(streamUrlSet && streamOpens) && !snapshotUrlSet && true !in backendOpens
    ensures obj.Some? <==> mode == StreamMode || mode == LocalMode
    ensures mode == StreamMode ==> obj == Some(StreamCapture)
    ensures mode == LocalMode ==>
      && obj.value.LocalCapture? && obj.value.backend < |backendOpens| && backendOpens[obj.value.backend]
      && (forall j :: 0 <= j < obj.value.backend ==> !backendOpens[j])
  {
    mode, obj := DemoMode, None;
    if streamUrlSet && streamOpens {
      mode, obj := StreamMode, Some(StreamCapture);
    }
    if obj.None? && snapshotUrlSet {
      mode := SnapshotMode;
    }
    if obj.None? && mode != SnapshotMode {
      var c := OpenLocalCamera(backendOpens);
      if c.Some? {
        mode, obj := LocalMode, c;
      }
    }
    if obj.None? && mode != SnapshotMode {
      mode := DemoMode;
    }
  }

  /** The failure counter after one read in stream or local mode. */
  function FailStep(count: nat, readOk: bool): (r: nat)
    ensures readOk ==> r == count
    ensures !readOk && count < FAIL_LIMIT ==> r == count + 1
    ensures !readOk && count >= FAIL_LIMIT ==> r == 0
    ensures count <= FAIL_LIMIT ==> r <= FAIL_LIMIT
  {
    if readOk then count else if count + 1 > FAIL_LIMIT then 0 else count + 1
  }

  /** The failure counter after a run of reads. */
  function FailCount(count: nat, results: seq<bool>): nat
    decreases |results|
  {
    if results == [] then count else FailCount(FailStep(count, results[0]), results[1..])
  }

  /** How many reads of the run failed. */
  function Failures(results: seq<bool>): nat
  {
    if results == [] then 0 else (if results[0] then 0 else 1) + Failures(results[1..])
  }

  /** The counter never exceeds the limit. */
  lemma {:induction false} FailCountBounded(count: nat, results: seq<bool>)
    requires count <= FAIL_LIMIT
    ensures FailCount(count, results) <= FAIL_LIMIT
    decreases |results|
  {
    if results != [] {
      FailCountBounded(FailStep(count, results[0]), results[1..]);
    }
  }

  /**
   * Successful reads never reset the counter: until it passes the limit, it
   * counts every failure of the run, however the failures are interleaved
   * with successes.
   */
  lemma {:induction false} FailuresAccumulate(count: nat, results: seq<bool>)
    requires count + Failures(results) <= FAIL_LIMIT
    ensures FailCount(count, results) == count + Failures(results)
    decreases |results|
  {
    if results != [] {
      FailuresAccumulate(FailStep(count, results[0]), results[1..]);
    }
  }

  /** A run of successful reads leaves the counter where it was. */
  lemma {:induction false} SuccessesLeaveCount(count: nat, results: seq<bool>)
    requires forall i :: 0 <= i < |results| ==> results[i]
    ensures FailCount(count, results) == count
    decreases |results|
  {
    if results != [] {
      SuccessesLeaveCount(count, results[1..]);
    }
  }

  /** Only the failure that takes the counter past the limit brings it back to zero. */
  lemma ResetOnlyPastLimit(count: nat, readOk: bool)
    requires count <= FAIL_LIMIT
    ensures FailStep(count, readOk) == 0 <==> (count == 0 && readOk) || (!readOk && count == FAIL_LIMIT)
  {
  }

  /** What step 1 of an iteration produced: a frame from a source, or nothing (the iteration ends). */
  datatype ReadOutcome = Captured | Fetched | Synthetic | Retry

  /** The monitor's frame loop and the state it keeps between iterations. */
  class VideoLoop {
    var capMode: CapMode
    var capture: Option<Capture>
    var snapshotUrlSet: bool
    var consecutiveFail: nat
    var systemState: OpState
    var stressStartedAt: real
    const sim: SensorSimulator
    const aruco: Distance.DistanceEstimator

    constructor (mode: CapMode, obj: Option<Capture>, snapshotUrlSet: bool,
                 sim: SensorSimulator, aruco: Distance.DistanceEstimator)
      ensures capMode == mode && capture == obj && this.snapshotUrlSet == snapshotUrlSet
      ensures this.sim == sim && this.aruco == aruco
      ensures consecutiveFail == 0 && systemState == Running && stressStartedAt == 0.0
    {
      capMode, capture, this.snapshotUrlSet := mode, obj, snapshotUrlSet;
      this.sim, this.aruco := sim, aruco;
      consecutiveFail, systemState, stressStartedAt := 0, Running, 0.0;
    }

    /**
     * Step 1 of an iteration. In stream or local mode `readOk` is the
     * outcome of the device read; in snapshot mode `fetchOk` is the outcome
     * of the fetch. Past the failure limit the loop picks a fallback mode in
     * a local variable only (returned as `demotedTo`): `capMode` never
     * changes, and the next iteration reads the same device again.
     */
    method ReadFrame(readOk: bool, fetchOk: bool) returns (outcome: ReadOutcome, demotedTo: Option<CapMode>)
      modifies this`consecutiveFail
      ensures capMode == old(capMode)
      ensures capMode == StreamMode || capMode == LocalMode ==>
        && consecutiveFail == FailStep(old(consecutiveFail), readOk)
        && outcome == (if readOk then Captured else Retry)
        && demotedTo == (if !readOk && old(consecutiveFail) + 1 > FAIL_LIMIT
                         then Some(if snapshotUrlSet then SnapshotMode else DemoMode) else None)
      ensures capMode == SnapshotMode ==>
        consecutiveFail == old(consecutiveFail) && demotedTo.None? && outcome == (if fetchOk then Fetched else Retry)
      ensures capMode == DemoMode ==>
        consecutiveFail == old(consecutiveFail) && demotedTo.None? && outcome == Synthetic
    {
      demotedTo := None;
      if capMode == StreamMode || capMode == LocalMode {
        if !readOk {
          consecutiveFail := consecutiveFail + 1;
          if consecutiveFail > FAIL_LIMIT {
            var localMode := if snapshotUrlSet then SnapshotMode else DemoMode;
            demotedTo := Some(localMode);
            consecutiveFail := 0;
          }
          return Retry, demotedTo;
        }
        outcome := Captured;
      } else if capMode == SnapshotMode {
        outcome := if fetchOk then Fetched else Retry;
      } else {
        outcome := Synthetic;
      }
    }

    /** Re-evaluate the state for `risk`; push it to the simulator exactly when it changes. */
    method UpdateState(risk: real) returns (pushed: bool)
      modifies this`systemState, sim`state
      ensures systemState == NextState(old(systemState), risk)
      ensures pushed <==> systemState != old(systemState)
      ensures pushed ==> sim.state == systemState
      ensures !pushed ==> sim.state == old(sim.state)
    {
      var next := if risk >= RISK_CRITICAL then Stopped else if risk < RISK_WARNING then Running else systemState;
      pushed := next != systemState;
      if pushed {
        systemState := next;
        sim.SetState(systemState);
      }
    }

    /** The stress-start control: open a window on the simulator and remember when. */
    method StartStress(now: real, seconds: real, intensity: real)
      modifies sim`stressUntil, sim`stressIntensity, this`stressStartedAt
      ensures sim.stressUntil == StressDeadline(now, seconds)
      ensures sim.stressIntensity == Clamp(0.2, 1.0, intensity)
      ensures stressStartedAt == now
    {
      sim.TriggerStress(now, seconds, intensity);
      stressStartedAt := now;
    }

    /**
     * One iteration of the frame loop at time `now`: read, estimate the
     * distance from `frame` (the detections in the frame read), substitute
     * the virtual distance when no marker is seen during stress, score the
     * risk from the current readings and update the state.
     */
    method Step(now: real, readOk: bool, fetchOk: bool, frame: Distance.Frame, wave: real)
      returns (outcome: ReadOutcome, distance: Option<real>, risk: Option<real>)
      requires aruco.Valid()
      modifies this`consecutiveFail, this`systemState, aruco`recent, aruco`ema, sim`state
      ensures aruco.Valid()
      ensures capMode == old(capMode)
      ensures distance.Some? ==> distance.value >= 0.0
      ensures risk.Some? ==> risk.value <= 1.0
      ensures capMode == StreamMode || capMode == LocalMode ==>
        consecutiveFail == FailStep(old(consecutiveFail), readOk) && outcome == (if readOk then Captured else Retry)
      ensures capMode == SnapshotMode ==>
        consecutiveFail == old(consecutiveFail) && outcome == (if fetchOk then Fetched else Retry)
      ensures capMode == DemoMode ==> consecutiveFail == old(consecutiveFail) && outcome == Synthetic
      ensures outcome == Retry ==>
        && aruco.State() == old(aruco.State()) && systemState == old(systemState)
        && sim.state == old(sim.state) && distance.None? && risk.None?
      ensures outcome != Retry ==>
        var raw := Distance.RawDistance(frame, aruco.targetId);
        var u := if raw.None? then None else Some(Distance.Feed(old(aruco.State()), aruco.alpha, raw.value));
        var measured := if u.None? then None else Some(u.value.distance);
        && aruco.State() == (if u.None? then old(aruco.State()) else u.value.filter)
        && distance == EffectiveDistance(measured, Status(sim.stressUntil, now).active, Elapsed(now, stressStartedAt), wave)
        && risk == Some(ComputeRisk(sim.data, distance))
        && systemState == NextState(old(systemState), risk.value)
        && (systemState != old(systemState) ==> sim.state == systemState)
        && (systemState == old(systemState) ==> sim.state == old(sim.state))
    {
      var demoted;
      outcome, demoted := ReadFrame(readOk, fetchOk);
      if outcome == Retry {
        return outcome, None, None;
      }
      distance := aruco.EstimateDistance(frame);
      var st := sim.StressStatus(now);
      if distance.None? && st.active {
        var elapsed := if stressStartedAt == 0.0 then 0.0 else if now - stressStartedAt > 0.0 then now - stressStartedAt else 0.0;
        var squeeze := if elapsed / 8.0 < 1.0 then elapsed / 8.0 else 1.0;
        var base := 1.6 - 1.0 * squeeze;
        var d := base + 0.05 * wave;
        distance := Some(if d > 0.45 then d else 0.45);
      }
      var sensors := sim.GetData();
      var r := ComputeRisk(sensors, distance);
      risk := Some(r);
      var pushed := UpdateState(r);
    }
  }
}
