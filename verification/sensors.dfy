/**
 * The telemetry source: a simulator that keeps a bundle of environmental
 * readings, a stress window (deadline and intensity) and the operational
 * state pushed to it by the monitor. Wall-clock time, the random draws and
 * the sine values of one update are parameters of the operations.
 */
module Sensors {
  import opened Common

  /** The operational state of the machine; the monitor only ever produces these two. */
  datatype OpState = Running | Stopped

  /** One reading of every sensor (the simulator's dictionary has fixed keys). */
  datatype Snapshot = Snapshot(
    temperature: real,
    pressure: real,
    load: real,
    throughput: int,
    vibration: real,
    humidity: real)

  /** The readings the simulator starts with. */
  const BASELINE := Snapshot(25.0, 1.0, 50.0, 100, 1.5, 40.0)

  /** What a stress-status query reports. */
  datatype StressReport = StressReport(active: bool, secondsLeft: int)

  /** Conversion of a real to an integer that truncates toward zero. */
  function Trunc(x: real): (n: int)
    ensures 0.0 <= x ==> 0 <= n && n as real <= x < n as real + 1.0
    ensures x < 0.0 ==> n <= 0 && n as real - 1.0 < x <= n as real
  {
    if x >= 0.0 then x.Floor else -((-x).Floor)
  }

  /** The report of a status query at time `now` for a window ending at `until`. */
  function Status(until: real, now: real): (st: StressReport)
    ensures st.secondsLeft >= 0
    ensures st.active <==> st.secondsLeft > 0
    ensures st.active <==> until - now >= 1.0
    ensures st.secondsLeft as real <= if until > now then until - now else 0.0
    ensures until - now >= 0.0 ==> until - now < st.secondsLeft as real + 1.0
  {
    var remaining := Trunc(until - now);
    var left := if remaining > 0 then remaining else 0;
    StressReport(left > 0, left)
  }

  /** The stress intensity one simulator update uses: the stored one while `now < until`. */
  function TickIntensity(until: real, intensity: real, now: real): (k: real)
    ensures now < until ==> k == intensity
    ensures until <= now ==> k == 0.0
    ensures Status(until, now).active ==> k == intensity
  {
    if now < until then intensity else 0.0
  }

  /** The deadline a stress trigger at `now` sets: at least five seconds away. */
  function StressDeadline(now: real, seconds: real): (until: real)
    ensures until >= now + 5.0
    ensures Trunc(seconds) >= 5 ==> until == now + Trunc(seconds) as real
    ensures Trunc(seconds) < 5 ==> until == now + 5.0
  {
    var s := Trunc(seconds);
    now + (if s > 5 then s else 5) as real
  }

  /**
   * The random and trigonometric inputs of one update. The simulator draws
   * them as the comments say; `DrawsInRange` states those ranges.
   */
  datatype Draws = Draws(
    loadWave: real,        // sin(2*pi*t/18)
    loadNoise: real,       // uniform(-6, 6)
    vibRoll: real,         // random()
    vibSpike: real,        // uniform(0.8, 1.8)
    tempRoll: real,        // random()
    tempSpike: real,       // uniform(2.0, 5.0)
    pressRoll: real,       // random()
    pressSpike: real,      // uniform(0.15, 0.45)
    throughputStep: int,   // randint(-2, 5)
    humidityWave: real,    // sin(t/30)
    humidityNoise: real)   // uniform(-2, 2)

  ghost predicate DrawsInRange(d: Draws) {
    && -1.0 <= d.loadWave <= 1.0 && -6.0 <= d.loadNoise <= 6.0
    && 0.0 <= d.vibRoll < 1.0 && 0.8 <= d.vibSpike <= 1.8
    && 0.0 <= d.tempRoll < 1.0 && 2.0 <= d.tempSpike <= 5.0
    && 0.0 <= d.pressRoll < 1.0 && 0.15 <= d.pressSpike <= 0.45
    && -2 <= d.throughputStep <= 5
    && -1.0 <= d.humidityWave <= 1.0 && -2.0 <= d.humidityNoise <= 2.0
  }

  /** The values temperature, pressure and vibration are drawn toward in one update. */
  datatype Targets = Targets(temperature: real, pressure: real, vibration: real)

  /** The targets of one update, from the new load, the intensity, the draws and the state. */
  function TickTargets(load: real, k: real, d: Draws, state: OpState): (g: Targets)
    ensures DrawsInRange(d) && 0.0 <= load <= 120.0 && 0.0 <= k <= 1.0 ==>
      && 27.5 <= g.temperature <= 111.0
      && 1.05 <= g.pressure <= 5.55
      && 1.7 <= g.vibration <= 14.0
  {
    var temp0 := 28.0 + (load / 120.0) * 70.0 + 8.0 * k;
    var press0 := 1.1 + (load / 120.0) * 3.6 + 0.4 * k;
    var vib0 := 1.8 + (load / 100.0) * 6.0 + (press0 - 1.1) * 0.5 + 1.2 * k;
    var vib1 := if d.vibRoll < 0.03 + 0.05 * k then vib0 + d.vibSpike else vib0;
    var temp1 := if d.tempRoll < 0.02 + 0.03 * k then temp0 + d.tempSpike else temp0;
    var press1 := if d.pressRoll < 0.02 + 0.03 * k then press0 + d.pressSpike else press0;
    if state == Stopped then Targets(temp1 - 0.5, press1 - 0.05, vib1 - 0.1)
    else Targets(temp1, press1, vib1)
  }

  /** A stopped machine lowers every target by a fixed offset, the draws and the load being equal. */
  lemma StoppedLowersTargets(load: real, k: real, d: Draws)
    ensures var run, stop := TickTargets(load, k, d, Running), TickTargets(load, k, d, Stopped);
      stop == Targets(run.temperature - 0.5, run.pressure - 0.05, run.vibration - 0.1)
  {
  }

  /** Move a reading a tenth of the way toward its target. */
  function Approach(x: real, target: real): (y: real)
    ensures Between(x, target, y)
    ensures y - x == (target - x) / 10.0
  {
    x + (target - x) * 0.1
  }

  /** The throughput counter after one update. */
  function NextThroughput(t: int, state: OpState, step: int): (r: int)
    ensures state == Stopped ==> r >= 0 && r <= (if t > 0 then t else 0)
    ensures state == Stopped && t >= 5 ==> r == t - 5
    ensures state == Stopped && t <= 5 ==> r == 0
    ensures state == Running ==> r <= 300 && r <= t + step
    ensures state == Running && t + step <= 300 ==> r == t + step
    ensures state == Running && t + step >= 300 ==> r == 300
  {
    if state == Stopped then (if t - 5 > 0 then t - 5 else 0)
    else if t + step < 300 then t + step else 300
  }

  /** The bounds an update establishes or keeps on the readings. */
  ghost predicate Bounded(s: Snapshot) {
    0.0 <= s.load <= 120.0 && 20.0 <= s.humidity <= 80.0 && s.throughput <= 300
  }

  /** The readings after one update with effective intensity `k`. */
  function NextSnapshot(s: Snapshot, state: OpState, k: real, d: Draws): (r: Snapshot)
    ensures 0.0 <= r.load <= 120.0
    ensures 20.0 <= r.humidity <= 80.0
    ensures s.throughput <= 300 ==> r.throughput <= 300
    ensures Bounded(s) ==> Bounded(r)
    ensures var g := TickTargets(r.load, k, d, state);
      && Between(s.temperature, g.temperature, r.temperature)
      && Between(s.pressure, g.pressure, r.pressure)
      && Between(s.vibration, g.vibration, r.vibration)
  {
    var load := Clamp(0.0, 120.0, 50.0 + 20.0 * d.loadWave + 35.0 * k + d.loadNoise);
    var g := TickTargets(load, k, d, state);
    Snapshot(
      Approach(s.temperature, g.temperature),
      Approach(s.pressure, g.pressure),
      load,
      NextThroughput(s.throughput, state, d.throughputStep),
      Approach(s.vibration, g.vibration),
      Clamp(20.0, 80.0, 40.0 + 5.0 * d.humidityWave + d.humidityNoise))
  }

  /** The simulator object; its methods update its fields in place. */
  class SensorSimulator {
    var interval: real
    var state: OpState
    var data: Snapshot
    var stressUntil: real
    var stressIntensity: real

    constructor (updateInterval: real)
      ensures interval == updateInterval && state == Running && data == BASELINE
      ensures stressUntil == 0.0 && stressIntensity == 0.0
    {
      interval := updateInterval;
      state := Running;
      data := BASELINE;
      stressUntil := 0.0;
      stressIntensity := 0.0;
    }

    /** Record the operational state; nothing else changes. */
    method SetState(s: OpState)
      modifies this`state
      ensures state == s
    {
      state := s;
    }

    /** Open a stress window at time `now`. */
    method TriggerStress(now: real, seconds: real, intensity: real)
      modifies this`stressUntil, this`stressIntensity
      ensures stressUntil == StressDeadline(now, seconds)
      ensures stressIntensity == Clamp(0.2, 1.0, intensity)
    {
      var s := Trunc(seconds);
      stressUntil := now + (if s > 5 then s else 5) as real;
      stressIntensity := if intensity < 0.2 then 0.2 else if 1.0 < intensity then 1.0 else intensity;
    }

    /** Close the stress window. */
    method CancelStress()
      modifies this`stressUntil, this`stressIntensity
      ensures stressUntil == 0.0 && stressIntensity == 0.0
    {
      stressUntil := 0.0;
      stressIntensity := 0.0;
    }

    /** Report the stress window as seen at time `now`. */
    method StressStatus(now: real) returns (st: StressReport)
      ensures st == Status(stressUntil, now)
      ensures st.active ==> now < stressUntil
    {
      var remaining := Trunc(stressUntil - now);
      if remaining < 0 {
        remaining := 0;
      }
      st := StressReport(remaining > 0, remaining);
    }

    /** A copy of the current readings. */
    method GetData() returns (d: Snapshot)
      ensures d == data
    {
      d := data;
    }

    /** One pass of the simulator's update loop at time `now`. */
    method Tick(now: real, d: Draws)
      modifies this`data
      ensures data == NextSnapshot(old(data), state, TickIntensity(stressUntil, stressIntensity, now), d)
    {
      var k := if now < stressUntil then stressIntensity else 0.0;
      var load := 50.0 + 20.0 * d.loadWave + 35.0 * k + d.loadNoise;
      if load > 120.0 { load := 120.0; }
      if load < 0.0 { load := 0.0; }
      var g := TickTargets(load, k, d, state);
      var throughput := NextThroughput(data.throughput, state, d.throughputStep);
      var humidity := 40.0 + 5.0 * d.humidityWave + d.humidityNoise;
      if humidity > 80.0 { humidity := 80.0; }
      if humidity < 20.0 { humidity := 20.0; }
      data := data.(
        load := load,
        throughput := throughput,
        temperature := data.temperature + (g.temperature - data.temperature) * 0.1,
        pressure := data.pressure + (g.pressure - data.pressure) * 0.1,
        vibration := data.vibration + (g.vibration - data.vibration) * 0.1,
        humidity := humidity);
    }
  }

  /** Queried at the instant of the trigger, the window reports its whole length and is active. */
  lemma StatusRightAfterTrigger(now: real, seconds: real)
    ensures var n := Trunc(seconds);
      Status(StressDeadline(now, seconds), now) == StressReport(true, if n > 5 then n else 5)
  {
    var n := Trunc(seconds);
    var m := if n > 5 then n else 5;
    assert StressDeadline(now, seconds) - now == m as real;
  }

  /** A trigger with five seconds reports five seconds left at once. */
  lemma FiveSecondTrigger(now: real)
    ensures Status(StressDeadline(now, 5.0), now) == StressReport(true, 5)
  {
    StatusRightAfterTrigger(now, 5.0);
  }

  /** After a cancel, any query at a non-negative time reports an inactive window. */
  lemma StatusAfterCancel(now: real)
    requires now >= 0.0
    ensures Status(0.0, now) == StressReport(false, 0)
  {
  }

  /** Whenever a status query reports the window active, an update at that instant is stressed. */
  lemma ActiveStatusMeansStressedTick(until: real, intensity: real, now: real)
    ensures Status(until, now).active ==> TickIntensity(until, intensity, now) == intensity
  {
  }

  /**
   * The converse fails: in the last second of a window the query reports it
   * inactive while an update still applies the full intensity.
   */
  lemma LastSecondStillStressed(until: real, intensity: real, now: real)
    requires now < until < now + 1.0
    ensures !Status(until, now).active && Status(until, now).secondsLeft == 0
    ensures TickIntensity(until, intensity, now) == intensity
  {
  }

  /** While running, one update can take the throughput below zero. */
  lemma RunningThroughputHasNoFloor()
    ensures NextThroughput(1, Running, -2) == -1
  {
  }

  /** From any bounded readings (the baseline among them), every sequence of updates keeps the readings bounded. */
  lemma {:induction false} UpdatesStayBounded(s: Snapshot, states: seq<OpState>, ks: seq<real>, ds: seq<Draws>)
    requires Bounded(s)
    requires |states| == |ks| == |ds|
    ensures Bounded(Run(s, states, ks, ds))
    decreases |ds|
  {
    if |ds| > 0 {
      UpdatesStayBounded(NextSnapshot(s, states[0], ks[0], ds[0]), states[1..], ks[1..], ds[1..]);
    }
  }

  /** The readings after a sequence of updates. */
  function Run(s: Snapshot, states: seq<OpState>, ks: seq<real>, ds: seq<Draws>): Snapshot
    requires |states| == |ks| == |ds|
    decreases |ds|
  {
    if |ds| == 0 then s
    else Run(NextSnapshot(s, states[0], ks[0], ds[0]), states[1..], ks[1..], ds[1..])
  }
}
