/** The eco and behaviour accumulator (`useEcoDriving`): classifies every tick of a tracked trip
    (accelerations and brakes, coast-downs, hard corners, idling, keeping to the limit, driving in
    the economical band) and projects the counters onto the eco, smoothness and fatigue-risk
    scores. Timestamps are milliseconds; the clock, the hour of day and the square root used by the
    report are arguments. */
module EcoDriving {
  import opened Common

  const HarshAccelThreshold := 2.5
  const HarshBrakeThreshold := -3.0
  const CoastBrakeThreshold := -1.0
  /** Accelerations of at most this magnitude (m/s²) are neither an acceleration nor a brake. */
  const AccelDeadband := 0.3
  const IdleSpeedThreshold := 2.0
  const EcoSpeedMin := 50.0
  const EcoSpeedMax := 90.0
  const HardCornerG := 0.3
  /** Lateral accelerations of at most this many g are not cornering. */
  const CorneringG := 0.05
  /** Cornering is evaluated only above this speed in km/h. */
  const CorneringSpeed := 5.0
  /** Two ticks further apart than this many milliseconds (or not after one another) are not
      compared. */
  const MaxGapMs := 10000
  const Pi := 3.141592653589793
  const Gravity := 9.81

  /** The previous tick's speed, time and heading. */
  datatype Previous = Previous(speed: Option<real>, timestamp: Option<int>, heading: Option<real>)

  /** The per-tick counters and the speed samples. */
  datatype Ticks = Ticks(tickCount: nat, withinLimitTicks: nat, optimalSpeedTicks: nat, speedSamples: seq<real>)

  /** Accelerations and brakes: counts, harsh ones, coast-downs and the magnitudes seen. */
  datatype Accel = Accel(
    totalAccelerations: nat, harshAccelerations: nat, accelMagnitudes: seq<real>,
    totalBrakes: nat, harshBrakes: nat, coastDownEvents: nat, decelMagnitudes: seq<real>)

  /** Cornering: hard corners, the latch of the corner in progress, the lateral g samples and their
      maximum. */
  datatype Cornering = Cornering(hardCorners: nat, inHardCorner: bool, lateralGSamples: seq<real>, maxLateralG: real)

  /** Idling: seconds idle, idle periods, the idle latch and the time of the last idle tick. */
  datatype Idle = Idle(idleTime: real, idlePeriods: nat, isIdle: bool, lastIdleTick: Option<int>)

  const NoPrevious := Previous(None, None, None)
  const NoTicks := Ticks(0, 0, 0, [])
  const NoAccel := Accel(0, 0, [], 0, 0, 0, [])
  const NoCornering := Cornering(0, false, [], 0.0)
  const NoIdle := Idle(0.0, 0, false, None)

  /** The elapsed time between the previous tick and this one, in seconds, when it can be compared:
      both known and 0 < dt < 10 s. */
  function Gap(previous: Option<int>, timestamp: int): (dt: Option<real>)
    ensures dt.Some? <==> previous.Some? && 0 < timestamp - previous.value < MaxGapMs
    ensures dt.Some? ==> 0.0 < dt.value < 10.0
  {
    if previous.Some? && 0 < timestamp - previous.value < MaxGapMs
    then Some(((timestamp - previous.value) as real) / 1000.0)
    else None
  }

  // ---- Tick counting, keeping to the limit and the economical band ----

  /** A tick keeps to the limit when there is no limit or the speed does not exceed it. */
  predicate WithinLimit(speed: real, limit: Option<real>)
  {
    limit.None? || speed <= limit.value
  }

  /** A tick is at an economical speed inside the 50–90 km/h band, or below it on a road whose
      limit is itself below the band. */
  predicate OptimalSpeed(speed: real, limit: Option<real>)
  {
    (EcoSpeedMin <= speed <= EcoSpeedMax)
    || (0.0 < speed < EcoSpeedMin && limit.Some? && limit.value < EcoSpeedMin)
  }

  function CountTick(t: Ticks, speed: real, limit: Option<real>): (r: Ticks)
    ensures r.tickCount == t.tickCount + 1 && r.speedSamples == t.speedSamples + [speed]
    ensures r.withinLimitTicks == t.withinLimitTicks + (if WithinLimit(speed, limit) then 1 else 0)
    ensures r.optimalSpeedTicks == t.optimalSpeedTicks + (if OptimalSpeed(speed, limit) then 1 else 0)
  {
    var within := if limit.Some? && speed <= limit.value then t.withinLimitTicks + 1 else t.withinLimitTicks;
    var within' := if limit.None? then within + 1 else within;
    var optimal :=
      if EcoSpeedMin <= speed <= EcoSpeedMax then t.optimalSpeedTicks + 1
      else if 0.0 < speed < EcoSpeedMin && limit.Some? && limit.value < EcoSpeedMin then t.optimalSpeedTicks + 1
      else t.optimalSpeedTicks;
    Ticks(t.tickCount + 1, within', optimal, t.speedSamples + [speed])
  }

  /** Neither tick count can overtake the total, and there is one speed sample per tick. */
  predicate TicksValid(t: Ticks)
  {
    t.withinLimitTicks <= t.tickCount && t.optimalSpeedTicks <= t.tickCount && |t.speedSamples| == t.tickCount
  }

  lemma CountTickValid(t: Ticks, speed: real, limit: Option<real>)
    requires TicksValid(t)
    ensures TicksValid(CountTick(t, speed, limit))
  {
  }

  // ---- Acceleration and braking ----

  /** The longitudinal acceleration in m/s² since the previous tick, when the two can be compared. */
  function Acceleration(prevSpeed: Option<real>, prevTimestamp: Option<int>, speed: real, timestamp: int): (a: Option<real>)
    ensures a.Some? <==> prevSpeed.Some? && Gap(prevTimestamp, timestamp).Some?
  {
    var dt := Gap(prevTimestamp, timestamp);
    if prevSpeed.Some? && dt.Some? then Some(((speed - prevSpeed.value) / 3.6) / dt.value) else None
  }

  function Abs(x: real): real { if x < 0.0 then -x else x }

  /** Counting one acceleration: above the dead band an acceleration (harsh above 2.5), below it a
      brake (harsh below -3, a coast-down between -1 and the band), nothing inside it. */
  function CountAccel(c: Accel, accel: Option<real>): (r: Accel)
    ensures accel.None? || -AccelDeadband <= accel.value <= AccelDeadband ==> r == c
    ensures accel.Some? && accel.value > AccelDeadband ==>
      r == c.(totalAccelerations := c.totalAccelerations + 1, accelMagnitudes := c.accelMagnitudes + [accel.value],
              harshAccelerations := c.harshAccelerations + (if accel.value > HarshAccelThreshold then 1 else 0))
    ensures accel.Some? && accel.value < -AccelDeadband ==>
      && r.totalAccelerations == c.totalAccelerations && r.harshAccelerations == c.harshAccelerations
      && r.accelMagnitudes == c.accelMagnitudes
      && r.totalBrakes == c.totalBrakes + 1 && r.decelMagnitudes == c.decelMagnitudes + [Abs(accel.value)]
      && r.harshBrakes == c.harshBrakes + (if accel.value < HarshBrakeThreshold then 1 else 0)
      && r.coastDownEvents == c.coastDownEvents + (if accel.value > CoastBrakeThreshold then 1 else 0)
  {
    if accel.None? then c
    else
      var a := accel.value;
      if a > AccelDeadband then
        c.(totalAccelerations := c.totalAccelerations + 1, accelMagnitudes := c.accelMagnitudes + [a],
           harshAccelerations := if a > HarshAccelThreshold then c.harshAccelerations + 1 else c.harshAccelerations)
      else if a < -AccelDeadband then
        var harsh := if a < HarshBrakeThreshold then c.harshBrakes + 1 else c.harshBrakes;
        var coast := if a > CoastBrakeThreshold && a < -AccelDeadband then c.coastDownEvents + 1 else c.coastDownEvents;
        c.(totalBrakes := c.totalBrakes + 1, decelMagnitudes := c.decelMagnitudes + [Abs(a)],
           harshBrakes := harsh, coastDownEvents := coast)
      else c
  }

  /** Harsh accelerations are accelerations; harsh brakes and coast-downs are disjoint kinds of
      brake; one magnitude is kept per acceleration and per brake. */
  predicate AccelValid(c: Accel)
  {
    && c.harshAccelerations <= c.totalAccelerations
    && c.harshBrakes + c.coastDownEvents <= c.totalBrakes
    && |c.accelMagnitudes| == c.totalAccelerations
    && |c.decelMagnitudes| == c.totalBrakes
  }

  lemma CountAccelValid(c: Accel, accel: Option<real>)
    requires AccelValid(c)
    ensures AccelValid(CountAccel(c, accel))
  {
  }

  /** No brake is both harsh and a coast-down. */
  lemma HarshBrakeIsNoCoast(c: Accel, a: real)
    requires a < -AccelDeadband
    ensures var r := CountAccel(c, Some(a));
      (r.harshBrakes - c.harshBrakes) + (r.coastDownEvents - c.coastDownEvents) <= 1
  {
  }

  // ---- Cornering ----

  /** The heading change folded once into (-180, 180] when it leaves [-180, 180]. */
  function WrapHeading(d: real): (r: real)
    ensures r == d || r == d - 360.0 || r == d + 360.0
    ensures -180.0 <= d <= 180.0 ==> r == d
    ensures -540.0 <= d <= 540.0 ==> -180.0 <= r <= 180.0
  {
    var d1 := if d > 180.0 then d - 360.0 else d;
    if d1 < -180.0 then d1 + 360.0 else d1
  }

  /** The lateral acceleration in g of a turn of `dHeading` degrees over `dt` seconds at `speedKmh`. */
  function LateralG(speedKmh: real, dHeading: real, dt: real): (g: real)
    requires dt > 0.0
    ensures speedKmh >= 0.0 ==> g >= 0.0
    ensures dHeading == 0.0 || speedKmh == 0.0 ==> g == 0.0
  {
    var headingRateRad := (Abs(dHeading) * Pi) / 180.0 / dt;
    var lateralAccel := (speedKmh / 3.6) * headingRateRad;
    assert headingRateRad >= 0.0;
    assert speedKmh >= 0.0 ==> lateralAccel >= 0.0;
    lateralAccel / Gravity
  }

  /** The lateral g of this tick, when it is evaluated: a heading now and before, a comparable
      previous time and a speed above 5 km/h. */
  function Lateral(prev: Previous, heading: Option<real>, speed: real, timestamp: int): (g: Option<real>)
    ensures g.Some? ==> heading.Some? && prev.heading.Some? && speed > CorneringSpeed
    ensures g.Some? ==> Gap(prev.timestamp, timestamp).Some?
  {
    var dt := Gap(prev.timestamp, timestamp);
    if heading.Some? && prev.heading.Some? && speed > CorneringSpeed && dt.Some?
    then Some(LateralG(speed, WrapHeading(heading.value - prev.heading.value), dt.value))
    else None
  }

  /** One evaluated (or skipped) lateral sample: samples above 0.05 g are kept, and a hard corner is
      counted on the rising edge above 0.3 g; any evaluated sample at or below 0.3 g ends the
      corner. */
  function CountCorner(c: Cornering, g: Option<real>): (r: Cornering)
    ensures g.None? ==> r == c
    ensures r.hardCorners == c.hardCorners + (if !c.inHardCorner && r.inHardCorner then 1 else 0)
    ensures g.Some? ==> (r.inHardCorner <==> g.value > HardCornerG)
    ensures g.Some? && g.value > CorneringG ==>
      r.lateralGSamples == c.lateralGSamples + [g.value] && r.maxLateralG == Max(c.maxLateralG, g.value)
    ensures g.Some? && g.value <= CorneringG ==>
      r.lateralGSamples == c.lateralGSamples && r.maxLateralG == c.maxLateralG
  {
    if g.None? then c
    else if g.value > CorneringG then
      var samples := c.lateralGSamples + [g.value];
      var max := if g.value > c.maxLateralG then g.value else c.maxLateralG;
      if g.value > HardCornerG then
        if !c.inHardCorner then Cornering(c.hardCorners + 1, true, samples, max)
        else Cornering(c.hardCorners, c.inHardCorner, samples, max)
      else Cornering(c.hardCorners, false, samples, max)
    else c.(inHardCorner := false)
  }

  /** A corner in progress has been counted, each hard corner left a sample behind, every sample
      is more than 0.05 g and at most the maximum. */
  ghost predicate CorneringValid(c: Cornering)
  {
    && (c.inHardCorner ==> c.hardCorners > 0)
    && c.hardCorners <= |c.lateralGSamples|
    && c.maxLateralG >= 0.0
    && forall i :: 0 <= i < |c.lateralGSamples| ==> CorneringG < c.lateralGSamples[i] <= c.maxLateralG
  }

  lemma CountCornerValid(c: Cornering, g: Option<real>)
    requires CorneringValid(c)
    ensures CorneringValid(CountCorner(c, g))
  {
    var r := CountCorner(c, g);
    if g.Some? && g.value > CorneringG {
      assert forall i :: 0 <= i < |c.lateralGSamples| ==> r.lateralGSamples[i] == c.lateralGSamples[i];
    }
  }

  /** A sustained hard corner counts once: a second sample above 0.3 g right after one adds no
      corner. */
  lemma SustainedCornerCountsOnce(c: Cornering, g1: real, g2: real)
    requires g1 > HardCornerG && g2 > HardCornerG
    ensures CountCorner(CountCorner(c, Some(g1)), Some(g2)).hardCorners <= c.hardCorners + 1
  {
  }

  /** Leaving the corner (an evaluated sample at or below 0.3 g) re-arms the count. */
  lemma NewCornerAfterRelease(c: Cornering, low: real, g: real)
    requires low <= HardCornerG && g > HardCornerG
    ensures CountCorner(CountCorner(c, Some(low)), Some(g)).hardCorners == c.hardCorners + 1
  {
  }

  // ---- Idling ----

  /** One tick of the idle accounting: entering idle (below 2 km/h) opens a period; staying idle
      adds the seconds since the last idle tick; any faster tick ends the period. */
  function CountIdle(i: Idle, speed: real, timestamp: int): (r: Idle)
    ensures r.isIdle <==> speed < IdleSpeedThreshold
    ensures r.idlePeriods == i.idlePeriods + (if !i.isIdle && r.isIdle then 1 else 0)
    ensures !(i.isIdle && r.isIdle) ==> r.idleTime == i.idleTime
    ensures i.isIdle && r.isIdle && i.lastIdleTick.Some? ==>
      r.idleTime == i.idleTime + ((timestamp - i.lastIdleTick.value) as real) / 1000.0
  {
    if speed < IdleSpeedThreshold then
      if !i.isIdle then Idle(i.idleTime, i.idlePeriods + 1, true, Some(timestamp))
      else if i.lastIdleTick.Some? then
        Idle(i.idleTime + ((timestamp - i.lastIdleTick.value) as real) / 1000.0, i.idlePeriods, i.isIdle, Some(timestamp))
      else i
    else i.(isIdle := false, lastIdleTick := None)
  }

  /** The idle latch is set exactly when the time of the last idle tick is kept. */
  predicate IdleValid(i: Idle)
  {
    i.isIdle <==> i.lastIdleTick.Some?
  }

  lemma CountIdleValid(i: Idle, speed: real, timestamp: int)
    requires IdleValid(i)
    ensures IdleValid(CountIdle(i, speed, timestamp))
  {
  }

  // ---- The report ----

  /** The fields of `EcoReport`. */
  datatype EcoReport = EcoReport(
    ecoScore: int, smoothnessScore: int, fatigueRiskScore: int,
    harshAccelerations: nat, harshBrakes: nat, hardCorners: nat, totalAccelerations: nat, totalBrakes: nat,
    idleTime: real, idlePeriods: nat, speedDisciplinePercent: int, optimalSpeedPercent: int,
    avgAcceleration: real, avgDeceleration: real, avgLateralG: real, maxLateralG: real,
    coastDownEvents: nat, speedVariance: real)

  /** `Σ (s − m)²`. */
  function SumSquares(s: seq<real>, m: real): (r: real)
    ensures r >= 0.0
  {
    if s == [] then 0.0
    else
      var d := s[|s| - 1] - m;
      assert d * d >= 0.0 by {
        if d < 0.0 {
          assert d * d == (-d) * (-d);
        }
      }
      SumSquares(s[..|s| - 1], m) + d * d
  }

  /** The population variance of the speed samples, or 0 with fewer than two. */
  function Variance(s: seq<real>): (v: real)
    ensures v >= 0.0
  {
    if |s| > 1 then SumSquares(s, Mean(s)) / (|s| as real) else 0.0
  }

  /** `Math.round(x * 100) / 100`. */
  function RoundCents(x: real): (r: real)
    ensures x - 0.005 < r <= x + 0.005
  {
    (Round(x * 100.0) as real) / 100.0
  }

  /** The share of harsh events among accelerations and brakes, 0 without any event. */
  function HarshRatio(harshEvents: nat, totalEvents: nat): (r: real)
    ensures totalEvents == 0 ==> r == 0.0
    ensures harshEvents <= totalEvents ==> 0.0 <= r <= 1.0
  {
    if totalEvents > 0 then (harshEvents as real) / (totalEvents as real) else 0.0
  }

  /** The smoothness score: 100 times the share of events that were not harsh (all when there
      were none), less 4 points per hard corner up to 20. */
  function SmoothnessScore(harshEvents: nat, totalEvents: nat, hardCorners: nat): (r: int)
    ensures 0 <= r <= 100
  {
    var smoothRatio := if totalEvents > 0 then 1.0 - (harshEvents as real) / (totalEvents as real) else 1.0;
    var cornerPenalty := Min(20.0, (hardCorners as real) * 4.0);
    Score(smoothRatio * 100.0 - cornerPenalty)
  }

  /** With no harsh event the smoothness score is at least 80, and 100 without hard corners. */
  lemma SmoothWithoutHarshEvents(totalEvents: nat, hardCorners: nat)
    ensures SmoothnessScore(0, totalEvents, hardCorners) >= 80
    ensures hardCorners == 0 ==> SmoothnessScore(0, totalEvents, hardCorners) == 100
  {
    var raw := 100.0 - Min(20.0, (hardCorners as real) * 4.0);
    assert (if totalEvents > 0 then 1.0 - HarshRatio(0, totalEvents) else 1.0) * 100.0 - Min(20.0, (hardCorners as real) * 4.0) == raw;
    assert 0.0 <= raw <= 100.0;
    assert Round(80.0) == 80;
    RoundMonotone(80.0, raw);
  }

  /** When every event was harsh the smoothness score is 0. */
  lemma AllHarshScoresZero(events: nat, hardCorners: nat)
    requires events > 0
    ensures SmoothnessScore(events, events, hardCorners) == 0
  {
    assert (events as real) / (events as real) == 1.0;
  }

  /** More hard corners never raise the smoothness score. */
  lemma SmoothnessMonotoneInCorners(harshEvents: nat, totalEvents: nat, c1: nat, c2: nat)
    requires c1 <= c2
    ensures SmoothnessScore(harshEvents, totalEvents, c2) <= SmoothnessScore(harshEvents, totalEvents, c1)
  {
    var ratio := if totalEvents > 0 then 1.0 - HarshRatio(harshEvents, totalEvents) else 1.0;
    ScoreMonotone(ratio * 100.0 - Min(20.0, (c2 as real) * 4.0), ratio * 100.0 - Min(20.0, (c1 as real) * 4.0));
  }

  /** The eco score before clamping: 100, less up to 30 for harsh events, up to 20 for idling, up
      to 15 for an unsteady speed, then at most 15 back for keeping to the limit and 10 for the
      economical band (less 15 and 5 first), up to 10 more off for hard average accelerations and
      up to 10 for hard corners. */
  function RawEcoScore(harshRatio: real, idleRatio: real, stdDev: real, disciplinePercent: real,
                       optimalPercent: real, avgAccel: real, hardCorners: nat): real
  {
    var s1 := 100.0 - harshRatio * 30.0;
    var s2 := s1 - Min(20.0, idleRatio * 40.0);
    var s3 := s2 - Min(15.0, stdDev / 3.0);
    var s4 := s3 - 15.0 + (disciplinePercent / 100.0) * 15.0;
    var s5 := s4 - 5.0 + (optimalPercent / 100.0) * 10.0;
    var s6 := if avgAccel > HarshAccelThreshold then s5 - Min(10.0, (avgAccel - HarshAccelThreshold) * 5.0) else s5;
    s6 - Min(10.0, (hardCorners as real) * 2.0)
  }

  /** A perfect trip (no harsh event, no idling, always within the limit and in the band, average
      acceleration at or below the harsh threshold, no hard corner) scores 100 for any speed
      deviation up to 15 km/h: the raw score is 105 less a third of the deviation, and the clamp
      caps it at 100. */
  lemma PerfectTripScoresFull(stdDev: real, avgAccel: real)
    requires 0.0 <= stdDev <= 15.0 && avgAccel <= HarshAccelThreshold
    ensures Score(RawEcoScore(0.0, 0.0, stdDev, 100.0, 100.0, avgAccel, 0)) == 100
  {
    assert RawEcoScore(0.0, 0.0, stdDev, 100.0, 100.0, avgAccel, 0) == 105.0 - stdDev / 3.0;
  }

  /** Each penalty lowers the eco score by at most its cap: the raw score never falls below
      100 − 30 − 20 − 15 − 15 − 5 − 10 − 10 when the penalties' inputs are not negative. */
  lemma RawEcoScoreBounds(harshRatio: real, idleRatio: real, stdDev: real, disciplinePercent: real,
                          optimalPercent: real, avgAccel: real, hardCorners: nat)
    requires 0.0 <= harshRatio <= 1.0 && idleRatio >= 0.0 && stdDev >= 0.0
    requires 0.0 <= disciplinePercent <= 100.0 && 0.0 <= optimalPercent <= 100.0
    ensures -5.0 <= RawEcoScore(harshRatio, idleRatio, stdDev, disciplinePercent, optimalPercent, avgAccel, hardCorners) <= 105.0
  {
  }

  /** The fatigue-risk score before clamping: up to 30 after the first hour, up to 20 more after
      the second, up to 15 for a very unsteady speed, 20 at night (23:00–05:00) or 10 in the early
      afternoon (13:00–15:59), and 15 when the recent speed was very unsteady on a drive longer
      than 30 minutes. */
  function RawFatigueRisk(drivingMinutes: real, stdDev: real, hour: int, recentStdDev: Option<real>): (r: real)
    ensures 0.0 <= r <= 100.0
  {
    var f1 := if drivingMinutes > 60.0 then Min(30.0, (drivingMinutes - 60.0) / 4.0) else 0.0;
    var f2 := if drivingMinutes > 120.0 then f1 + Min(20.0, (drivingMinutes - 120.0) / 3.0) else f1;
    var f3 := if stdDev > 20.0 then f2 + Min(15.0, (stdDev - 20.0) / 2.0) else f2;
    var f4 := if hour >= 23 || hour < 5 then f3 + 20.0 else if 13 <= hour <= 15 then f3 + 10.0 else f3;
    if drivingMinutes > 30.0 && recentStdDev.Some? && recentStdDev.value > 25.0 then f4 + 15.0 else f4
  }

  /** A drive of at most an hour in the morning at a steady speed carries no fatigue risk. */
  lemma ShortMorningDriveNoRisk(drivingMinutes: real, stdDev: real, hour: int, recentStdDev: Option<real>)
    requires drivingMinutes <= 60.0 && stdDev <= 20.0 && 5 <= hour < 13
    requires recentStdDev.Some? ==> recentStdDev.value <= 25.0
    ensures Score(RawFatigueRisk(drivingMinutes, stdDev, hour, recentStdDev)) == 0
  {
  }

  /** Night driving always adds fatigue risk: at least 20 points. */
  lemma NightDriveRisk(drivingMinutes: real, stdDev: real, hour: int, recentStdDev: Option<real>)
    requires hour >= 23 || hour < 5
    requires drivingMinutes >= 0.0
    ensures Score(RawFatigueRisk(drivingMinutes, stdDev, hour, recentStdDev)) >= 20
  {
    var raw := RawFatigueRisk(drivingMinutes, stdDev, hour, recentStdDev);
    assert raw >= 20.0;
    assert Round(20.0) == 20;
    ScoreMonotone(20.0, raw);
  }

  /** The last `min(30, |s|)` samples. */
  function Recent(s: seq<real>): (r: seq<real>)
    ensures |r| == (if |s| <= 30 then |s| else 30) && r == s[|s| - |r|..]
  {
    if |s| <= 30 then s else s[|s| - 30..]
  }

  class Tracker {
    var isTracking: bool
    var startTime: int
    var prev: Previous
    var ticks: Ticks
    var accel: Accel
    var corner: Cornering
    var idle: Idle

    ghost predicate Valid()
      reads this
    {
      TicksValid(ticks) && AccelValid(accel) && CorneringValid(corner) && IdleValid(idle)
    }

    constructor ()
      ensures Valid()
      ensures !isTracking && prev == NoPrevious && ticks == NoTicks && accel == NoAccel
      ensures corner == NoCornering && idle == NoIdle
    {
      isTracking, startTime, prev := false, 0, NoPrevious;
      ticks, accel, corner, idle := NoTicks, NoAccel, NoCornering, NoIdle;
    }

    /** `startEcoTracking`: every counter zero, the clock started, tracking on. */
    method StartEcoTracking(now: int)
      modifies this
      ensures Valid()
      ensures isTracking && startTime == now && prev == NoPrevious && ticks == NoTicks
      ensures accel == NoAccel && corner == NoCornering && idle == NoIdle
    {
      prev, ticks, accel, corner, idle := NoPrevious, NoTicks, NoAccel, NoCornering, NoIdle;
      startTime := now;
      isTracking := true;
    }

    /** `stopEcoTracking`: the counters stay for the report. */
    method StopEcoTracking()
      requires Valid()
      modifies this`isTracking
      ensures Valid()
      ensures !isTracking
    {
      isTracking := false;
    }

    /** `resetEco`: every counter zero with tracking off. */
    method ResetEco(now: int)
      modifies this
      ensures Valid()
      ensures !isTracking && startTime == now && prev == NoPrevious && ticks == NoTicks
      ensures accel == NoAccel && corner == NoCornering && idle == NoIdle
    {
      StartEcoTracking(now);
      isTracking := false;
    }

    /** `recordEcoTick(speed, limit, timestamp, heading)`: nothing unless tracking; otherwise one tick
        is counted, the corner and the acceleration since the previous tick are classified when
        the two ticks can be compared, the idle accounting advances, and this tick becomes the
        previous one (its heading only when it has one). */
    method RecordEcoTick(speed: real, limit: Option<real>, timestamp: int, heading: Option<real>)
      requires Valid()
      modifies this`prev, this`ticks, this`accel, this`corner, this`idle
      ensures Valid()
      ensures !isTracking ==> unchanged(this)
      ensures isTracking ==>
        && ticks == CountTick(old(ticks), speed, limit)
        && corner == CountCorner(old(corner), Lateral(old(prev), heading, speed, timestamp))
        && idle == CountIdle(old(idle), speed, timestamp)
        && accel == CountAccel(old(accel), Acceleration(old(prev).speed, old(prev).timestamp, speed, timestamp))
        && prev == Previous(Some(speed), Some(timestamp), if heading.Some? then heading else old(prev).heading)
    {
      if !isTracking {
        return;
      }
      CountTickValid(ticks, speed, limit);
      ticks := CountTick(ticks, speed, limit);

      var g := Lateral(prev, heading, speed, timestamp);
      CountCornerValid(corner, g);
      corner := CountCorner(corner, g);
      if heading.Some? {
        prev := prev.(heading := heading);
      }

      CountIdleValid(idle, speed, timestamp);
      idle := CountIdle(idle, speed, timestamp);

      var a := Acceleration(prev.speed, prev.timestamp, speed, timestamp);
      CountAccelValid(accel, a);
      accel := CountAccel(accel, a);

      prev := prev.(speed := Some(speed), timestamp := Some(timestamp));
    }

    /** `getEcoReport` at time `now` in hour `hour` of the day, with `sqrt` the square root: a
        projection of the counters that changes none of them. */
    function EcoReportAt(now: int, hour: int, sqrt: real -> real): (r: EcoReport)
      reads this
      ensures 0 <= r.ecoScore <= 100 && 0 <= r.smoothnessScore <= 100 && 0 <= r.fatigueRiskScore <= 100
      ensures r.smoothnessScore == SmoothnessScore(accel.harshAccelerations + accel.harshBrakes,
                                                   accel.totalAccelerations + accel.totalBrakes, corner.hardCorners)
      ensures r.harshAccelerations == accel.harshAccelerations && r.harshBrakes == accel.harshBrakes
      ensures r.totalAccelerations == accel.totalAccelerations && r.totalBrakes == accel.totalBrakes
      ensures r.hardCorners == corner.hardCorners && r.coastDownEvents == accel.coastDownEvents
      ensures r.idleTime == idle.idleTime && r.idlePeriods == idle.idlePeriods
      ensures Valid() ==> 0 <= r.speedDisciplinePercent <= 100 && 0 <= r.optimalSpeedPercent <= 100
    {
      var n := if ticks.tickCount == 0 then 1 else ticks.tickCount;
      var discipline := (ticks.withinLimitTicks as real) / (n as real) * 100.0;
      var optimal := (ticks.optimalSpeedTicks as real) / (n as real) * 100.0;
      DisciplineBound(ticks.withinLimitTicks, ticks.tickCount);
      DisciplineBound(ticks.optimalSpeedTicks, ticks.tickCount);

      var samples := ticks.speedSamples;
      var variance := Variance(samples);
      var avgAccel := Mean(accel.accelMagnitudes);
      var avgDecel := Mean(accel.decelMagnitudes);
      var avgLateralG := Mean(corner.lateralGSamples);

      var totalEvents := accel.totalAccelerations + accel.totalBrakes;
      var harshEvents := accel.harshAccelerations + accel.harshBrakes;
      var smoothness := SmoothnessScore(harshEvents, totalEvents, corner.hardCorners);

      var drivingMinutes := ((now - startTime) as real) / 60000.0;
      var totalSeconds := ((now - startTime) as real) / 1000.0;
      var idleRatio := if totalSeconds > 0.0 then idle.idleTime / totalSeconds else 0.0;
      var stdDev := sqrt(variance);
      var eco := Score(RawEcoScore(HarshRatio(harshEvents, totalEvents), idleRatio, stdDev, discipline,
                                   optimal, avgAccel, corner.hardCorners));

      var recent := Recent(samples);
      var recentStdDev := if |recent| > 0 then Some(sqrt(SumSquares(recent, Mean(recent)) / (|recent| as real))) else None;
      var fatigue := Score(RawFatigueRisk(drivingMinutes, stdDev, hour, recentStdDev));

      EcoReport(eco, smoothness, fatigue,
                accel.harshAccelerations, accel.harshBrakes, corner.hardCorners,
                accel.totalAccelerations, accel.totalBrakes, idle.idleTime, idle.idlePeriods,
                Round(discipline), Round(optimal), RoundCents(avgAccel), RoundCents(avgDecel),
                RoundCents(avgLateralG), RoundCents(corner.maxLateralG), accel.coastDownEvents,
                (Round(variance * 10.0) as real) / 10.0)
    }
  }

  /** A count of at most `total` ticks is a percentage between 0 and 100 of `max(total, 1)`, and
      rounds to one. */
  lemma DisciplineBound(count: nat, total: nat)
    ensures var n := if total == 0 then 1 else total;
      count <= total ==>
        (0.0 <= (count as real) / (n as real) * 100.0 <= 100.0
         && 0 <= Round((count as real) / (n as real) * 100.0) <= 100)
  {
    var n := if total == 0 then 1 else total;
    if count <= total {
      var p := (count as real) / (n as real) * 100.0;
      assert (count as real) / (n as real) <= 1.0;
      RoundMonotone(0.0, p);
      RoundMonotone(p, 100.0);
      assert Round(100.0) == 100;
    }
  }
}
