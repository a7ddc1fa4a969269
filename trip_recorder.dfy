/** The trip recorder (`useTripRecorder`): splits the stream of (speed, limit) ticks of a recording
    into speeding incidents, accumulates the time spent over the limit and the worst overspeed, and
    freezes a trip record when the recording stops. The clock is the `now` argument. */
module TripRecorder {
  import opened Common

  /** A closed speeding incident. */
  datatype Incident = Incident(startTime: int, endTime: int, maxOverSpeed: real, speedLimit: real, maxSpeed: real)

  /** The incident in progress (`currentIncidentRef`). */
  datatype OpenIncident = OpenIncident(startTime: int, maxOverSpeed: real, speedLimit: real, maxSpeed: real)

  /** The eco summary a trip record may carry, as the page hands it over. */
  datatype EcoData = EcoData(
    ecoScore: int, smoothnessScore: int, fatigueRiskScore: int,
    harshAccelerations: nat, harshBrakes: nat, hardCorners: nat,
    idleTime: real, idlePeriods: nat, speedDisciplinePercent: int, optimalSpeedPercent: int,
    coastDownEvents: nat, maxLateralG: real)

  datatype TripRecord = TripRecord(
    startTime: int, endTime: int, totalDistance: real, duration: real, maxSpeed: real, avgSpeed: real,
    speedingIncidents: seq<Incident>, timeOverLimit: real, worstOverspeed: real, eco: Option<EcoData>)

  /** The hook's React state. */
  datatype RecorderState = RecorderState(isRecording: bool, tripRecord: Option<TripRecord>)

  /** A tick is within the limit when there is no known limit or the speed does not exceed it. */
  predicate Compliant(speed: real, limit: Option<real>)
  {
    limit.None? || speed <= limit.value
  }

  /** The incident closed at time `now`. */
  function Close(o: OpenIncident, now: int): (i: Incident)
    ensures i.startTime == o.startTime && i.endTime == now
    ensures i.maxOverSpeed == o.maxOverSpeed && i.speedLimit == o.speedLimit && i.maxSpeed == o.maxSpeed
  {
    Incident(o.startTime, now, o.maxOverSpeed, o.speedLimit, o.maxSpeed)
  }

  /** The incidents after closing the open one, if any, at time `now`: exactly one more when an
      incident was open, the same list otherwise. */
  function CloseOpen(incidents: seq<Incident>, current: Option<OpenIncident>, now: int): (r: seq<Incident>)
    ensures |r| == |incidents| + (if current.Some? then 1 else 0)
    ensures r[..|incidents|] == incidents
    ensures current.Some? ==> r[|incidents|] == Close(current.value, now)
  {
    if current.Some? then incidents + [Close(current.value, now)] else incidents
  }

  /** The incident after an over-limit tick: a new one starting now, or the open one with the
      larger overspeed and speed and the current limit. */
  function Extend(current: Option<OpenIncident>, speed: real, limit: real, now: int): (r: OpenIncident)
    ensures r.speedLimit == limit
    ensures r.maxOverSpeed >= speed - limit && r.maxSpeed >= speed
    ensures current.None? ==> r == OpenIncident(now, speed - limit, limit, speed)
    ensures current.Some? ==>
      r.startTime == current.value.startTime
      && r.maxOverSpeed == Max(current.value.maxOverSpeed, speed - limit)
      && r.maxSpeed == Max(current.value.maxSpeed, speed)
  {
    match current
    case None => OpenIncident(now, speed - limit, limit, speed)
    case Some(o) =>
      o.(maxOverSpeed := Max(o.maxOverSpeed, speed - limit), maxSpeed := Max(o.maxSpeed, speed), speedLimit := limit)
  }

  /** Extending an incident only raises its overspeed, so a bound on the overspeed seen so far
      that also bounds the new tick still holds. */
  lemma ExtendBounded(current: Option<OpenIncident>, speed: real, limit: real, now: int, worst: real)
    requires current.Some? ==> 0.0 < current.value.maxOverSpeed <= worst
    requires 0.0 < speed - limit <= worst
    ensures 0.0 < Extend(current, speed, limit, now).maxOverSpeed <= worst
  {
  }

  /** Every incident of `s` exceeded its limit, by at most `worst`. */
  ghost predicate Bounded(s: seq<Incident>, worst: real)
  {
    forall i :: 0 <= i < |s| ==> 0.0 < s[i].maxOverSpeed <= worst
  }

  lemma BoundedWeaken(s: seq<Incident>, worst: real, worst': real)
    requires Bounded(s, worst) && worst <= worst'
    ensures Bounded(s, worst')
  {
  }

  lemma {:induction false} CloseOpenBounded(incidents: seq<Incident>, current: Option<OpenIncident>, now: int, worst: real)
    requires Bounded(incidents, worst)
    requires current.Some? ==> 0.0 < current.value.maxOverSpeed <= worst
    ensures Bounded(CloseOpen(incidents, current, now), worst)
  {
    var r := CloseOpen(incidents, current, now);
    forall i | 0 <= i < |r|
      ensures 0.0 < r[i].maxOverSpeed <= worst
    {
      if i < |incidents| {
        assert r[i] == r[..|incidents|][i];
      }
    }
  }

  /** The speeding bookkeeping of a recording: the closed incidents, the open one, the seconds
      spent over the limit, the time of the last over-limit tick and the worst overspeed. */
  datatype Speeding = Speeding(
    incidents: seq<Incident>, current: Option<OpenIncident>, timeOverLimit: real,
    lastOverLimitTick: Option<int>, worstOverspeed: real)

  const NoSpeeding := Speeding([], None, 0.0, None, 0.0)

  /** Every incident, the open one included, exceeded its limit, by no more than the worst
      overspeed, which is never negative. */
  ghost predicate SpeedingValid(s: Speeding)
  {
    && Bounded(s.incidents, s.worstOverspeed)
    && (s.current.Some? ==> 0.0 < s.current.value.maxOverSpeed <= s.worstOverspeed)
    && s.worstOverspeed >= 0.0
  }

  /** An incident is open exactly when the last tick was over the limit. */
  predicate InOverLimitRun(s: Speeding)
  {
    s.current.Some? <==> s.lastOverLimitTick.Some?
  }

  /** The speeding part of `recordTick`. A tick within the limit closes the open incident, if
      any, and ends the over-limit run; a tick over it opens or extends the incident, raises the
      worst overspeed, and adds the seconds since the previous tick of the same run (none for the
      first tick of a run). */
  function Tick(s: Speeding, speed: real, limit: Option<real>, now: int): (r: Speeding)
    ensures InOverLimitRun(r)
    ensures r.worstOverspeed >= s.worstOverspeed
    ensures Compliant(speed, limit) ==>
      r == s.(incidents := CloseOpen(s.incidents, s.current, now), current := None, lastOverLimitTick := None)
    ensures !Compliant(speed, limit) ==>
      && r.incidents == s.incidents
      && r.current == Some(Extend(s.current, speed, limit.value, now))
      && r.lastOverLimitTick == Some(now)
      && r.worstOverspeed == Max(s.worstOverspeed, speed - limit.value)
      && r.timeOverLimit == s.timeOverLimit
           + (if s.lastOverLimitTick.Some? then ((now - s.lastOverLimitTick.value) as real) / 1000.0 else 0.0)
  {
    if Compliant(speed, limit) then
      s.(incidents := CloseOpen(s.incidents, s.current, now), current := None, lastOverLimitTick := None)
    else
      var overBy := speed - limit.value;
      var time := if s.lastOverLimitTick.Some? then s.timeOverLimit + ((now - s.lastOverLimitTick.value) as real) / 1000.0
                  else s.timeOverLimit;
      Speeding(s.incidents, Some(Extend(s.current, speed, limit.value, now)), time, Some(now),
               if overBy > s.worstOverspeed then overBy else s.worstOverspeed)
  }

  /** With a clock that does not run backwards, the time over the limit never decreases. */
  lemma TickTimeMonotone(s: Speeding, speed: real, limit: Option<real>, now: int)
    requires s.lastOverLimitTick.Some? ==> now >= s.lastOverLimitTick.value
    ensures Tick(s, speed, limit, now).timeOverLimit >= s.timeOverLimit
  {
  }

  /** A tick keeps every incident over its limit and within the worst overspeed. */
  lemma TickValid(s: Speeding, speed: real, limit: Option<real>, now: int)
    requires SpeedingValid(s)
    ensures SpeedingValid(Tick(s, speed, limit, now))
  {
    if Compliant(speed, limit) {
      CloseOpenBounded(s.incidents, s.current, now, s.worstOverspeed);
    } else {
      var r := Tick(s, speed, limit, now);
      BoundedWeaken(s.incidents, s.worstOverspeed, r.worstOverspeed);
      ExtendBounded(s.current, speed, limit.value, now, r.worstOverspeed);
    }
  }

  /** A run of over-limit ticks is one incident: each further over-limit tick keeps the incident's
      start and the closed incidents, and the first tick within the limit closes it as exactly one
      more incident. */
  lemma OneIncidentPerRun(s: Speeding, speed: real, limit: real, now: int, speed': real, limit': Option<real>, later: int)
    requires limit < speed
    requires Compliant(speed', limit')
    ensures var t := Tick(s, speed, Some(limit), now);
      var u := Tick(t, speed', limit', later);
      && t.current.Some? && (s.current.Some? ==> t.current.value.startTime == s.current.value.startTime)
      && u.incidents == s.incidents + [Close(t.current.value, later)]
  {
  }

  class Recorder {
    var state: RecorderState

    // The hook's refs.
    var startTime: int
    var speeding: Speeding
    var maxSpeed: real
    /** The positive tick speeds, for the average. */
    var speedSamples: seq<real>
    /** Every tick speed of the recording, in order. */
    ghost var ticks: seq<real>

    /** The speeding bookkeeping is valid (and, while recording, an incident is open exactly in an
        over-limit run); the maximum is the running maximum of all tick speeds and the samples are
        the positive ones. */
    ghost predicate Valid()
      reads this
    {
      && SpeedingValid(speeding)
      && (state.isRecording ==> InOverLimitRun(speeding))
      && maxSpeed == MaxOrZero(ticks)
      && speedSamples == Positives(ticks)
    }

    /** The trip's average: the mean of the positive tick speeds, or 0 without any. */
    function AvgSpeed(): (a: real)
      reads this
      ensures speedSamples == [] ==> a == 0.0
      ensures speedSamples != [] ==> a * (|speedSamples| as real) == Sum(speedSamples)
    {
      Mean(speedSamples)
    }

    constructor ()
      ensures Valid()
      ensures state == RecorderState(false, None) && speeding == NoSpeeding && ticks == []
    {
      state := RecorderState(false, None);
      startTime, speeding := 0, NoSpeeding;
      maxSpeed, speedSamples, ticks := 0.0, [], [];
    }

    /** `startRecording`: every accumulator is reset and the previous record is dropped. */
    method StartRecording(now: int)
      requires Valid()
      modifies this
      ensures Valid()
      ensures state == RecorderState(true, None) && startTime == now && speeding == NoSpeeding
      ensures maxSpeed == 0.0 && speedSamples == [] && ticks == []
    {
      startTime, speeding := now, NoSpeeding;
      maxSpeed, speedSamples, ticks := 0.0, [], [];
      state := RecorderState(true, None);
    }

    /** `recordTick(speed, limit)`: outside a recording nothing changes; otherwise the speed joins
        the statistics and the speeding bookkeeping takes a `Tick`. */
    method RecordTick(speed: real, limit: Option<real>, now: int)
      requires Valid()
      modifies this
      ensures Valid()
      ensures !old(state.isRecording) ==> unchanged(this)
      ensures state == old(state) && startTime == old(startTime)
      ensures old(state.isRecording) ==>
        && ticks == old(ticks) + [speed] && maxSpeed == Max(old(maxSpeed), speed)
        && speedSamples == old(speedSamples) + (if speed > 0.0 then [speed] else [])
        && speeding == Tick(old(speeding), speed, limit, now)
    {
      if !state.isRecording {
        return;
      }
      var samples, max := speedSamples, maxSpeed;
      if speed > 0.0 {
        samples := samples + [speed];
      }
      if speed > max {
        max := speed;
      }
      PositivesAppend(ticks, speed);
      MaxOrZeroAppend(ticks, speed);
      TickValid(speeding, speed, limit, now);
      ticks, speedSamples, maxSpeed := ticks + [speed], samples, max;
      speeding := Tick(speeding, speed, limit, now);
    }

    /** `stopRecording`: outside a recording there is no record and nothing changes. Otherwise the
        open incident is closed, and the record of the trip is frozen, stored and returned. */
    method StopRecording(totalDistance: real, duration: real, eco: Option<EcoData>, now: int)
      returns (r: Option<TripRecord>)
      requires Valid()
      modifies this`state, this`speeding
      ensures Valid()
      ensures !old(state.isRecording) ==> r.None? && state == old(state) && speeding == old(speeding)
      ensures old(state.isRecording) ==>
        && speeding == old(speeding).(incidents := CloseOpen(old(speeding.incidents), old(speeding.current), now), current := None)
        && r == Some(TripRecord(startTime, now, totalDistance, duration, maxSpeed, AvgSpeed(),
                                speeding.incidents, speeding.timeOverLimit, speeding.worstOverspeed, eco))
        && state == RecorderState(false, r)
    {
      if !state.isRecording {
        return None;
      }
      CloseOpenBounded(speeding.incidents, speeding.current, now, speeding.worstOverspeed);
      speeding := speeding.(incidents := CloseOpen(speeding.incidents, speeding.current, now), current := None);
      var record := TripRecord(startTime, now, totalDistance, duration, maxSpeed, Mean(speedSamples),
                               speeding.incidents, speeding.timeOverLimit, speeding.worstOverspeed, eco);
      state := RecorderState(false, Some(record));
      r := Some(record);
    }

    /** `clearRecord`: recording off and no record. */
    method ClearRecord()
      requires Valid()
      modifies this`state
      ensures Valid()
      ensures state == RecorderState(false, None)
    {
      state := RecorderState(false, None);
    }

    /** In a stored record, every incident exceeded its limit by at most the worst overspeed, the
        average lies between zero and the maximum, and the maximum bounds every tick speed. */
    lemma RecordFacts()
      requires Valid() && state.tripRecord.Some?
      requires state.tripRecord.value.speedingIncidents == speeding.incidents
      requires state.tripRecord.value.worstOverspeed == speeding.worstOverspeed
      requires state.tripRecord.value.avgSpeed == AvgSpeed() && state.tripRecord.value.maxSpeed == maxSpeed
      ensures var t := state.tripRecord.value;
        Bounded(t.speedingIncidents, t.worstOverspeed) && 0.0 <= t.avgSpeed <= t.maxSpeed
      ensures forall i :: 0 <= i < |ticks| ==> ticks[i] <= maxSpeed
    {
      MaxOrZeroOfPositives(ticks);
      MaxOrZeroBounds(ticks);
      PositivesBounds(ticks);
      assert forall i :: 0 <= i < |speedSamples| ==> speedSamples[i] >= 0.0;
      MeanAtMostMax(speedSamples);
    }
  }
}
