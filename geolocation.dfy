/** The position tracker (`useGeolocation`): turns the device's position fixes into the current
    speed, the trip's maximum and average speed, its distance and its duration. The great-circle
    distance between two fixes is a parameter of the tracker; the clock is an argument. */
module Geolocation {
  import opened Common

  /** One fix as the Geolocation API delivers it (speed in m/s, heading in degrees). */
  datatype Position = Position(
    latitude: real, longitude: real, speed: Option<real>, accuracy: real,
    heading: Option<real>, altitude: Option<real>, timestamp: int)

  /** The previous fix kept for the distance computation. */
  datatype Fix = Fix(lat: real, lon: real, time: int)

  /** Error codes of the Geolocation API. */
  const PermissionDeniedCode := 1
  const PositionUnavailableCode := 2
  const TimeoutCode := 3

  /** The errors the tracker reports; `Message` gives each one's text. */
  datatype GeoError = Unsupported | PermissionDenied | PositionUnavailable | Timeout | UnknownError

  function Message(e: GeoError): string
  {
    match e
    case Unsupported => "Geolocation is not supported by your browser"
    case PermissionDenied => "Location permission denied. Please enable location access in your browser settings."
    case PositionUnavailable => "Location information is unavailable."
    case Timeout => "The request to get location timed out."
    case UnknownError => "Unknown error"
  }

  /** Segments no longer than this many metres are treated as GPS jitter. */
  const JitterMetres := 2.0

  /** `toKmh`: metres per second to kilometres per hour. */
  function ToKmh(metersPerSecond: real): (r: real)
    ensures r / 3.6 == metersPerSecond
    ensures metersPerSecond >= 0.0 ==> r >= 0.0
  {
    metersPerSecond * 3.6
  }

  /** The speed shown for a fix: km/h, zero when the fix has no speed, and zero below 1 km/h. */
  function SpeedKmh(speed: Option<real>): (r: real)
    ensures r == 0.0 || r >= 1.0
    ensures speed.None? ==> r == 0.0
    ensures speed.Some? && speed.value * 3.6 >= 1.0 ==> r == speed.value * 3.6
    ensures speed.Some? && speed.value * 3.6 < 1.0 ==> r == 0.0
  {
    var kmh := if speed.Some? then ToKmh(speed.value) else 0.0;
    if kmh < 1.0 then 0.0 else kmh
  }

  /** A faster reading never shows a lower speed. */
  lemma SpeedKmhMonotone(a: real, b: real)
    requires a <= b
    ensures SpeedKmh(Some(a)) <= SpeedKmh(Some(b))
  {
  }

  /** The error a position-error code reports: one per known code, "Unknown error" otherwise. */
  function ErrorFor(code: int): (e: GeoError)
    ensures e != Unsupported
    ensures e == UnknownError <==> code !in {PermissionDeniedCode, PositionUnavailableCode, TimeoutCode}
    ensures e == PermissionDenied <==> code == PermissionDeniedCode
    ensures e == PositionUnavailable <==> code == PositionUnavailableCode
    ensures e == Timeout <==> code == TimeoutCode
  {
    if code == PermissionDeniedCode then PermissionDenied
    else if code == PositionUnavailableCode then PositionUnavailable
    else if code == TimeoutCode then Timeout
    else UnknownError
  }

  /** The distance total after a fix at (lat, lon): the segment from the previous fix is added only
      when there is a previous fix, both new coordinates are non-zero (the source's truthiness test)
      and the segment is longer than the jitter threshold. */
  function NextTotal(prev: Option<Fix>, lat: real, lon: real, total: real,
                     haversine: (real, real, real, real) -> real): (r: real)
    ensures r >= total
    ensures r != total ==>
      prev.Some? && lat != 0.0 && lon != 0.0
      && r == total + haversine(prev.value.lat, prev.value.lon, lat, lon) && r - total > JitterMetres
    ensures prev.Some? && lat != 0.0 && lon != 0.0 && haversine(prev.value.lat, prev.value.lon, lat, lon) > JitterMetres ==>
      r > total + JitterMetres
  {
    if prev.Some? && lat != 0.0 && lon != 0.0 then
      var d := haversine(prev.value.lat, prev.value.lon, lat, lon);
      if d > JitterMetres then total + d else total
    else total
  }

  /** Without a previous fix (the first fix of a trip) nothing is added. */
  lemma FirstFixAddsNothing(lat: real, lon: real, total: real, haversine: (real, real, real, real) -> real)
    ensures NextTotal(None, lat, lon, total, haversine) == total
  {
  }

  /** `GeoState` without the maximum and average, which are functions of the speed history (see
      `Tracker.MaxSpeed` and `Tracker.AvgSpeed`). */
  datatype GeoState = GeoState(
    speed: Option<real>, latitude: Option<real>, longitude: Option<real>, accuracy: Option<real>,
    heading: Option<real>, altitude: Option<real>, timestamp: Option<int>,
    error: Option<GeoError>, isTracking: bool, distance: real, duration: real)

  const InitialState := GeoState(None, None, None, None, None, None, None, None, false, 0.0, 0.0)

  class Tracker {
    /** Whether the browser offers a position source at all. */
    const hasGeolocation: bool
    /** The great-circle distance in metres between (lat1, lon1) and (lat2, lon2). */
    const haversine: (real, real, real, real) -> real

    /** The state the page reads. */
    var state: GeoState

    // The hook's refs.
    /** A watch is registered (`watchIdRef` is set). */
    var watching: bool
    var prev: Option<Fix>
    /** The positive speeds seen since the trip began, in km/h. */
    var speedHistory: seq<real>
    var startTime: Option<int>
    var totalDistance: real

    /** The shown maximum, `Math.max(...speedHistory, 0)`. The hook stores it beside the history
        and recomputes it whenever the history changes, so it is always this function of it. */
    function MaxSpeed(): (m: real)
      reads this
      ensures m >= 0.0 && forall i :: 0 <= i < |speedHistory| ==> speedHistory[i] <= m
      ensures m == 0.0 || m in speedHistory
    {
      MaxOrZeroBounds(speedHistory);
      MaxOrZero(speedHistory)
    }

    /** The shown average over the positive speeds, or 0 before the first one. */
    function AvgSpeed(): (a: real)
      reads this
      ensures speedHistory == [] ==> a == 0.0
      ensures speedHistory != [] ==> a * (|speedHistory| as real) == Sum(speedHistory)
    {
      Mean(speedHistory)
    }

    /** The history holds only speeds the floor let through, and the shown distance is the total
        accumulated so far, which is never negative. */
    ghost predicate Valid()
      reads this
    {
      && AllAtLeast(speedHistory, 1.0)
      && state.distance == totalDistance
      && totalDistance >= 0.0
    }

    constructor (hasGeolocation: bool, haversine: (real, real, real, real) -> real)
      ensures Valid()
      ensures this.hasGeolocation == hasGeolocation && this.haversine == haversine
      ensures state == InitialState && !watching && prev.None? && speedHistory == [] && startTime.None?
      ensures MaxSpeed() == 0.0 && AvgSpeed() == 0.0
    {
      this.hasGeolocation, this.haversine := hasGeolocation, haversine;
      state := InitialState;
      watching, prev, speedHistory, startTime, totalDistance := false, None, [], None, 0.0;
    }

    /** `startTracking`: without a position source only the error is set; otherwise a new trip
        begins (tracking on, error cleared, statistics zero) and a watch is registered. */
    method StartTracking(now: int)
      requires Valid()
      modifies this
      ensures Valid()
      ensures !hasGeolocation ==>
        state == old(state).(error := Some(Unsupported)) && watching == old(watching) && prev == old(prev)
        && speedHistory == old(speedHistory) && startTime == old(startTime) && totalDistance == old(totalDistance)
      ensures hasGeolocation ==>
        state == old(state).(isTracking := true, error := None, distance := 0.0, duration := 0.0)
        && watching && prev.None? && speedHistory == [] && startTime == Some(now) && totalDistance == 0.0
      ensures hasGeolocation ==> MaxSpeed() == 0.0 && AvgSpeed() == 0.0
    {
      if !hasGeolocation {
        state := state.(error := Some(Unsupported));
        return;
      }
      prev, speedHistory, startTime, totalDistance := None, [], Some(now), 0.0;
      state := state.(isTracking := true, error := None, distance := 0.0, duration := 0.0);
      watching := true;
    }

    /** The duration shown at time `now`: seconds since the trip's start, or zero when no start
        time is set (a start time of 0 reads as unset, as in the source's truthiness test). */
    function Elapsed(now: int): (d: real)
      reads this
      ensures startTime.Some? && startTime.value != 0 && now >= startTime.value ==> d >= 0.0
      ensures startTime.None? ==> d == 0.0
    {
      if startTime.Some? && startTime.value != 0 then ((now - startTime.value) as real) / 1000.0 else 0.0
    }

    /** The position callback: the current speed and fix are shown, every positive speed joins the
        history, the distance grows by `NextTotal` and the duration is measured from the trip's
        start. */
    method OnPosition(p: Position, now: int)
      requires Valid()
      modifies this
      ensures Valid()
      ensures speedHistory == old(speedHistory) + (if SpeedKmh(p.speed) > 0.0 then [SpeedKmh(p.speed)] else [])
      ensures totalDistance == NextTotal(old(prev), p.latitude, p.longitude, old(totalDistance), haversine)
      ensures state == old(state).(
        speed := Some(SpeedKmh(p.speed)), latitude := Some(p.latitude), longitude := Some(p.longitude),
        accuracy := Some(p.accuracy), heading := p.heading, altitude := p.altitude,
        timestamp := Some(p.timestamp), error := None, distance := totalDistance, duration := old(Elapsed(now)))
      ensures prev == Some(Fix(p.latitude, p.longitude, p.timestamp))
      ensures watching == old(watching) && startTime == old(startTime)
    {
      var v := SpeedKmh(p.speed);
      var total := NextTotal(prev, p.latitude, p.longitude, totalDistance, haversine);
      if v > 0.0 {
        AllAtLeastAppend(speedHistory, 1.0, v);
        speedHistory := speedHistory + [v];
      }
      totalDistance, prev := total, Some(Fix(p.latitude, p.longitude, p.timestamp));
      state := state.(
        speed := Some(v), latitude := Some(p.latitude), longitude := Some(p.longitude),
        accuracy := Some(p.accuracy), heading := p.heading, altitude := p.altitude,
        timestamp := Some(p.timestamp), error := None, distance := total, duration := Elapsed(now));
    }

    /** The error callback: tracking stops (the watch stays registered) with the error for the code. */
    method OnPositionError(code: int)
      requires Valid()
      modifies this`state
      ensures Valid()
      ensures state == old(state).(error := Some(ErrorFor(code)), isTracking := false)
    {
      state := state.(error := Some(ErrorFor(code)), isTracking := false);
    }

    /** `stopTracking`: the watch is cleared and tracking is off; the statistics stay. */
    method StopTracking()
      requires Valid()
      modifies this`watching, this`state
      ensures Valid()
      ensures !watching && state == old(state).(isTracking := false)
    {
      if watching {
        watching := false;
      }
      state := state.(isTracking := false);
    }

    /** `resetTrip`: a new trip's statistics, without touching whether tracking is on. */
    method ResetTrip(now: int)
      requires Valid()
      modifies this`prev, this`speedHistory, this`startTime, this`totalDistance, this`state
      ensures Valid()
      ensures prev.None? && speedHistory == [] && startTime == Some(now) && totalDistance == 0.0
      ensures state == old(state).(distance := 0.0, duration := 0.0)
      ensures MaxSpeed() == 0.0 && AvgSpeed() == 0.0
    {
      prev, speedHistory, startTime, totalDistance := None, [], Some(now), 0.0;
      state := state.(distance := 0.0, duration := 0.0);
    }

    /** The average shown never exceeds the maximum shown, and neither is negative. */
    lemma AverageAtMostMaximum()
      requires Valid()
      ensures 0.0 <= AvgSpeed() <= MaxSpeed()
    {
      assert forall i :: 0 <= i < |speedHistory| ==> speedHistory[i] >= 0.0;
      MeanAtMostMax(speedHistory);
    }
  }
}
