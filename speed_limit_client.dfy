/** The page's speed-limit hook (`useSpeedLimit`): a throttled lookup of the limit at the current
    position, of which only the latest request may update the state. The request itself is the
    endpoint of module SpeedLimitRoute; aborting a request is a counter of request numbers. */
module SpeedLimitClient {
  import opened Common
  import SpeedLimitRoute

  /** Where and when the last lookup was started. */
  datatype LastFetch = LastFetch(lat: real, lon: real, time: int)

  /** How a request ended: the server's reply, or a network failure. */
  datatype Outcome = Delivered(response: SpeedLimitRoute.Response) | NetworkError

  const ThrottleMs := 5000
  const ThrottleDegrees := 0.0005
  const FetchError := "Could not fetch speed limit"

  function Abs(x: real): real { if x < 0.0 then -x else x }

  /** A lookup is skipped when the previous one started less than 5 s ago and the position has
      moved less than 0.0005 degrees in latitude and in longitude. */
  function ShouldSkip(last: Option<LastFetch>, lat: real, lon: real, now: int): (skip: bool)
    ensures last.None? ==> !skip
    ensures skip <==>
      last.Some? && now - last.value.time < ThrottleMs
      && Abs(lat - last.value.lat) < ThrottleDegrees && Abs(lon - last.value.lon) < ThrottleDegrees
  {
    match last
    case None => false
    case Some(f) => now - f.time < ThrottleMs && Abs(lat - f.lat) < ThrottleDegrees && Abs(lon - f.lon) < ThrottleDegrees
  }

  /** Asking again at the same place within 5 s of a lookup is skipped. */
  lemma RepeatWithinWindowSkipped(lat: real, lon: real, t: int, now: int)
    requires now < t + ThrottleMs
    ensures ShouldSkip(Some(LastFetch(lat, lon, t)), lat, lon, now)
  {
  }

  /** Five seconds after the last lookup, or after moving far enough along one axis, a lookup is
      always made. */
  lemma NotSkippedAfterWindowOrMove(f: LastFetch, lat: real, lon: real, now: int)
    requires now >= f.time + ThrottleMs || Abs(lat - f.lat) >= ThrottleDegrees || Abs(lon - f.lon) >= ThrottleDegrees
    ensures !ShouldSkip(Some(f), lat, lon, now)
  {
  }

  class Client {
    var speedLimit: Option<int>
    var roadName: Option<string>
    var isSchoolZone: bool
    var isLoading: bool
    var error: Option<string>
    /** `lastFetchRef`. */
    var lastFetch: Option<LastFetch>
    /** The number the next request gets; the request numbered `requests - 1` is the only one
        whose controller has not been aborted. */
    var requests: nat

    constructor ()
      ensures speedLimit.None? && roadName.None? && !isSchoolZone && !isLoading && error.None?
      ensures lastFetch.None? && requests == 0
    {
      speedLimit, roadName, isSchoolZone, isLoading, error := None, None, false, false, None;
      lastFetch, requests := None, 0;
    }

    /** Request number `id` is still the current one (no later lookup aborted it). */
    predicate IsCurrent(id: nat)
      reads this
    {
      id + 1 == requests
    }

    /** `fetchSpeedLimit(lat, lon)` up to the request: either skipped, or the previous request is
        aborted, the lookup recorded and loading shown; `started` is the new request's number. */
    method FetchSpeedLimit(lat: real, lon: real, now: int) returns (started: Option<nat>)
      modifies this
      ensures ShouldSkip(old(lastFetch), lat, lon, now) ==>
        started.None? && lastFetch == old(lastFetch) && requests == old(requests) && isLoading == old(isLoading)
      ensures !ShouldSkip(old(lastFetch), lat, lon, now) ==>
        started == Some(old(requests)) && requests == old(requests) + 1 && IsCurrent(started.value)
        && lastFetch == Some(LastFetch(lat, lon, now)) && isLoading
      ensures speedLimit == old(speedLimit) && roadName == old(roadName)
      ensures isSchoolZone == old(isSchoolZone) && error == old(error)
    {
      if ShouldSkip(lastFetch, lat, lon, now) {
        return None;
      }
      started := Some(requests);
      requests := requests + 1;
      lastFetch := Some(LastFetch(lat, lon, now));
      isLoading := true;
    }

    /** The end of request `id`. An aborted request ends in an AbortError and changes nothing; a
        reply replaces the whole state (a missing school flag reads as false); a failure, including a
        400 reply, keeps the last limit, road and school flag and reports the error. */
    method Settle(id: nat, outcome: Outcome)
      modifies this
      ensures lastFetch == old(lastFetch) && requests == old(requests)
      ensures !IsCurrent(id) ==>
        speedLimit == old(speedLimit) && roadName == old(roadName) && isSchoolZone == old(isSchoolZone)
        && isLoading == old(isLoading) && error == old(error)
      ensures IsCurrent(id) && outcome.Delivered? && outcome.response.Reply? ==>
        var r := outcome.response;
        speedLimit == r.speedLimit && roadName == r.roadName
        && isSchoolZone == (r.isSchoolZone == Some(true)) && !isLoading && error.None?
      ensures IsCurrent(id) && !(outcome.Delivered? && outcome.response.Reply?) ==>
        speedLimit == old(speedLimit) && roadName == old(roadName) && isSchoolZone == old(isSchoolZone)
        && !isLoading && error == Some(FetchError)
    {
      if !IsCurrent(id) {
        return;
      }
      if outcome.Delivered? && outcome.response.Reply? {
        var r := outcome.response;
        speedLimit, roadName := r.speedLimit, r.roadName;
        isSchoolZone := match r.isSchoolZone case Some(b) => b case None => false;
        isLoading, error := false, None;
      } else {
        isLoading, error := false, Some(FetchError);
      }
    }
  }
}
