/** The drowsiness timer (`useDrowsyAlert`): while tracking, a one-second interval measures the
    driving time and, once it reaches the next alert time (two hours at first, then half an hour
    after each alert or dismissal), asks for a break with a chime and a spoken reminder. The clock
    is the `now` argument and the interval is fired by the caller; the chime and the speech are an
    output log of the reminders given. */
module DrowsyAlert {
  import opened Common
  import opened Text

  const InitialAlertMs := 2 * 60 * 60 * 1000
  const SubsequentAlertMs := 30 * 60 * 1000

  const MsPerHour := 3600000
  const MsPerMinute := 60000

  /** The driving time as the reminder says it. */
  datatype SpokenTime = HoursAndMinutes(hours: nat, minutes: nat) | HoursOnly(hours: nat) | MinutesOnly(minutes: nat)

  function TotalMinutes(t: SpokenTime): nat
  {
    match t
    case HoursAndMinutes(h, m) => 60 * h + m
    case HoursOnly(h) => 60 * h
    case MinutesOnly(m) => m
  }

  /** The driving time rounded to the nearest minute. */
  function RoundedMinutes(elapsedMs: nat): nat
  {
    Round(elapsedMs as real / MsPerMinute as real)
  }

  /** `Math.floor` of the elapsed hours is the integer quotient by an hour. */
  lemma WholeHours(elapsedMs: nat)
    ensures (elapsedMs as real / MsPerHour as real).Floor == elapsedMs / MsPerHour
  {
    var q, r := elapsedMs / MsPerHour, elapsedMs % MsPerHour;
    assert elapsedMs as real == (q * MsPerHour) as real + r as real;
    assert elapsedMs as real / MsPerHour as real == q as real + r as real / MsPerHour as real;
  }

  /** The time text as `speakBreakReminder` computes it: the whole hours and the rounded rest of
      the hour in minutes from one hour on, the rounded minutes below that. */
  function TimeTextAsWritten(elapsedMs: nat): (t: SpokenTime)
    ensures TotalMinutes(t) == RoundedMinutes(elapsedMs)
    ensures elapsedMs >= MsPerHour <==> !t.MinutesOnly?
    ensures t.HoursAndMinutes? ==> t.hours >= 1 && 1 <= t.minutes <= 60
    ensures t.HoursOnly? ==> t.hours >= 1
    ensures t.MinutesOnly? ==> t.minutes <= 60
    ensures !t.MinutesOnly? ==> t.hours == elapsedMs / MsPerHour
  {
    var hours := elapsedMs as real / MsPerHour as real;
    if hours >= 1.0 then
      var whole := hours.Floor;
      WholeHours(elapsedMs);
      var rest := (hours - whole as real) * 60.0;
      var minutes := Round(rest);
      RoundShift(rest, 60 * whole);
      assert rest + (60 * whole) as real == elapsedMs as real / MsPerMinute as real;
      if minutes > 0 then HoursAndMinutes(whole, minutes) else HoursOnly(whole)
    else
      MinutesOnly(Round(hours * 60.0))
  }

  /** Twenty seconds short of three hours, past the first alert, the as-written text reads
      "2 hours and 60 minutes". */
  lemma SixtyMinutesAsWritten()
    ensures TimeTextAsWritten(10780000) == HoursAndMinutes(2, 60)
  {
    var hours := 10780000 as real / MsPerHour as real;
    assert hours.Floor == 2;
    assert Round((hours - 2.0) * 60.0) == 60;
  }

  /** The time text with the rounding done once, on the whole minutes: the hours and the minutes
      left over from one hour on, the minutes below that. */
  function TimeText(elapsedMs: nat): (t: SpokenTime)
    ensures TotalMinutes(t) == RoundedMinutes(elapsedMs)
    ensures t.HoursAndMinutes? ==> t.hours >= 1 && 1 <= t.minutes <= 59
    ensures t.HoursOnly? ==> t.hours >= 1
    ensures t.MinutesOnly? ==> t.minutes <= 59
  {
    var total := RoundedMinutes(elapsedMs);
    if total >= 60 then
      if total % 60 > 0 then HoursAndMinutes(total / 60, total % 60) else HoursOnly(total / 60)
    else
      MinutesOnly(total)
  }

  predicate SaysSixtyMinutes(t: SpokenTime)
  {
    !t.HoursOnly? && t.minutes == 60
  }

  /** The correction changes the text only where the as-written one says 60 minutes. */
  lemma {:induction false} CorrectionOnlyAtSixty(elapsedMs: nat)
    ensures SaysSixtyMinutes(TimeTextAsWritten(elapsedMs)) || TimeTextAsWritten(elapsedMs) == TimeText(elapsedMs)
  {
    var w := TimeTextAsWritten(elapsedMs);
    var c := TimeText(elapsedMs);
    if !SaysSixtyMinutes(w) {
      var total := RoundedMinutes(elapsedMs);
      match w
      case HoursAndMinutes(h, m) =>
        assert total == 60 * h + m && 1 <= m <= 59;
        assert total / 60 == h && total % 60 == m;
      case HoursOnly(h) =>
        assert total == 60 * h;
        assert total / 60 == h && total % 60 == 0;
      case MinutesOnly(m) =>
        assert total == m <= 59;
    }
  }

  /** `n unit`, with the plural only above one. */
  function Count(n: nat, unit: string): string
  {
    NatToString(n) + " " + unit + (if n > 1 then "s" else "")
  }

  function TimeWords(t: SpokenTime): string
  {
    match t
    case HoursAndMinutes(h, m) => Count(h, "hour") + " and " + Count(m, "minute")
    case HoursOnly(h) => Count(h, "hour")
    case MinutesOnly(m) => Count(m, "minute")
  }

  /** The spoken reminder after `elapsedMs` of driving. */
  function BreakMessage(elapsedMs: nat): string
  {
    "You've been driving for " + TimeWords(TimeText(elapsedMs)) + ". Consider taking a break."
  }

  /** A count of one is singular and any other count above one plural. */
  lemma CountPlural(n: nat, unit: string)
    ensures n <= 1 ==> Count(n, unit) == NatToString(n) + " " + unit
    ensures n > 1 ==> Count(n, unit) == NatToString(n) + " " + unit + "s"
  {
  }

  /** Every reminder lies at or after `from`, each at least half an hour after the one before. */
  ghost predicate Spaced(reminders: seq<int>, from: int)
  {
    && (forall i :: 0 <= i < |reminders| ==> reminders[i] >= from)
    && (forall i :: 0 <= i < |reminders| - 1 ==> reminders[i + 1] >= reminders[i] + SubsequentAlertMs)
  }

  /** The shown state of the hook. */
  datatype Shown = Shown(drivingTime: int, shouldTakeBreak: bool, breaksDismissed: nat)

  class Monitor {
    var shown: Shown
    /** The `isTracking` the hook was last rendered with. */
    var isTracking: bool
    var startTime: Option<int>
    var intervalActive: bool
    var nextAlertAt: int
    /** The driving times at which this drive's reminders were given. */
    var reminders: seq<int>

    /** The next alert is never before two hours into the drive, the interval runs only with a
        start time and only while tracking, and the reminders of the drive are spaced by
        half an hour with the next one due at least half an hour after the last. */
    ghost predicate Valid()
      reads this
    {
      && nextAlertAt >= InitialAlertMs
      && (intervalActive ==> startTime.Some?)
      && (intervalActive ==> isTracking)
      && Spaced(reminders, InitialAlertMs)
      && (|reminders| > 0 ==> nextAlertAt >= reminders[|reminders| - 1] + SubsequentAlertMs)
    }

    /** The first render, with the tracking effect run once. */
    constructor (isTracking: bool, now: int)
      ensures Valid()
      ensures this.isTracking == isTracking && shown == Shown(0, false, 0) && nextAlertAt == InitialAlertMs
      ensures reminders == [] && intervalActive == isTracking
      ensures startTime == (if isTracking then Some(now) else None)
    {
      this.isTracking := isTracking;
      shown, nextAlertAt, reminders := Shown(0, false, 0), InitialAlertMs, [];
      if isTracking {
        startTime, intervalActive := Some(now), true;
      } else {
        startTime, intervalActive := None, false;
      }
    }

    /** A render with `isTracking`: when it changed, the effect's cleanup stops the interval and
        the effect runs again, starting a new drive or clearing the start time. */
    method SetTracking(isTracking: bool, now: int)
      requires Valid()
      modifies this
      ensures Valid()
      ensures isTracking == old(this.isTracking) ==> unchanged(this)
      ensures isTracking && !old(this.isTracking) ==>
        && this.isTracking && startTime == Some(now) && intervalActive && nextAlertAt == InitialAlertMs
        && shown == Shown(0, false, 0) && reminders == []
      ensures !isTracking && old(this.isTracking) ==>
        && !this.isTracking && startTime.None? && !intervalActive
        && nextAlertAt == old(nextAlertAt) && shown == old(shown) && reminders == old(reminders)
    {
      if isTracking == this.isTracking {
        return;
      }
      this.isTracking := isTracking;
      intervalActive := false;
      if isTracking {
        startTime, nextAlertAt, shown, reminders := Some(now), InitialAlertMs, Shown(0, false, 0), [];
        intervalActive := true;
      } else {
        startTime := None;
      }
    }

    /** The interval's callback at time `now`: the driving time is shown and, once it reaches the
        next alert time, a break is asked for with a reminder and the next alert is half an hour
        later. */
    method Tick(now: int)
      requires Valid()
      modifies this`shown, this`nextAlertAt, this`reminders
      ensures Valid()
      ensures !intervalActive ==> unchanged(this)
      ensures intervalActive ==>
        var elapsed := now - startTime.value;
        && shown.drivingTime == elapsed && shown.breaksDismissed == old(shown).breaksDismissed
        && (elapsed < old(nextAlertAt) ==>
              shown.shouldTakeBreak == old(shown).shouldTakeBreak
              && nextAlertAt == old(nextAlertAt) && reminders == old(reminders))
        && (elapsed >= old(nextAlertAt) ==>
              shown.shouldTakeBreak && nextAlertAt == elapsed + SubsequentAlertMs
              && reminders == old(reminders) + [elapsed])
      ensures intervalActive && now - startTime.value < InitialAlertMs ==> reminders == old(reminders)
      ensures nextAlertAt >= old(nextAlertAt)
    {
      if !intervalActive {
        return;
      }
      var elapsed := now - startTime.value;
      shown := shown.(drivingTime := elapsed);
      if elapsed >= nextAlertAt {
        shown := shown.(shouldTakeBreak := true);
        reminders := reminders + [elapsed];
        nextAlertAt := elapsed + SubsequentAlertMs;
      }
    }

    /** `dismissBreak`: the break request is cleared, counted, and the next alert is half an hour
        later. */
    method DismissBreak()
      requires Valid()
      modifies this`shown, this`nextAlertAt
      ensures Valid()
      ensures shown == old(shown).(shouldTakeBreak := false, breaksDismissed := old(shown).breaksDismissed + 1)
      ensures nextAlertAt == old(nextAlertAt) + SubsequentAlertMs
    {
      shown := shown.(shouldTakeBreak := false, breaksDismissed := shown.breaksDismissed + 1);
      nextAlertAt := nextAlertAt + SubsequentAlertMs;
    }

    /** Unmounting runs the effect's cleanup, which stops the interval. */
    method Unmount()
      requires Valid()
      modifies this`intervalActive
      ensures Valid()
      ensures !intervalActive
    {
      if intervalActive {
        intervalActive := false;
      }
    }
  }
}
