/** The zone announcer (`useZoneAnnounce`): says "Caution. School zone." and "Leaving school zone."
    on the edges of the school-zone flag, and "Speed limit now N ..." when the limit changes after
    the first one, which is only remembered. Both kinds of announcement share one debounce slot, so
    scheduling one cancels whatever was pending. The hook's three effects run on a render when one
    of their dependencies changed, the speed-limit effect's cleanup first; the pending timeout is
    fired by the caller; speech is an output log. */
module ZoneAnnounce {
  import opened Common
  import opened Text

  datatype Unit = Kmh | Mph

  /** What the announcer can say. */
  datatype Announcement = EnteringSchoolZone | LeavingSchoolZone | LimitNow(limit: int, unit: Unit)

  function UnitText(u: Unit): string
  {
    match u
    case Mph => "miles per hour"
    case Kmh => "kilometers per hour"
  }

  /** The spoken text of an announcement. */
  function Phrase(a: Announcement): string
  {
    match a
    case EnteringSchoolZone => "Caution. School zone."
    case LeavingSchoolZone => "Leaving school zone."
    case LimitNow(limit, unit) => "Speed limit now " + IntToString(limit) + " " + UnitText(unit)
  }

  /** The debounce of an announcement in milliseconds: 300 for the school zone, 500 for a limit. */
  function Delay(a: Announcement): nat
  {
    if a.LimitNow? then 500 else 300
  }

  /** The announcer's refs and its shown school-zone flag, with the announcement waiting in the
      debounce slot. */
  datatype Zone = Zone(previousLimit: Option<int>, previousSchool: bool, inSchoolZone: bool,
                       pending: Option<Announcement>)

  const InitialZone := Zone(None, false, false, None)

  /** The shown flag is always the last flag seen. */
  predicate ZoneValid(z: Zone)
  {
    z.inSchoolZone == z.previousSchool
  }

  /** The school-zone effect while enabled: an edge of the flag is remembered, shown, and
      announced after 300 ms in place of whatever was pending; no edge, no change. */
  function SchoolEffect(z: Zone, isSchoolZone: bool): (r: Zone)
    ensures r.previousSchool == isSchoolZone && r.previousLimit == z.previousLimit
    ensures ZoneValid(z) ==> ZoneValid(r)
    ensures isSchoolZone == z.previousSchool ==> r == z
    ensures isSchoolZone != z.previousSchool ==>
      && r.inSchoolZone == isSchoolZone
      && r.pending == Some(if isSchoolZone then EnteringSchoolZone else LeavingSchoolZone)
  {
    if isSchoolZone && !z.previousSchool then
      z.(inSchoolZone := true, previousSchool := true, pending := Some(EnteringSchoolZone))
    else if !isSchoolZone && z.previousSchool then
      z.(inSchoolZone := false, previousSchool := false, pending := Some(LeavingSchoolZone))
    else z
  }

  /** The speed-limit effect while enabled, for a non-null limit: the first limit is remembered
      silently; a different one is remembered and announced after 500 ms in place of whatever was
      pending; the same one changes nothing. */
  function LimitEffect(z: Zone, limit: int, unit: Unit): (r: Zone)
    ensures r.previousLimit == Some(limit)
    ensures r.previousSchool == z.previousSchool && r.inSchoolZone == z.inSchoolZone
    ensures r.pending != z.pending ==> r.pending == Some(LimitNow(limit, unit))
    ensures r.pending == Some(LimitNow(limit, unit)) && z.pending != r.pending <==>
      z.previousLimit.Some? && z.previousLimit.value != limit && z.pending != Some(LimitNow(limit, unit))
  {
    if z.previousLimit.None? then z.(previousLimit := Some(limit))
    else if limit != z.previousLimit.value then
      z.(previousLimit := Some(limit), pending := Some(LimitNow(limit, unit)))
    else z
  }

  /** The first limit seen is a silent baseline. */
  lemma BaselineIsSilent(z: Zone, limit: int, unit: Unit)
    requires z.previousLimit.None?
    ensures LimitEffect(z, limit, unit) == z.(previousLimit := Some(limit))
  {
  }

  /** A limit different from the last one seen is always announced, even when the same
      announcement was already waiting. */
  lemma ChangedLimitAnnounced(z: Zone, limit: int, unit: Unit)
    requires z.previousLimit.Some? && z.previousLimit.value != limit
    ensures LimitEffect(z, limit, unit).pending == Some(LimitNow(limit, unit))
  {
  }

  /** Seeing the same flag or the same limit twice schedules nothing the second time. */
  lemma {:induction false} EffectsIdempotent(z: Zone, isSchoolZone: bool, limit: int, unit: Unit)
    ensures SchoolEffect(SchoolEffect(z, isSchoolZone), isSchoolZone) == SchoolEffect(z, isSchoolZone)
    ensures LimitEffect(LimitEffect(z, limit, unit), limit, unit) == LimitEffect(z, limit, unit)
  {
  }

  /** The props of the last render. */
  datatype Props = Props(speedLimit: Option<int>, isSchoolZone: bool, unit: Unit)

  class Announcer {
    /** Whether the browser offers speech synthesis. */
    const speechAvailable: bool

    var isAnnouncementEnabled: bool
    var lastAnnounced: Option<int>
    var zone: Zone
    /** The speed-limit effect's last run returned its cleanup. */
    var cleanupArmed: bool
    var props: Props
    /** Everything said so far. */
    var spoken: seq<Announcement>

    /** Disabled, nothing is pending and no cleanup is armed; enabled, the announcer has seen the
        current flag and the current non-null limit; a pending limit announcement is for the last
        limit seen, in the current unit, with its cleanup armed. */
    ghost predicate Valid()
      reads this
    {
      && ZoneValid(zone)
      && (!isAnnouncementEnabled ==> zone.pending.None? && !cleanupArmed)
      && (isAnnouncementEnabled ==> zone.previousSchool == props.isSchoolZone)
      && (isAnnouncementEnabled && props.speedLimit.Some? ==> zone.previousLimit == props.speedLimit)
      && (zone.pending.Some? && zone.pending.value.LimitNow? ==>
            && zone.previousLimit == Some(zone.pending.value.limit)
            && zone.pending.value.unit == props.unit && cleanupArmed)
    }

    /** The first render: enabled, with every effect run once on the initial props. */
    constructor (speechAvailable: bool, speedLimit: Option<int>, isSchoolZone: bool, unit: Unit)
      ensures Valid()
      ensures this.speechAvailable == speechAvailable && isAnnouncementEnabled && lastAnnounced.None?
      ensures props == Props(speedLimit, isSchoolZone, unit) && spoken == []
      ensures zone == LimitStep(SchoolEffect(InitialZone, isSchoolZone), true, speedLimit, unit)
      ensures !cleanupArmed
    {
      this.speechAvailable := speechAvailable;
      isAnnouncementEnabled, lastAnnounced, spoken := true, None, [];
      props := Props(speedLimit, isSchoolZone, unit);
      var z := SchoolEffect(InitialZone, isSchoolZone);
      zone, cleanupArmed := LimitStep(z, true, speedLimit, unit), Arms(z, true, speedLimit);
    }

    /** A later render with new props: the speed-limit effect's armed cleanup clears the slot when
        the limit or the unit changed; then, while enabled, the school-zone effect runs if the flag
        changed and the speed-limit effect if the limit or unit changed. Disabled, nothing changes
        but the props. */
    method Render(speedLimit: Option<int>, isSchoolZone: bool, unit: Unit)
      requires Valid()
      modifies this`zone, this`cleanupArmed, this`props
      ensures Valid()
      ensures props == Props(speedLimit, isSchoolZone, unit)
      ensures !isAnnouncementEnabled ==> zone == old(zone) && !cleanupArmed
      ensures var limitChanged := speedLimit != old(props).speedLimit || unit != old(props).unit;
        var cleared := if limitChanged && old(cleanupArmed) then old(zone).(pending := None) else old(zone);
        var z := if isSchoolZone != old(props).isSchoolZone && isAnnouncementEnabled
                 then SchoolEffect(cleared, isSchoolZone) else cleared;
        && zone == (if limitChanged then LimitStep(z, isAnnouncementEnabled, speedLimit, unit) else z)
        && cleanupArmed == (if limitChanged then Arms(z, isAnnouncementEnabled, speedLimit) else old(cleanupArmed))
    {
      var limitChanged := speedLimit != props.speedLimit || unit != props.unit;
      var z, armed := zone, cleanupArmed;
      if limitChanged && armed {
        z, armed := z.(pending := None), false;
      }
      if isSchoolZone != props.isSchoolZone && isAnnouncementEnabled {
        z := SchoolEffect(z, isSchoolZone);
      }
      if limitChanged {
        z, armed := LimitStep(z, isAnnouncementEnabled, speedLimit, unit), Arms(z, isAnnouncementEnabled, speedLimit);
      }
      zone, cleanupArmed, props := z, armed, Props(speedLimit, isSchoolZone, unit);
    }

    /** `toggleAnnouncements` and the render it causes: every effect depends on the flag, so the
        armed cleanup clears the slot; enabling then runs the school-zone and speed-limit effects
        on the current props; disabling clears the slot. */
    method ToggleAnnouncements()
      requires Valid()
      modifies this`isAnnouncementEnabled, this`zone, this`cleanupArmed
      ensures Valid()
      ensures isAnnouncementEnabled == !old(isAnnouncementEnabled)
      ensures !isAnnouncementEnabled ==> zone == old(zone).(pending := None) && !cleanupArmed
      ensures isAnnouncementEnabled ==>
        var z := SchoolEffect(old(zone), props.isSchoolZone);
        && zone == LimitStep(z, true, props.speedLimit, props.unit)
        && cleanupArmed == Arms(z, true, props.speedLimit)
    {
      isAnnouncementEnabled := !isAnnouncementEnabled;
      if cleanupArmed {
        zone, cleanupArmed := zone.(pending := None), false;
      }
      if isAnnouncementEnabled {
        var z := SchoolEffect(zone, props.isSchoolZone);
        zone, cleanupArmed := LimitStep(z, true, props.speedLimit, props.unit), Arms(z, true, props.speedLimit);
      } else {
        zone := zone.(pending := None);
      }
    }

    /** The pending debounce timeout runs: the announcement is said where speech exists, a limit
        announcement becomes the last one announced, and the slot is emptied. */
    method Fire()
      requires Valid()
      modifies this`spoken, this`lastAnnounced, this`zone
      ensures Valid()
      ensures old(zone).pending.None? ==> unchanged(this)
      ensures old(zone).pending.Some? ==>
        var a := old(zone).pending.value;
        && zone == old(zone).(pending := None)
        && spoken == old(spoken) + (if speechAvailable then [a] else [])
        && lastAnnounced == (if a.LimitNow? then Some(a.limit) else old(lastAnnounced))
    {
      if zone.pending.None? {
        return;
      }
      var a := zone.pending.value;
      if speechAvailable {
        spoken := spoken + [a];
      }
      if a.LimitNow? {
        lastAnnounced := Some(a.limit);
      }
      zone := zone.(pending := None);
    }

    /** Unmounting runs the speed-limit effect's armed cleanup. */
    method Unmount()
      requires Valid()
      modifies this`zone, this`cleanupArmed
      ensures Valid()
      ensures zone == (if old(cleanupArmed) then old(zone).(pending := None) else old(zone))
      ensures !cleanupArmed
    {
      if cleanupArmed {
        zone, cleanupArmed := zone.(pending := None), false;
      }
    }
  }

  /** Whether the speed-limit effect's run on `z` returns its cleanup: only a run that gets past
      the disabled, null-limit and baseline returns does. */
  predicate Arms(z: Zone, enabled: bool, speedLimit: Option<int>)
  {
    enabled && speedLimit.Some? && z.previousLimit.Some?
  }

  /** The speed-limit effect's run: nothing when disabled or without a limit. */
  function LimitStep(z: Zone, enabled: bool, speedLimit: Option<int>, unit: Unit): (r: Zone)
    ensures !enabled || speedLimit.None? ==> r == z
    ensures enabled && speedLimit.Some? ==> r == LimitEffect(z, speedLimit.value, unit)
  {
    if enabled && speedLimit.Some? then LimitEffect(z, speedLimit.value, unit) else z
  }
}
