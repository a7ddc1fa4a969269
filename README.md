# Speedwatch core in Dafny

A model of the driving logic of a browser speedometer. The page polls the device's position and
drives a group of React hooks one tick at a time; each hook owns a few mutable refs and a piece
of React state. The hooks modelled here are:

- the **position tracker** (`useGeolocation`): speed in km/h with a 1 km/h floor, the trip
  distance with a 2 m jitter filter, and the maximum and average over the positive speeds;
- the **trip recorder** (`useTripRecorder`): splits the stream of (speed, limit) ticks into
  speeding incidents, accumulates time over the limit and the worst overspeed, and freezes a trip
  record on stop;
- the **speed alarm** (`useSpeedAlarm`): four tiers by amount over the limit, at most one
  self-rescheduling sound cycle, and a voice latch that says "Reduce speed." once per escalation
  to the top tier;
- the **eco and behaviour accumulator** (`useEcoDriving`): per-tick counters for accelerations,
  brakes, coast-downs, hard corners, idling and speed discipline, and the report with the eco,
  smoothness and fatigue-risk scores clamped to 0..100;
- the **turn detector** (`useTurnWarning`): a heading-delta normaliser, a 3 s sliding window of
  samples, sharp and mild classification and a 5 s cooldown;
- the **zone announcer** (`useZoneAnnounce`): school-zone edges, a silent first speed limit,
  announcements of later changes, and one debounce slot shared by both;
- the **drowsiness timer** (`useDrowsyAlert`): a break reminder first at two hours, then half an
  hour after each reminder or dismissal, and its spoken time text;
- the **speed-limit endpoint** (`routes.ts`): query validation, `maxspeed` tag parsing with the
  mph conversion, road-name choice, school-tag detection and the highway-class default table;
- the **speed-limit client** (`useSpeedLimit`): the 5 s / 0.0005° fetch throttle, the abort of
  the previous request and the state transitions on success and failure.

Each stateful hook is a `class` whose fields are the hook's refs and state. The page-visible
state is grouped in one datatype record where the hook keeps it in one `useState`. Each method
is one callback or one effect run, and its `ensures` give the whole new state. Clocks are `now`
parameters. Timeouts and intervals are explicit slots that the caller fires with a `Fire…`
method. Sound and speech are an output log of cues. The pure decisions, such as tiers, the
normaliser, tag parsing, the counters' transitions and the score projection, are functions with
lemmas about them. `common.dfy` holds the shared arithmetic: `Option`, sums and means, the
maximum-or-zero, `Math.round` as `Round` (floor of x + 0.5) and the clamp to 0..100. `text.dfy`
holds the string helpers: digit extraction, decimal printing and parsing, ASCII lower-casing and
substring search.

Three behaviours of the code that a reader might not expect are modelled as written:

- Trip recorder: a tick whose limit is 0 or negative counts as over the limit whenever the speed
  is above it. The code tests `limit === null || speed <= limit`; it has no `limit > 0` guard.
- Zone announcer: re-enabling announcements re-runs both effects on the current props. A
  school-zone flag or limit that differs from the last one seen is therefore announced then.
- Drowsiness timer: the cleanup that runs on unmount stops the interval but keeps the start
  time. Only switching tracking off clears the start time.

## Model

| member | source | states |
|---|---|---|
| Common.MaxOrZeroBounds | use-geolocation.ts:119-122 | `Math.max(...s, 0)` is non-negative, at least every element, and either 0 or an element |
| Common.MaxOrZeroAppend | use-trip-recorder.ts:81-82 | the running maximum after one more speed is the larger of the old maximum and that speed |
| Common.MaxOrZeroOfPositives | use-geolocation.ts:119-122 | the maximum over the positive speeds equals the maximum over all speeds (with 0) |
| Common.PositivesBounds | use-trip-recorder.ts:150-152 | the filtered samples are all strictly positive and no more than the samples |
| Common.PositivesAppend | use-trip-recorder.ts:84-86 | filtering a new sample appends it exactly when it is positive |
| Common.PositivesSubset | use-trip-recorder.ts:150-152 | every filtered speed is one of the samples |
| Common.MeanBetween | use-geolocation.ts:123-127 | the mean of a non-empty sequence lies between any lower and upper bound of its elements |
| Common.MeanAtMostMax | use-geolocation.ts:123-127 | the mean of non-negative speeds lies between 0 and their maximum |
| Common.SumAtMost | use-geolocation.ts:123-125 | a sum of n values each at most m is at most n·m |
| Common.SumAtLeast | use-geolocation.ts:123-125 | a sum of n values each at least m is at least n·m |
| Common.AllAtLeastAppend | use-geolocation.ts:115-117 | a lower bound of all speeds survives appending a speed above it |
| Common.RoundMonotone | use-eco-driving.ts:252 | `Math.round` never decreases |
| Common.RoundOfInt | use-eco-driving.ts:252 | `Math.round` of a whole number is that number |
| Common.RoundShift | use-drowsy-alert.ts:56-59 | rounding commutes with adding a whole number |
| Common.Score | use-eco-driving.ts:252 | `Math.round(Math.max(0, Math.min(100, x)))` lies in 0..100, is `Math.round(x)` inside the range and saturates outside it |
| Common.ScoreMonotone | use-eco-driving.ts:252 | a larger raw score never gives a smaller clamped score |
| Text.DigitsOnly | routes.ts:53 | `replace(/[^0-9]/g, "")` leaves only digits and never lengthens the text |
| Text.DigitsOnlyAppend | routes.ts:53 | stripping non-digits distributes over concatenation |
| Text.DigitsOnlyOfDigits | routes.ts:53 | stripping non-digits from a digit string leaves it unchanged |
| Text.ParseDigits | routes.ts:53 | `parseInt` of the stripped digits is NaN (None) exactly for the empty string |
| Text.NatToString | routes.ts:56 | the decimal text of a number is a non-empty digit string |
| Text.DecimalValueOfNatToString | routes.ts:56 | reading back the decimal text of a number gives that number |
| Text.IntToString | use-zone-announce.ts:81 | the spoken limit is a non-empty text |
| Text.LeadingDigits | routes.ts:91 | the digits `parseInt` reads are the longest all-digit prefix |
| Text.SplitSign | routes.ts:91 | the sign `parseInt` reads is ±1 and the rest is no longer than the input |
| Text.ParseLeadingInt | routes.ts:91 | `parseInt` is NaN (None) exactly when no digit follows the optional sign |
| Text.ParseFloat | routes.ts:16-19 | `parseFloat` is NaN (None) exactly when no digit starts the number |
| Text.Lower | routes.ts:65 | `toLowerCase` keeps the length and lowers every character |
| Text.ContainsLower | routes.ts:64-68 | a text containing a word still contains it after both are lowered |
| Text.ContainsAt | routes.ts:52 | a substring found at a position is contained |
| Geolocation.SpeedKmh | use-geolocation.ts:93-95 | the shown speed is m/s × 3.6; no reading gives 0 and anything below 1 km/h gives 0 |
| Geolocation.SpeedKmhMonotone | use-geolocation.ts:93-95 | a faster reading never shows a lower speed |
| Geolocation.ToKmh | use-geolocation.ts:35-37 | metres per second times 3.6, which divides back to the input; a non-negative speed stays non-negative |
| Geolocation.Message | use-geolocation.ts:66-68 | the text of each error, as a literal table |
| Geolocation.ErrorFor | use-geolocation.ts:150-161 | each error code maps to its own message; every other code gives "Unknown error" |
| Geolocation.NextTotal | use-geolocation.ts:97-107 | the distance never decreases; it grows only when a previous fix exists and the new fix has non-zero latitude and longitude, and then by the haversine segment, which must exceed 2 m; every such segment is added |
| Geolocation.FirstFixAddsNothing | use-geolocation.ts:97 | the first fix after start or reset adds no distance |
| Geolocation.Tracker.constructor | use-geolocation.ts:19-62 | the initial state: not tracking, no fix, empty history, zero max and average |
| Geolocation.Tracker.StartTracking | use-geolocation.ts:64-88 | without a position source only the error is set; otherwise a new trip starts with tracking on and the statistics cleared |
| Geolocation.Tracker.Elapsed | use-geolocation.ts:129-131 | the duration is 0 without a start time and non-negative after it |
| Geolocation.Tracker.MaxSpeed | use-geolocation.ts:119-122 | the shown maximum is non-negative, at least every speed in the history, and 0 or one of them |
| Geolocation.Tracker.AvgSpeed | use-geolocation.ts:123-127 | the shown average is 0 for an empty history and otherwise the sum of the speeds divided by their number |
| Geolocation.Tracker.OnPosition | use-geolocation.ts:89-147 | the speed is floored, a positive speed joins the history, the distance advances by `NextTotal`, and the fix becomes the previous one |
| Geolocation.Tracker.OnPositionError | use-geolocation.ts:149-167 | tracking stops with the error for the code; nothing else changes |
| Geolocation.Tracker.StopTracking | use-geolocation.ts:176-182 | the watch is cleared and tracking is off; the statistics stay |
| Geolocation.Tracker.ResetTrip | use-geolocation.ts:184-196 | history, previous fix and distance are cleared and the start is now; tracking is untouched |
| Geolocation.Tracker.AverageAtMostMaximum | use-geolocation.ts:119-127 | the shown average is non-negative and never exceeds the shown maximum |
| TripRecorder.Close | use-trip-recorder.ts:90-96 | closing an incident keeps its start, peaks and limit and ends it now |
| TripRecorder.Compliant | use-trip-recorder.ts:88 | a tick complies when there is no limit or the speed is at most the limit; a limit of 0 or less makes every positive speed an overspeed |
| TripRecorder.CloseOpen | use-trip-recorder.ts:89-98 | the open incident, if any, is appended as exactly one closed entry after the earlier ones |
| TripRecorder.Extend | use-trip-recorder.ts:115-130 | an over-limit tick opens an incident at speed − limit and speed, or raises the existing peaks to the new values and refreshes the limit |
| TripRecorder.ExtendBounded | use-trip-recorder.ts:111-130 | an extended incident's overspeed stays positive and within any bound of the old one and of the tick |
| TripRecorder.BoundedWeaken | use-trip-recorder.ts:111-113 | incidents within a worst overspeed stay within any larger one |
| TripRecorder.CloseOpenBounded | use-trip-recorder.ts:89-98 | closing keeps every incident's overspeed positive and within the worst |
| TripRecorder.Tick | use-trip-recorder.ts:88-130 | a compliant tick closes the open incident and resets the run; an over-limit tick extends the incident, raises the worst overspeed and adds the time since the previous over-limit tick |
| TripRecorder.TickTimeMonotone | use-trip-recorder.ts:106-108 | time over the limit never decreases |
| TripRecorder.TickValid | use-trip-recorder.ts:103-130 | every tick keeps all incidents positive and within the worst overspeed |
| TripRecorder.OneIncidentPerRun | use-trip-recorder.ts:88-130 | an over-limit run followed by a compliant tick leaves exactly one more incident |
| TripRecorder.Recorder.constructor | use-trip-recorder.ts:45-62 | not recording, no record, all accumulators empty |
| TripRecorder.Recorder.StartRecording | use-trip-recorder.ts:64-75 | recording starts now with every accumulator reset and the old record cleared |
| TripRecorder.Recorder.RecordTick | use-trip-recorder.ts:77-133 | while not recording nothing changes; otherwise the tick is recorded, the maximum and samples updated and the speeding state advanced by `Tick` |
| TripRecorder.Recorder.StopRecording | use-trip-recorder.ts:135-173 | while not recording the result is null; otherwise the open incident is force-closed and the frozen record holds the incidents, worst overspeed, time over limit, max and average |
| TripRecorder.Recorder.ClearRecord | use-trip-recorder.ts:175-177 | recording is off and there is no record |
| TripRecorder.Recorder.AvgSpeed | use-trip-recorder.ts:150-153 | the trip average is 0 without positive samples and otherwise their sum divided by their number |
| TripRecorder.Recorder.RecordFacts | use-trip-recorder.ts:150-167 | in a frozen record every incident's overspeed is positive and at most the worst, and the maximum is at least every tick speed and the average |
| SpeedAlarm.TierFor | use-speed-alarm.ts:134-142 | ≥ 20 aggressive, ≥ 10 moderate, ≥ 5 mild, otherwise none, each as an if-and-only-if |
| SpeedAlarm.TierMonotone | use-speed-alarm.ts:134-142 | going further over the limit never lowers the tier |
| SpeedAlarm.CycleDelay | use-speed-alarm.ts:63-124 | each sounding tier repeats within 1.5 s to 3 s |
| SpeedAlarm.CycleDelayDecreases | use-speed-alarm.ts:63-124 | a more urgent tier repeats sooner |
| SpeedAlarm.Flashes | use-speed-alarm.ts:75-103 | the moderate and aggressive cycles flash the screen, the mild one does not |
| SpeedAlarm.Alarm.constructor | use-speed-alarm.ts:6-24 | not muted, not flashing, no tier, nothing pending; whether speech and an audio context are available is fixed |
| SpeedAlarm.Alarm.PlayCycle | use-speed-alarm.ts:16-125 | once cancelled, or when no audio context can be created (the throw comes before the sound, the flash and the timeout), nothing happens; otherwise the tier's sound, a flash for the upper two tiers and the next continuation |
| SpeedAlarm.Alarm.SpeakWarning | use-speed-alarm.ts:31-45 | "Reduce speed." only with the latch clear and speech available, which sets the latch |
| SpeedAlarm.Alarm.UpdateAlarm | use-speed-alarm.ts:134-186 | muted or below 5: silence, with the latch released only for tier none; same tier while playing: no change; otherwise the old continuation is cleared, the new tier plays, the warning is spoken on entering aggressive, and the cycle's sound, flash and continuation follow only with working audio, its failure being swallowed; at most one continuation pending, and one is pending whenever the alarm plays with working audio |
| SpeedAlarm.Alarm.StopAlarm | use-speed-alarm.ts:188-196 | tier none, not playing, latch and flash off, continuation cleared |
| SpeedAlarm.Alarm.ToggleMute | use-speed-alarm.ts:198-206 | muting stops the alarm; unmuting starts nothing |
| SpeedAlarm.Alarm.FireCycle | use-speed-alarm.ts:63-124 | the continuation plays the next cycle of its tier and schedules the one after; with no continuation nothing changes |
| SpeedAlarm.Alarm.EndFlash | use-speed-alarm.ts:26-29 | a flash-end timeout turns the flash off |
| EcoDriving.Gap | use-eco-driving.ts:114-115 | the time step exists exactly when a previous tick exists and 0 < dt < 10 s |
| EcoDriving.WithinLimit | use-eco-driving.ts:146-151 | a tick keeps to the limit when there is no limit or the speed is at most it |
| EcoDriving.OptimalSpeed | use-eco-driving.ts:153-157 | a tick is economical in the 50–90 km/h band, or below it on a road whose limit is below the band |
| EcoDriving.CountTick | use-eco-driving.ts:104-157 | every accepted tick adds one tick, one speed sample, and at most one within-limit and one optimal-speed tick |
| EcoDriving.CountTickValid | use-eco-driving.ts:146-157 | within-limit and optimal ticks never exceed the tick count |
| EcoDriving.Acceleration | use-eco-driving.ts:173-177 | an acceleration exists exactly with a previous speed and a valid time step |
| EcoDriving.CountAccel | use-eco-driving.ts:179-194 | inside the dead band nothing is counted; above it an acceleration (harsh above 2.5); below it a brake that is harsh below −3 or a coast-down above −1 |
| EcoDriving.CountAccelValid | use-eco-driving.ts:179-194 | harsh accelerations ≤ accelerations, and harsh brakes + coast-downs ≤ brakes |
| EcoDriving.HarshBrakeIsNoCoast | use-eco-driving.ts:185-193 | a harsh brake is never also a coast-down |
| EcoDriving.WrapHeading | use-eco-driving.ts:116-117 | the heading change moves by at most one whole turn, is unchanged within ±180 and lands in ±180 from anywhere within ±540 |
| EcoDriving.LateralG | use-eco-driving.ts:118-121 | the lateral g is never negative at a non-negative speed and is 0 without a heading change or without speed |
| EcoDriving.Lateral | use-eco-driving.ts:107-123 | lateral G is evaluated only with both headings, above 5 km/h and with a valid time step |
| EcoDriving.CountCorner | use-eco-driving.ts:124-139 | a hard corner is counted on the rising edge above 0.3 G; the latch follows every evaluated sample; cornering samples above 0.05 G are recorded |
| EcoDriving.CountCornerValid | use-eco-driving.ts:124-139 | the corner counters stay consistent with the latch |
| EcoDriving.SustainedCornerCountsOnce | use-eco-driving.ts:129-136 | two hard samples in a row count at most one corner |
| EcoDriving.NewCornerAfterRelease | use-eco-driving.ts:129-139 | a sample at or below 0.3 G re-arms the latch, so the next hard sample counts |
| EcoDriving.CountIdle | use-eco-driving.ts:159-171 | an idle period starts on the transition below 2 km/h; idle time grows only between consecutive idle ticks |
| EcoDriving.CountIdleValid | use-eco-driving.ts:159-171 | the idle counters stay consistent with the latch |
| EcoDriving.SumSquares | use-eco-driving.ts:211-213 | the sum of squared deviations is non-negative |
| EcoDriving.RoundCents | use-eco-driving.ts:294-297 | rounding to cents moves a value by at most half a cent |
| EcoDriving.Variance | use-eco-driving.ts:211-213 | the speed variance is non-negative |
| EcoDriving.HarshRatio | use-eco-driving.ts:226-237 | the ratio is 0 without events and in 0..1 otherwise |
| EcoDriving.SmoothnessScore | use-eco-driving.ts:226-230 | the smoothness score lies in 0..100 |
| EcoDriving.SmoothWithoutHarshEvents | use-eco-driving.ts:226-230 | without harsh events the score is at least 80, and 100 without hard corners |
| EcoDriving.AllHarshScoresZero | use-eco-driving.ts:226-230 | when every event is harsh the score is 0 |
| EcoDriving.SmoothnessMonotoneInCorners | use-eco-driving.ts:226-230 | more hard corners never raise the score |
| EcoDriving.RawEcoScore | use-eco-driving.ts:236-251 | the unclamped eco formula: 100 less the harsh, idle, consistency, acceleration and corner penalties, each capped, with the discipline and optimal-speed bonuses |
| EcoDriving.PerfectTripScoresFull | use-eco-driving.ts:236-252 | with no harsh events, no idling, full discipline and optimal speed, no harsh average acceleration and no hard corner, any speed deviation up to 15 km/h still scores 100 |
| EcoDriving.RawEcoScoreBounds | use-eco-driving.ts:236-252 | the unclamped eco score stays within −5..105 for sensible inputs |
| EcoDriving.RawFatigueRisk | use-eco-driving.ts:254-279 | the unclamped fatigue risk lies in 0..100: each factor adds a non-negative amount and the caps sum to 100 |
| EcoDriving.ShortMorningDriveNoRisk | use-eco-driving.ts:254-279 | a short, steady daytime drive carries no fatigue risk |
| EcoDriving.NightDriveRisk | use-eco-driving.ts:254-279 | a night drive carries a fatigue risk of at least 20 |
| EcoDriving.Recent | use-eco-driving.ts:272 | the recent window is the last 30 samples, or all of them |
| EcoDriving.Tracker.constructor | use-eco-driving.ts:33-62 | not tracking and every counter at zero |
| EcoDriving.Tracker.StartEcoTracking | use-eco-driving.ts:64-89 | tracking starts now with every counter reset |
| EcoDriving.Tracker.StopEcoTracking | use-eco-driving.ts:91-93 | tracking stops, the counters stay and the tracker stays valid |
| EcoDriving.Tracker.ResetEco | use-eco-driving.ts:95-98 | every counter reset and tracking off |
| EcoDriving.Tracker.RecordEcoTick | use-eco-driving.ts:100-202 | while not tracking nothing changes; otherwise each counter group advances by its transition and the previous sample becomes this tick |
| EcoDriving.Tracker.EcoReportAt | use-eco-driving.ts:204-301 | the report copies the counters, its three scores lie in 0..100, smoothness is `SmoothnessScore` of the counters, and the percentages lie in 0..100 |
| EcoDriving.DisciplineBound | use-eco-driving.ts:205-207 | a tick count no larger than the total gives a percentage in 0..100 |
| TurnWarning.Trunc | use-turn-warning.ts:11 | truncation toward zero of the heading difference |
| TurnWarning.Rem360 | use-turn-warning.ts:11 | `x % 360` keeps the sign of x, lies in (−360, 360) and differs from x by whole turns |
| TurnWarning.NormalizeHeadingDelta | use-turn-warning.ts:10-15 | the normalised change lies in 0..180 and is the size of the change up to whole turns |
| TurnWarning.NormalizeSmallDelta | use-turn-warning.ts:10-15 | a change within ±180 is normalised to its absolute value |
| TurnWarning.NormalizeSymmetric | use-turn-warning.ts:10-15 | turning left or right by the same amount normalises the same |
| TurnWarning.InWindow | use-turn-warning.ts:81-82 | the window is no longer than the samples, and a newest sample at or after the cutoff is the window's newest |
| TurnWarning.InWindowMembers | use-turn-warning.ts:81-82 | the window keeps exactly the samples at or after the cutoff |
| TurnWarning.InWindowEmpty | use-turn-warning.ts:81-82 | samples all before the cutoff leave an empty window |
| TurnWarning.ChronologicalInit | use-turn-warning.ts:81-82 | samples in time order stay in time order without the newest |
| TurnWarning.InWindowSuffix | use-turn-warning.ts:81-94 | for samples in time order the window is a suffix of them, in their order, and every dropped sample is before the cutoff, so its first element is the oldest sample inside the window |
| TurnWarning.TurnIn | use-turn-warning.ts:92-118 | a classification needs two samples spanning 0.5 s to 3 s; then ≥ 45° is sharp, 25° to 45° mild, less none |
| TurnWarning.Delay | use-turn-warning.ts:110-127 | the cooldown end runs 5 s after a sharp warning and the mild clear 3 s after a mild one |
| TurnWarning.CountOfConcat | use-turn-warning.ts:111-127 | the pending timers of a queue split in two are those of the halves |
| TurnWarning.CountOfRemove | use-turn-warning.ts:111-127 | firing one timer removes exactly that one from the count |
| TurnWarning.Detector.constructor | use-turn-warning.ts:18-24 | no turn, empty window, no cooldown, no timers |
| TurnWarning.Detector.UpdateHeading | use-turn-warning.ts:73-130 | a null heading changes nothing; the window gains the sample and drops those older than 3 s; below 30 km/h the turn flag clears; otherwise a sharp or mild turn is warned unless the cooldown is active |
| TurnWarning.Detector.Warn | use-turn-warning.ts:103-129 | an active cooldown or no turn changes nothing; sharp and mild have their own effects |
| TurnWarning.Detector.WarnSharp | use-turn-warning.ts:103-117 | a sharp turn sets the flag and cooldown, sounds the tone, speaks once where speech exists and schedules the cooldown end (its `Delay` is 5 s) |
| TurnWarning.Detector.WarnMild | use-turn-warning.ts:118-128 | a mild turn sets the flag, sounds the tone and schedules the mild clear (its `Delay` is 3 s) without a cooldown |
| TurnWarning.Detector.FireTimer | use-turn-warning.ts:111-127 | either timer removes itself and clears the turn flag and severity, even a flag set since by a sharp warning; the cooldown end also releases the cooldown and the voice latch, the mild clear leaves both |
| ZoneAnnounce.UnitText | use-zone-announce.ts:80 | the unit spoken as "miles per hour" or "kilometers per hour" |
| ZoneAnnounce.Phrase | use-zone-announce.ts:46-81 | the spoken text of each announcement |
| ZoneAnnounce.Delay | use-zone-announce.ts:45-84 | the school-zone announcements wait 300 ms and a limit announcement 500 ms |
| ZoneAnnounce.SchoolEffect | use-zone-announce.ts:37-61 | an edge of the flag is remembered, shown and announced in place of whatever was pending; no edge, no change |
| ZoneAnnounce.LimitEffect | use-zone-announce.ts:64-85 | the limit is remembered; a new announcement is scheduled exactly when an earlier limit existed and differs |
| ZoneAnnounce.LimitStep | use-zone-announce.ts:65 | a null limit or disabled announcer changes nothing |
| ZoneAnnounce.BaselineIsSilent | use-zone-announce.ts:67-70 | the first limit is stored silently |
| ZoneAnnounce.ChangedLimitAnnounced | use-zone-announce.ts:72-85 | a different limit is always announced |
| ZoneAnnounce.EffectsIdempotent | use-zone-announce.ts:37-85 | the same flag or limit seen twice schedules nothing the second time |
| ZoneAnnounce.Arms | use-zone-announce.ts:64-91 | the limit effect returns its cleanup only when enabled, with a limit, past the first limit |
| ZoneAnnounce.Announcer.constructor | use-zone-announce.ts:9-15 | enabled, with both effects run once on the initial props; the first limit is only stored, so no cleanup is armed |
| ZoneAnnounce.Announcer.Render | use-zone-announce.ts:34-92 | disabled, only the props change; enabled, an armed cleanup clears the slot when the limit or unit changed, the effects run for the inputs that changed, and the cleanup is re-armed exactly when the limit effect gets past its early returns |
| ZoneAnnounce.Announcer.ToggleAnnouncements | use-zone-announce.ts:94-103 | disabling clears the pending announcement; enabling re-runs both effects and arms the cleanup exactly when the limit effect gets past its early returns |
| ZoneAnnounce.Announcer.Fire | use-zone-announce.ts:45-84 | the pending announcement is said, a limit becomes the last announced, and the slot empties |
| ZoneAnnounce.Announcer.Unmount | use-zone-announce.ts:87-91 | the armed cleanup clears the slot |
| DrowsyAlert.WholeHours | use-drowsy-alert.ts:56 | `Math.floor` of the elapsed hours is the integer quotient of the milliseconds by an hour |
| DrowsyAlert.TimeTextAsWritten | use-drowsy-alert.ts:53-66 | the text as computed says the rounded minutes in total, names hours exactly from one hour on, and then gives the whole hours elapsed, so the minutes may reach 60 |
| DrowsyAlert.SixtyMinutesAsWritten | use-drowsy-alert.ts:56-59 | after 10 780 000 ms, past the first two-hour alert, the text says "2 hours and 60 minutes" |
| DrowsyAlert.TimeText | use-drowsy-alert.ts:53-66 | the corrected text says the rounded minutes in total with at most 59 minutes |
| DrowsyAlert.CorrectionOnlyAtSixty | use-drowsy-alert.ts:53-66 | the correction changes the text only where the original says 60 minutes |
| DrowsyAlert.Count | use-drowsy-alert.ts:59-65 | `n unit`, with an "s" above one |
| DrowsyAlert.CountPlural | use-drowsy-alert.ts:59-65 | the singular exactly for counts of at most one |
| DrowsyAlert.TimeWords | use-drowsy-alert.ts:58-66 | the hours and minutes, the hours alone, or the minutes alone, each counted with its unit |
| DrowsyAlert.BreakMessage | use-drowsy-alert.ts:67-69 | the reminder wraps the time words in "You've been driving for …. Consider taking a break." |
| DrowsyAlert.Monitor.constructor | use-drowsy-alert.ts:7-13 | no driving time, no break due, the first alert at 2 h, the interval running when tracking |
| DrowsyAlert.Monitor.SetTracking | use-drowsy-alert.ts:86-120 | starting resets the drive and the next alert to 2 h; stopping clears the interval and the start time |
| DrowsyAlert.Monitor.Tick | use-drowsy-alert.ts:94-105 | the driving time is shown; once it reaches the next alert time a break is due and the next alert is 30 min later; no reminder before 2 h |
| DrowsyAlert.Monitor.DismissBreak | use-drowsy-alert.ts:80-84 | the break is cleared, counted, and the next alert is 30 min later |
| DrowsyAlert.Monitor.Unmount | use-drowsy-alert.ts:114-119 | the interval stops |
| SpeedLimitRoute.ValidateQuery | routes.ts:10-21 | 400 "lat and lon are required" exactly for a missing or empty parameter, "Invalid coordinates" exactly for an unparsable one |
| SpeedLimitRoute.MaxspeedLimit | routes.ts:46-62 | no tag or no digits gives no limit; an mph tag gives the digits × 1.60934 rounded, others the digits; never a limit ≤ 0 |
| SpeedLimitRoute.MaxspeedOfNumber | routes.ts:55-57 | a plain positive number is read back as that limit |
| SpeedLimitRoute.MaxspeedOfMph | routes.ts:52-54 | "N mph" is N·1.60934 rounded |
| SpeedLimitRoute.MphTagParts | routes.ts:52-53 | the digits of "N mph" are those of N and the tag mentions mph |
| SpeedLimitRoute.DigitsHaveNoWord | routes.ts:52 | a string of digits never contains "mph" |
| SpeedLimitRoute.RoadName | routes.ts:47 | the name tag, else the ref tag, else none; never empty |
| SpeedLimitRoute.SchoolTagged | routes.ts:64-68 | a school zone exactly when one of the three tags mentions "school" |
| SpeedLimitRoute.SchoolInAnyCase | routes.ts:64-68 | "school" is found in any spelling of its case |
| SpeedLimitRoute.SchoolsNearby | routes.ts:87-94 | schools are counted only from a reply with elements |
| SpeedLimitRoute.HighwayDefault | routes.ts:124-149 | a default exactly for the seven highway classes, between 20 and 120 |
| SpeedLimitRoute.HighwayDefaultDecreases | routes.ts:124-149 | the default strictly decreases from motorway to living street |
| SpeedLimitRoute.HandleSpeedLimit | routes.ts:9-159 | a 400 reply exactly for a rejected query, with its message; any limit is positive; a primary query that fails or throws gives all nulls; the first tagged road gives the limit of its `maxspeed`, its name, and a school flag from its tags or the nearby schools; with no tagged road, a fallback that throws gives all nulls, one that is not ok or holds no road gives no limit, no road and no school zone, and the first fallback road gives its highway-class default and name with no school zone |
| SpeedLimitClient.ShouldSkip | use-speed-limit.ts:24-31 | skip exactly when a previous fetch exists, is under 5 s old and moved under 0.0005 on both axes; the first call never skips |
| SpeedLimitClient.RepeatWithinWindowSkipped | use-speed-limit.ts:24-31 | the same place within 5 s is skipped |
| SpeedLimitClient.NotSkippedAfterWindowOrMove | use-speed-limit.ts:24-31 | after 5 s or a move on one axis the fetch proceeds |
| SpeedLimitClient.Client.constructor | use-speed-limit.ts:12-21 | no limit, no road, no school zone, not loading, no error |
| SpeedLimitClient.Client.FetchSpeedLimit | use-speed-limit.ts:23-41 | skipped: nothing changes; otherwise the previous request is aborted, the last fetch recorded and loading set |
| SpeedLimitClient.Client.Settle | use-speed-limit.ts:43-68 | an aborted request changes nothing; a reply replaces the state with the school flag defaulting to false; a failure keeps the data and sets the error |

## Left out

- Sound and speech: WebAudio oscillators and `speechSynthesis` are an output log of cues. `speechSynthesis.cancel` and closing the AudioContext are not modelled.
- Timers: `setTimeout` and `setInterval` are explicit slots fired by the caller, with no clock behind them. The delays are stated (`TurnWarning.Delay`, `ZoneAnnounce.Delay`, `SpeedAlarm.CycleDelay`), but nothing forces the caller to fire pending timers in the order their delays would.
- TurnWarning.Detector.FireTimer: the caller picks which pending timer fires, so the model also admits orders that a real clock would not produce.
- SpeedAlarm.Alarm: whether an audio context can be created is a constant of the alarm. An audio context that fails once is modelled as failing on every later cycle, since the hook keeps no context after a failed creation.
- React semantics: effect scheduling, stale closures and render batching are not modelled. A render is one method call that runs the effects whose dependencies changed.
- Floating point: speeds and distances are exact reals; JavaScript's float rounding is not modelled.
- The haversine distance is a function parameter of the position tracker, because its trigonometry is floating point.
- The square root of the eco report is a function parameter. `Math.PI` is its double literal.
- The clock and the hour of day are `now` and `hour` parameters.
- The Overpass HTTP queries, `fetch`, `AbortController` and JSON parsing are given to the handler and the client as the outcome of each request.
- `parseFloat` and `parseInt` are modelled on the digits only; whitespace, exponents and `Infinity` are not.
- `toLowerCase` lowers ASCII letters only.
- The unmount cleanup of `useGeolocation` (`clearWatch`) is not modelled, and neither is the leak of a second watch when tracking is started twice.
- Geolocation.Tracker.OnPosition: the maximum and average are functions of the speed history instead of values stored beside it; `AverageAtMostMaximum` states their relation.
- TripRecorder.Recorder.RecordTick: the open incident is replaced by an updated value rather than changed field by field in place.
- DrowsyAlert.BreakMessage: the spoken reminder is built from the corrected `TimeText`; only its time part carries a contract.
- `speedometer.tsx` is the caller of these hooks and is not part of this model. It derives the alarm's input as the speed above the limit, never negative.

## Findings

| source | as written | input that shows it | evidently intended | confidence | as-written member | corrected member |
|---|---|---|---|---|---|---|
| use-drowsy-alert.ts:56-59 | the minutes are the remainder of the hour rounded on their own, so they round up to 60 in the last 30 s before a whole hour | a page suspended past its next alert that resumes at 10 780 000 ms of driving has its first tick at or above the alert time, and speaks "2 hours and 60 minutes" | round the total minutes first, so the text says "3 hours" | not executed | DrowsyAlert.SixtyMinutesAsWritten | DrowsyAlert.TimeText |
