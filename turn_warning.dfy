/** The turn detector (`useTurnWarning`): keeps the heading samples of the last three seconds and,
    above 30 km/h, warns of a sharp turn (45° or more) or a mild one (25° or more) measured across
    that window, with a five-second cooldown after a sharp warning. The clock is the `now`
    argument; the two timeouts are pending timers fired by the caller; tone and speech are an output
    log. */
module TurnWarning {
  import opened Common

  datatype TurnSeverity = MildTurn | SharpTurn

  datatype HeadingSample = HeadingSample(heading: real, timestamp: int)

  /** The two timeouts the detector schedules: the end of the cooldown after a sharp turn, and the
      end of a mild warning. */
  datatype Timer = CooldownEnd | MildClear

  /** The delay of a timeout in milliseconds: 5 s for the cooldown, 3 s for a mild warning. */
  function Delay(t: Timer): nat
  {
    match t
    case CooldownEnd => 5000
    case MildClear => 3000
  }

  datatype Cue = WarningTone | SharpTurnAhead

  const WindowMs := 3000
  const MinSpanMs := 500
  const MinTurnSpeed := 30.0
  const SharpDegrees := 45.0
  const MildDegrees := 25.0

  /** JavaScript's truncation of `x` toward zero. */
  function Trunc(x: real): (n: int)
    ensures x >= 0.0 ==> n as real <= x < (n + 1) as real
    ensures x < 0.0 ==> (n - 1) as real < x <= n as real
  {
    if x >= 0.0 then x.Floor else -((-x).Floor)
  }

  /** `k` whole turns, in degrees. */
  function Turns(k: int): real
  {
    360.0 * (k as real)
  }

  /** JavaScript's `x % 360`: the remainder takes the sign of `x`. */
  function Rem360(x: real): (r: real)
    ensures -360.0 < r < 360.0
    ensures x >= 0.0 ==> r >= 0.0
    ensures x < 0.0 ==> r <= 0.0
    ensures exists k: int :: r == x - Turns(k)
  {
    var k := Trunc(x / 360.0);
    assert x - Turns(k) == x - 360.0 * (k as real);
    x - Turns(k)
  }

  function Abs(x: real): real { if x < 0.0 then -x else x }

  /** `normalizeHeadingDelta`: the size of a heading change in degrees, folded into [0, 180]. */
  function NormalizeHeadingDelta(delta: real): (r: real)
    ensures 0.0 <= r <= 180.0
    ensures exists k: int :: r == Abs(delta - Turns(k))
  {
    var d0 := Rem360(delta);
    var k0 :| d0 == delta - Turns(k0);
    var d1 := if d0 > 180.0 then d0 - 360.0 else d0;
    var d2 := if d1 < -180.0 then d1 + 360.0 else d1;
    var k := if d0 > 180.0 then k0 + 1 else if d1 < -180.0 then k0 - 1 else k0;
    assert d2 == delta - Turns(k);
    Abs(d2)
  }

  /** A change of at most half a turn is its own size. */
  lemma NormalizeSmallDelta(delta: real)
    requires -180.0 <= delta <= 180.0
    ensures NormalizeHeadingDelta(delta) == Abs(delta)
  {
    var k := Trunc(delta / 360.0);
    assert k == 0;
  }

  /** Turning left or right by the same amount is the same change. */
  lemma NormalizeSymmetric(delta: real)
    ensures NormalizeHeadingDelta(-delta) == NormalizeHeadingDelta(delta)
  {
    assert Trunc(-delta / 360.0) == -Trunc(delta / 360.0);
  }

  /** The samples at or after `cutoff`, in order (`filter(s => s.timestamp >= cutoff)`). */
  function InWindow(samples: seq<HeadingSample>, cutoff: int): (w: seq<HeadingSample>)
    ensures |w| <= |samples|
    ensures |samples| > 0 && samples[|samples| - 1].timestamp >= cutoff ==>
      |w| > 0 && w[|w| - 1] == samples[|samples| - 1]
  {
    if samples == [] then []
    else
      var rest := InWindow(samples[..|samples| - 1], cutoff);
      var last := samples[|samples| - 1];
      assert samples == samples[..|samples| - 1] + [last];
      if last.timestamp >= cutoff then rest + [last] else rest
  }

  /** The window keeps exactly the samples at or after the cutoff. */
  lemma {:induction false} InWindowMembers(samples: seq<HeadingSample>, cutoff: int)
    ensures forall x :: x in InWindow(samples, cutoff) <==> x in samples && x.timestamp >= cutoff
    decreases |samples|
  {
    if samples != [] {
      var init := samples[..|samples| - 1];
      var last := samples[|samples| - 1];
      assert samples == init + [last];
      InWindowMembers(init, cutoff);
    }
  }

  /** Samples arrive in time order. */
  predicate Chronological(samples: seq<HeadingSample>)
  {
    forall i, j :: 0 <= i < j < |samples| ==> samples[i].timestamp <= samples[j].timestamp
  }

  /** A window after every sample is empty. */
  lemma {:induction false} InWindowEmpty(samples: seq<HeadingSample>, cutoff: int)
    requires forall i :: 0 <= i < |samples| ==> samples[i].timestamp < cutoff
    ensures InWindow(samples, cutoff) == []
    decreases |samples|
  {
    if samples != [] {
      InWindowEmpty(samples[..|samples| - 1], cutoff);
    }
  }

  /** Dropping the newest sample keeps the samples in time order. */
  lemma ChronologicalInit(samples: seq<HeadingSample>)
    requires |samples| > 0 && Chronological(samples)
    ensures Chronological(samples[..|samples| - 1])
  {
    var init := samples[..|samples| - 1];
    forall i, j | 0 <= i < j < |init| ensures init[i].timestamp <= init[j].timestamp {
      assert init[i] == samples[i] && init[j] == samples[j];
    }
  }

  /** On samples in time order the window is a suffix: the filter keeps the order, drops only
      samples before the cutoff, and its first element is the oldest sample inside the window. */
  lemma {:induction false} InWindowSuffix(samples: seq<HeadingSample>, cutoff: int, w: seq<HeadingSample>)
    requires Chronological(samples)
    requires w == InWindow(samples, cutoff)
    ensures w == samples[|samples| - |w|..]
    ensures forall i :: 0 <= i < |samples| - |w| ==> samples[i].timestamp < cutoff
    decreases |samples|
  {
    if samples != [] {
      var n := |samples|;
      var init := samples[..n - 1];
      var last := samples[n - 1];
      assert samples == init + [last];
      ChronologicalInit(samples);
      var rest := InWindow(init, cutoff);
      InWindowSuffix(init, cutoff, rest);
      var m := |rest|;
      if last.timestamp >= cutoff {
        assert w == rest + [last];
        assert samples[n - m - 1..] == init[n - 1 - m..] + [last];
      } else {
        forall i | 0 <= i < n ensures samples[i].timestamp < cutoff {
          if i < n - 1 {
            assert samples[i].timestamp <= samples[n - 1].timestamp;
          }
        }
        InWindowEmpty(samples, cutoff);
      }
    }
  }

  /** The turn a window of samples shows, before the cooldown is consulted: none with fewer than two
      samples or a span under half a second or over three seconds; otherwise sharp at 45° or more
      between the oldest and newest heading, mild at 25° or more. */
  function TurnIn(w: seq<HeadingSample>): (t: Option<TurnSeverity>)
    ensures t.Some? ==> |w| >= 2 && MinSpanMs <= w[|w| - 1].timestamp - w[0].timestamp <= WindowMs
    ensures |w| >= 2 && MinSpanMs <= w[|w| - 1].timestamp - w[0].timestamp <= WindowMs ==>
      var change := NormalizeHeadingDelta(w[|w| - 1].heading - w[0].heading);
      && (t == Some(SharpTurn) <==> change >= SharpDegrees)
      && (t == Some(MildTurn) <==> MildDegrees <= change < SharpDegrees)
  {
    if |w| < 2 then None
    else
      var span := w[|w| - 1].timestamp - w[0].timestamp;
      if span < MinSpanMs then None
      else
        var change := NormalizeHeadingDelta(w[|w| - 1].heading - w[0].heading);
        if change >= SharpDegrees && span <= WindowMs then Some(SharpTurn)
        else if change >= MildDegrees && span <= WindowMs then Some(MildTurn)
        else None
  }

  function CountOf(timers: seq<Timer>, t: Timer): nat
  {
    if timers == [] then 0
    else CountOf(timers[..|timers| - 1], t) + (if timers[|timers| - 1] == t then 1 else 0)
  }

  lemma CountOfAppend(timers: seq<Timer>, t: Timer, u: Timer)
    ensures CountOf(timers + [u], t) == CountOf(timers, t) + (if u == t then 1 else 0)
  {
    assert (timers + [u])[..|timers + [u]| - 1] == timers;
  }

  /** The count over two lists is the sum of the counts. */
  lemma {:induction false} CountOfConcat(a: seq<Timer>, b: seq<Timer>, t: Timer)
    ensures CountOf(a + b, t) == CountOf(a, t) + CountOf(b, t)
    decreases |b|
  {
    if b == [] {
      assert a + b == a;
    } else {
      var init := b[..|b| - 1];
      CountOfConcat(a, init, t);
      assert a + b == (a + init) + [b[|b| - 1]];
      CountOfAppend(a + init, t, b[|b| - 1]);
    }
  }

  /** Removing the i-th timer lowers the count of its kind by one and leaves the other kind alone. */
  lemma CountOfRemove(timers: seq<Timer>, i: nat, t: Timer)
    requires i < |timers|
    ensures CountOf(timers[..i] + timers[i + 1..], t) == CountOf(timers, t) - (if timers[i] == t then 1 else 0)
  {
    assert timers == (timers[..i] + [timers[i]]) + timers[i + 1..];
    CountOfConcat(timers[..i] + [timers[i]], timers[i + 1..], t);
    CountOfConcat(timers[..i], timers[i + 1..], t);
    CountOfAppend(timers[..i], t, timers[i]);
  }

  class Detector {
    const speechAvailable: bool

    var isTurning: bool
    var turnSeverity: Option<TurnSeverity>

    var samples: seq<HeadingSample>
    var voiceSpoken: bool
    var cooldown: bool
    /** The timeouts not yet run, in the order they were scheduled. */
    var timers: seq<Timer>
    var cues: seq<Cue>

    /** A cooldown is on exactly while its end is pending, once; the voice latch implies the
        cooldown; a turn is shown exactly with a severity. */
    ghost predicate Valid()
      reads this
    {
      && CountOf(timers, CooldownEnd) == (if cooldown then 1 else 0)
      && (voiceSpoken ==> cooldown && speechAvailable)
      && (isTurning <==> turnSeverity.Some?)
    }

    constructor (speechAvailable: bool)
      ensures Valid()
      ensures this.speechAvailable == speechAvailable
      ensures !isTurning && samples == [] && !cooldown && timers == [] && cues == []
    {
      this.speechAvailable := speechAvailable;
      isTurning, turnSeverity := false, None;
      samples, voiceSpoken, cooldown, timers, cues := [], false, false, [], [];
    }

    /** `updateHeading(heading, speed)` at time `now`. A missing heading is ignored. Otherwise the
        sample joins the window, which then keeps the last three seconds only; below 30 km/h (or
        without a speed) a shown turn is cleared; above it, outside a cooldown, the window's turn is
        shown with a tone: a sharp one starts the cooldown and says "Sharp turn ahead" once, a mild
        one is cleared after three seconds. */
    method UpdateHeading(heading: Option<real>, speed: Option<real>, now: int)
      requires Valid()
      modifies this`isTurning, this`turnSeverity, this`samples, this`voiceSpoken, this`cooldown, this`timers, this`cues
      ensures Valid()
      ensures heading.None? ==> unchanged(this)
      ensures heading.Some? ==> samples == InWindow(old(samples) + [HeadingSample(heading.value, now)], now - WindowMs)
      ensures heading.Some? && (speed.None? || speed.value < MinTurnSpeed) ==>
        && !isTurning && turnSeverity.None?
        && cooldown == old(cooldown) && voiceSpoken == old(voiceSpoken) && timers == old(timers) && cues == old(cues)
      ensures heading.Some? && speed.Some? && speed.value >= MinTurnSpeed && (old(cooldown) || TurnIn(samples).None?) ==>
        && isTurning == old(isTurning) && turnSeverity == old(turnSeverity)
        && cooldown == old(cooldown) && voiceSpoken == old(voiceSpoken) && timers == old(timers) && cues == old(cues)
      ensures heading.Some? && speed.Some? && speed.value >= MinTurnSpeed && !old(cooldown) && TurnIn(samples) == Some(SharpTurn) ==>
        && isTurning && turnSeverity == Some(SharpTurn) && cooldown
        && voiceSpoken == speechAvailable && timers == old(timers) + [CooldownEnd]
        && cues == old(cues) + [WarningTone] + (if speechAvailable then [SharpTurnAhead] else [])
      ensures heading.Some? && speed.Some? && speed.value >= MinTurnSpeed && !old(cooldown) && TurnIn(samples) == Some(MildTurn) ==>
        && isTurning && turnSeverity == Some(MildTurn) && !cooldown && voiceSpoken == old(voiceSpoken)
        && timers == old(timers) + [MildClear] && cues == old(cues) + [WarningTone]
    {
      if heading.None? {
        return;
      }
      samples := InWindow(samples + [HeadingSample(heading.value, now)], now - WindowMs);

      if speed.None? || speed.value < MinTurnSpeed {
        if isTurning {
          isTurning, turnSeverity := false, None;
        }
        return;
      }

      Warn(TurnIn(samples));
    }

    /** The part of `updateHeading` above the speed threshold: outside a cooldown, the window's
        turn `turn` is shown with a tone; a sharp one starts the cooldown and says "Sharp turn
        ahead" once, a mild one is cleared after three seconds. */
    method Warn(turn: Option<TurnSeverity>)
      requires Valid()
      modifies this`isTurning, this`turnSeverity, this`voiceSpoken, this`cooldown, this`timers, this`cues
      ensures Valid()
      ensures old(cooldown) || turn.None? ==> unchanged(this)
      ensures !old(cooldown) && turn == Some(SharpTurn) ==>
        && isTurning && turnSeverity == Some(SharpTurn) && cooldown
        && voiceSpoken == speechAvailable && timers == old(timers) + [CooldownEnd]
        && cues == old(cues) + [WarningTone] + (if speechAvailable then [SharpTurnAhead] else [])
      ensures !old(cooldown) && turn == Some(MildTurn) ==>
        && isTurning && turnSeverity == Some(MildTurn) && !cooldown && voiceSpoken == old(voiceSpoken)
        && timers == old(timers) + [MildClear] && cues == old(cues) + [WarningTone]
    {
      if cooldown || turn.None? {
        return;
      }
      if turn.value == SharpTurn {
        WarnSharp();
      } else {
        WarnMild();
      }
    }

    /** A sharp turn outside a cooldown: shown with a tone, the cooldown starts and "Sharp turn
        ahead" is said where speech exists. */
    method WarnSharp()
      requires Valid() && !cooldown
      modifies this`isTurning, this`turnSeverity, this`voiceSpoken, this`cooldown, this`timers, this`cues
      ensures Valid()
      ensures isTurning && turnSeverity == Some(SharpTurn) && cooldown
      ensures voiceSpoken == speechAvailable && timers == old(timers) + [CooldownEnd]
      ensures cues == old(cues) + [WarningTone] + (if speechAvailable then [SharpTurnAhead] else [])
    {
      assert !voiceSpoken;
      CountOfAppend(timers, CooldownEnd, CooldownEnd);
      cooldown, timers := true, timers + [CooldownEnd];
      isTurning, turnSeverity := true, Some(SharpTurn);
      var tone := cues + [WarningTone];
      if speechAvailable {
        cues, voiceSpoken := tone + [SharpTurnAhead], true;
      } else {
        cues := tone;
      }
    }

    /** A mild turn outside a cooldown: shown with a tone, and cleared after three seconds. */
    method WarnMild()
      requires Valid() && !cooldown
      modifies this`isTurning, this`turnSeverity, this`timers, this`cues
      ensures Valid()
      ensures isTurning && turnSeverity == Some(MildTurn)
      ensures timers == old(timers) + [MildClear] && cues == old(cues) + [WarningTone]
    {
      CountOfAppend(timers, CooldownEnd, MildClear);
      isTurning, turnSeverity := true, Some(MildTurn);
      cues, timers := cues + [WarningTone], timers + [MildClear];
    }

    /** The i-th pending timeout runs: the end of a cooldown releases the cooldown and the voice
        latch and clears the warning; the end of a mild warning clears the warning. */
    method FireTimer(i: nat)
      requires Valid()
      modifies this`isTurning, this`turnSeverity, this`voiceSpoken, this`cooldown, this`timers
      ensures Valid()
      ensures i >= |old(timers)| ==> unchanged(this)
      ensures i < |old(timers)| ==>
        && timers == old(timers)[..i] + old(timers)[i + 1..]
        && !isTurning && turnSeverity.None?
        && (old(timers)[i] == CooldownEnd ==> !cooldown && !voiceSpoken)
        && (old(timers)[i] == MildClear ==> cooldown == old(cooldown) && voiceSpoken == old(voiceSpoken))
    {
      if i >= |timers| {
        return;
      }
      var t := timers[i];
      CountOfRemove(timers, i, CooldownEnd);
      timers := timers[..i] + timers[i + 1..];
      if t == CooldownEnd {
        cooldown, voiceSpoken := false, false;
      }
      isTurning, turnSeverity := false, None;
    }
  }
}
