/** The speed alarm (`useSpeedAlarm`): maps how far the driver is over the limit to one of four
    tiers, keeps at most one self-rescheduling sound cycle alive for the current tier, and says
    "Reduce speed." once per escalation to the top tier. Timeouts are a pending-cycle slot and a
    count of pending flash ends, fired by the caller; the sounds and speech are an output log. */
module SpeedAlarm {
  import opened Common

  datatype AlarmTier = NoAlarm | Mild | Moderate | Aggressive

  /** What the alarm emits: one cycle of a tier's sound, or the spoken "Reduce speed.". */
  datatype Cue = CycleSound(tier: AlarmTier) | ReduceSpeed

  /** A pending continuation of the sound cycle: its tier and its delay in milliseconds. */
  datatype Pending = Pending(tier: AlarmTier, delayMs: nat)

  /** The tier for an amount over the limit (km/h or mph, as the page computes it). */
  function TierFor(overBy: real): (t: AlarmTier)
    ensures t == Aggressive <==> overBy >= 20.0
    ensures t == Moderate <==> 10.0 <= overBy < 20.0
    ensures t == Mild <==> 5.0 <= overBy < 10.0
    ensures t == NoAlarm <==> overBy < 5.0
  {
    if overBy >= 20.0 then Aggressive
    else if overBy >= 10.0 then Moderate
    else if overBy >= 5.0 then Mild
    else NoAlarm
  }

  function Rank(t: AlarmTier): nat
  {
    match t
    case NoAlarm => 0
    case Mild => 1
    case Moderate => 2
    case Aggressive => 3
  }

  /** Going further over the limit never lowers the tier. */
  lemma TierMonotone(a: real, b: real)
    requires a <= b
    ensures Rank(TierFor(a)) <= Rank(TierFor(b))
  {
  }

  /** The interval between two cycles of a tier: 3 s mild, 2 s moderate, 1.5 s aggressive; the
      faster the more urgent. */
  function CycleDelay(t: AlarmTier): (ms: nat)
    ensures t != NoAlarm ==> 1500 <= ms <= 3000
  {
    match t
    case Mild => 3000
    case Moderate => 2000
    case Aggressive => 1500
    case NoAlarm => 0
  }

  /** A more urgent tier repeats its cycle sooner. */
  lemma CycleDelayDecreases(t: AlarmTier, u: AlarmTier)
    requires 0 < Rank(t) < Rank(u)
    ensures CycleDelay(u) < CycleDelay(t)
  {
  }

  /** The moderate and aggressive cycles flash the screen; the mild one only beeps. */
  predicate Flashes(t: AlarmTier)
  {
    t == Moderate || t == Aggressive
  }

  class Alarm {
    /** Whether the browser offers speech synthesis. */
    const speechAvailable: bool
    /** Whether an audio context can be created; when it cannot, `getAudioContext` throws and every
        cycle stops before its sound, its flash and its continuation. */
    const audioAvailable: bool

    // React state.
    var isMuted: bool
    var isFlashing: bool
    var tier: AlarmTier

    // The hook's refs.
    var isPlaying: bool
    var cancelled: bool
    var voiceSpoken: bool
    var currentTier: AlarmTier
    /** `cycleTimeoutRef`: the continuation waiting to run, if any. */
    var cycle: Option<Pending>

    /** The 150 ms flash-end timeouts not yet run. */
    var flashEnds: nat
    /** Everything played or spoken so far. */
    var cues: seq<Cue>

    /** The alarm plays exactly when the current tier is not "none"; a pending continuation is for
        that tier and not cancelled, and one is pending whenever the alarm plays with working audio
        and never without it; the shown tier is the current one; muting keeps it silent; and the
        voice latch is set only where speech exists. */
    ghost predicate Valid()
      reads this
    {
      && tier == currentTier
      && (isPlaying <==> currentTier != NoAlarm)
      && (cycle.Some? ==> cycle.value == Pending(currentTier, CycleDelay(currentTier)) && !cancelled && isPlaying)
      && (audioAvailable ==> (isPlaying ==> cycle.Some?))
      && (!audioAvailable ==> cycle.None?)
      && (isMuted ==> !isPlaying)
      && (voiceSpoken ==> speechAvailable)
    }

    constructor (speechAvailable: bool, audioAvailable: bool)
      ensures Valid()
      ensures this.speechAvailable == speechAvailable && this.audioAvailable == audioAvailable
      ensures !isMuted && !isFlashing && tier == NoAlarm && !isPlaying && !voiceSpoken && cycle.None?
      ensures flashEnds == 0 && cues == []
    {
      this.speechAvailable, this.audioAvailable := speechAvailable, audioAvailable;
      isMuted, isFlashing, tier := false, false, NoAlarm;
      isPlaying, cancelled, voiceSpoken, currentTier, cycle := false, false, false, NoAlarm, None;
      flashEnds, cues := 0, [];
    }

    /** One cycle of tier `t` (`playMildCycle` and its siblings): nothing once cancelled or when
        the audio context cannot be created (the throw comes before the sound, the flash and the
        continuation); otherwise the sound, a flash for the two upper tiers, and the next
        continuation. */
    method PlayCycle(t: AlarmTier)
      requires t != NoAlarm
      modifies this`cues, this`isFlashing, this`flashEnds, this`cycle
      ensures cancelled || !audioAvailable ==>
        cues == old(cues) && isFlashing == old(isFlashing) && flashEnds == old(flashEnds) && cycle == old(cycle)
      ensures !cancelled && audioAvailable ==>
        && cues == old(cues) + [CycleSound(t)]
        && isFlashing == (Flashes(t) || old(isFlashing))
        && flashEnds == old(flashEnds) + (if Flashes(t) then 1 else 0)
        && cycle == Some(Pending(t, CycleDelay(t)))
    {
      if cancelled || !audioAvailable {
        return;
      }
      if Flashes(t) {
        isFlashing, flashEnds := true, flashEnds + 1;
      }
      cues := cues + [CycleSound(t)];
      cycle := Some(Pending(t, CycleDelay(t)));
    }

    /** `speakWarning`: once per latch, and only where speech exists. */
    method SpeakWarning()
      modifies this`cues, this`voiceSpoken
      ensures voiceSpoken == (old(voiceSpoken) || speechAvailable)
      ensures cues == old(cues) + (if !old(voiceSpoken) && speechAvailable then [ReduceSpeed] else [])
    {
      if voiceSpoken {
        return;
      }
      if speechAvailable {
        cues := cues + [ReduceSpeed];
        voiceSpoken := true;
      }
    }

    /** `updateAlarm(overBy)`. Muted or below 5: silence, with the voice latch released only when
        the tier itself is "none". The same tier while playing: nothing changes. Otherwise the old
        continuation is cleared and the new tier's cycle starts, after "Reduce speed." on entering
        the top tier with the latch clear; without audio the speech still happens but the cycle
        fails at once and the failure is swallowed. */
    method UpdateAlarm(overBy: real)
      requires Valid()
      modifies this`isFlashing, this`tier, this`isPlaying, this`cancelled, this`voiceSpoken,
               this`currentTier, this`cycle, this`flashEnds, this`cues
      ensures Valid()
      ensures var t := TierFor(overBy);
        (isMuted || t == NoAlarm) ==>
          && tier == NoAlarm && !isPlaying && cycle.None?
          && cancelled == (old(isPlaying) || old(cancelled))
          && isFlashing == (!old(isPlaying) && old(isFlashing))
          && voiceSpoken == (t != NoAlarm && old(voiceSpoken))
          && cues == old(cues) && flashEnds == old(flashEnds)
      ensures var t := TierFor(overBy);
        !isMuted && t != NoAlarm && t == old(currentTier) && old(isPlaying) ==> unchanged(this)
      ensures var t := TierFor(overBy);
        var speak := t == Aggressive && !old(voiceSpoken) && speechAvailable;
        !isMuted && t != NoAlarm && !(t == old(currentTier) && old(isPlaying)) ==>
          && tier == t && isPlaying && !cancelled
          && cycle == (if audioAvailable then Some(Pending(t, CycleDelay(t))) else None)
          && voiceSpoken == (speak || old(voiceSpoken))
          && cues == old(cues) + (if speak then [ReduceSpeed] else []) + (if audioAvailable then [CycleSound(t)] else [])
          && isFlashing == ((audioAvailable && Flashes(t)) || old(isFlashing))
          && flashEnds == old(flashEnds) + (if audioAvailable && Flashes(t) then 1 else 0)
    {
      var newTier := TierFor(overBy);
      if isMuted || newTier == NoAlarm {
        if isPlaying {
          cancelled := true;
          cycle := None;
          isPlaying := false;
          isFlashing := false;
        }
        currentTier := NoAlarm;
        tier := NoAlarm;
        if newTier == NoAlarm {
          voiceSpoken := false;
        }
        return;
      }
      if newTier == currentTier && isPlaying {
        return;
      }
      cancelled := true;
      cycle := None;
      cancelled := false;
      currentTier := newTier;
      isPlaying := true;
      tier := newTier;
      if newTier == Aggressive && !voiceSpoken {
        SpeakWarning();
      }
      PlayCycle(newTier);
    }

    /** `stopAlarm`: silence, the voice latch released, the flash off and the continuation cleared. */
    method StopAlarm()
      requires Valid()
      modifies this`cancelled, this`isPlaying, this`voiceSpoken, this`currentTier, this`tier,
               this`isFlashing, this`cycle
      ensures Valid()
      ensures cancelled && !isPlaying && !voiceSpoken && currentTier == NoAlarm && tier == NoAlarm
      ensures !isFlashing && cycle.None?
    {
      cancelled, isPlaying, voiceSpoken := true, false, false;
      currentTier, tier, isFlashing := NoAlarm, NoAlarm, false;
      cycle := None;
    }

    /** `toggleMute`: muting stops the alarm; unmuting starts nothing. */
    method ToggleMute()
      requires Valid()
      modifies this`isMuted, this`cancelled, this`isPlaying, this`voiceSpoken, this`currentTier, this`tier,
               this`isFlashing, this`cycle
      ensures Valid()
      ensures isMuted == !old(isMuted)
      ensures isMuted ==> cancelled && !isPlaying && !voiceSpoken && tier == NoAlarm && !isFlashing && cycle.None?
      ensures !isMuted ==>
        cancelled == old(cancelled) && isPlaying == old(isPlaying) && voiceSpoken == old(voiceSpoken)
        && tier == old(tier) && isFlashing == old(isFlashing) && cycle == old(cycle)
    {
      var next := !isMuted;
      if next {
        StopAlarm();
      }
      isMuted := next;
    }

    /** The pending continuation runs: it plays the next cycle only when the alarm was not
        cancelled and is still in the continuation's tier. */
    method FireCycle()
      requires Valid()
      modifies this`cues, this`isFlashing, this`flashEnds, this`cycle
      ensures Valid()
      ensures old(cycle).None? ==> unchanged(this)
      ensures old(cycle).Some? ==>
        var t := old(cycle).value.tier;
        && cues == old(cues) + [CycleSound(t)]
        && isFlashing == (Flashes(t) || old(isFlashing))
        && flashEnds == old(flashEnds) + (if Flashes(t) then 1 else 0)
        && cycle == old(cycle)
    {
      if cycle.None? {
        return;
      }
      var t := cycle.value.tier;
      cycle := None;
      if !cancelled && currentTier == t {
        PlayCycle(t);
      }
    }

    /** A 150 ms flash-end timeout runs. */
    method EndFlash()
      requires Valid()
      modifies this`isFlashing, this`flashEnds
      ensures Valid()
      ensures old(flashEnds) == 0 ==> isFlashing == old(isFlashing) && flashEnds == 0
      ensures old(flashEnds) > 0 ==> !isFlashing && flashEnds == old(flashEnds) - 1
    {
      if flashEnds > 0 {
        isFlashing, flashEnds := false, flashEnds - 1;
      }
    }
  }
}
