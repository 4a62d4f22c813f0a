/** The binaural-beat session (src/context/SoundContext.tsx): a three-minute
    countdown that can be started, stopped, minimised and maximised, and
    that awards 50 XP when it runs out.

    The one-second interval is the method `Tick`, which the environment
    calls while the interval exists (the session is active with time left).
    The calls to the store's `awardXP` and to the sound service's `setMute`
    are recorded, in order, and the model lets each of them return; neither
    is provided by its collaborator (src/context/AppContext.tsx:150,
    src/services/soundService.ts), so nothing else is assumed about them. */
module SoundSession {
  import opened Wrappers

  const SESSION_SECONDS := 180
  const SESSION_XP := 50
  const END_FADE: real := 3.0
  const DEFAULT_FADE: real := 0.1

  /** What `stopSession` may be given: nothing, a number, or something else
      (a click event passed straight through). */
  datatype FadeArgument = NoArgument | Number(seconds: real) | NotANumber

  /** The fade `stopSession` uses: the argument when it is a number, else 0.1. */
  function FadeDuration(arg: FadeArgument): (d: real)
    ensures arg.Number? ==> d == arg.seconds
    ensures !arg.Number? ==> d == DEFAULT_FADE
  {
    if arg.Number? then arg.seconds else DEFAULT_FADE
  }

  /** A call to the sound service's `setMute(muted, fade?)`. */
  datatype MuteCall = SetMute(muted: bool, fade: Option<real>)

  class Session {
    var isActive: bool
    var isMinimized: bool
    var timeLeft: int
    var awards: seq<int>
    var muteCalls: seq<MuteCall>

    /** The time left is always between 0 and 180 seconds, it is 0 only
        once a session has run out and stopped, and every award is the
        session's 50 XP. */
    ghost predicate Valid()
      reads this
    {
      && 0 <= timeLeft <= SESSION_SECONDS
      && (timeLeft == 0 ==> !isActive)
      && (forall k :: 0 <= k < |awards| ==> awards[k] == SESSION_XP)
    }

    constructor ()
      ensures Valid()
      ensures !isActive && !isMinimized && timeLeft == SESSION_SECONDS
      ensures awards == [] && muteCalls == []
    {
      isActive, isMinimized, timeLeft := false, false, SESSION_SECONDS;
      awards, muteCalls := [], [];
    }

    /** `startSession`: active, full modal, a fresh three minutes, unmuted. */
    method StartSession()
      requires Valid()
      modifies this
      ensures Valid()
      ensures isActive && !isMinimized && timeLeft == SESSION_SECONDS
      ensures awards == old(awards) && muteCalls == old(muteCalls) + [SetMute(false, None)]
    {
      isActive := true;
      isMinimized := false;
      timeLeft := SESSION_SECONDS;
      muteCalls := muteCalls + [SetMute(false, None)];
    }

    /** `stopSession(fade)`: from any state, inactive, not minimised, back to
        three minutes, muted with the fade of `FadeDuration`. */
    method StopSession(arg: FadeArgument)
      requires Valid()
      modifies this
      ensures Valid()
      ensures !isActive && !isMinimized && timeLeft == SESSION_SECONDS
      ensures awards == old(awards)
      ensures muteCalls == old(muteCalls) + [SetMute(true, Some(FadeDuration(arg)))]
    {
      var duration := FadeDuration(arg);
      isActive := false;
      isMinimized := false;
      timeLeft := SESSION_SECONDS;
      muteCalls := muteCalls + [SetMute(true, Some(duration))];
    }

    /** One run of the interval, which exists only while the session is
        active with time left. Above one second it counts down by one; at
        one second it awards 50 XP and stops the session with a 3-second
        fade. `stopSession` runs inside the state updater, so its 180 is
        queued before the updater's own result, 0, which is applied last:
        the session ends stopped at 0 seconds. */
    method Tick()
      requires Valid()
      modifies this
      ensures Valid()
      ensures !(old(isActive) && old(timeLeft) > 0) ==> unchanged(this)
      ensures old(isActive) && old(timeLeft) > 1 ==>
        && isActive && isMinimized == old(isMinimized) && timeLeft == old(timeLeft) - 1
        && awards == old(awards) && muteCalls == old(muteCalls)
      ensures old(isActive) && old(timeLeft) == 1 ==>
        && !isActive && !isMinimized && timeLeft == 0
        && awards == old(awards) + [SESSION_XP]
        && muteCalls == old(muteCalls) + [SetMute(true, Some(END_FADE))]
    {
      if !(isActive && timeLeft > 0) {
        return;
      }
      var prev := timeLeft;
      if prev <= 1 {
        awards := awards + [SESSION_XP];
        StopSession(Number(END_FADE));
        timeLeft := 0;
      } else {
        timeLeft := prev - 1;
      }
    }

    /** The effect's second branch, which would stop an active session at
        0 seconds. Only a stopped session is at 0 seconds, so the branch is
        dead. */
    method RedundantStopCheck()
      requires Valid()
      ensures !(timeLeft == 0 && isActive)
    {
      if timeLeft == 0 && isActive {
        assert false;
      }
    }

    /** `minimizeSession`: only `isMinimized` changes. */
    method MinimizeSession()
      modifies this`isMinimized
      ensures isMinimized
    {
      isMinimized := true;
    }

    /** `maximizeSession`: only `isMinimized` changes. */
    method MaximizeSession()
      modifies this`isMinimized
      ensures !isMinimized
    {
      isMinimized := false;
    }
  }
}
