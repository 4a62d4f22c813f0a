/** The record button (src/components/ui/AIVoiceInput.tsx): a toggle that
    counts recorded seconds while on, calls `onStart` while recording and
    `onStop(seconds)` when a recording ends, and an optional demo mode that
    toggles by itself until the button is pressed.

    The component's effects are folded into the event that triggers them:
    after each change of `submitted` or `time` the recording effect runs
    once. The one-second interval is `Tick`, the demo timeouts are
    `DemoStep`; the environment calls them when they are due. */
module VoiceInput {
  import opened Wrappers
  import opened Text

  /** `n.toString().padStart(2, "0")`: a digit string of value `n`, of
      exactly two digits below 100. */
  function TwoDigitField(n: nat): (f: string)
    ensures |f| >= 2
    ensures forall k :: 0 <= k < |f| ==> IsDigit(f[k])
    ensures ParseDigits(f) == n
    ensures n < 100 ==> |f| == 2
  {
    DecimalRoundTrip(n);
    ParseZeroPadded(Decimal(n), 2);
    DecimalLength(n);
    PadStart(Decimal(n), 2, '0')
  }

  /** Minutes and seconds, both padded to two digits. */
  function PaddedClock(minutes: nat, rest: nat): (r: string)
    requires rest < 60
    ensures |r| >= 5 && r[|r| - 3] == ':'
    ensures forall k :: 0 <= k < |r| && k != |r| - 3 ==> IsDigit(r[k])
    ensures DigitValue(r[|r| - 2]) < 6
    ensures ClockValue(r) == 60 * minutes + rest
    ensures minutes < 100 ==> |r| == 5
  {
    var m, ss := TwoDigitField(minutes), TwoDigitField(rest);
    ClockFields(m, ss);
    TwoCharacters(ss);
    m + ":" + ss
  }

  lemma SplitSeconds(seconds: nat)
    ensures seconds == 60 * (seconds / 60) + seconds % 60 && seconds % 60 < 60
    ensures seconds < 6000 ==> seconds / 60 < 100
  {
  }

  /** `formatTime`: whole minutes and the remaining seconds, each padded to
      two digits, around a colon. The clock reads back as the seconds it
      shows and its seconds field stays below 60. */
  function FormatClock(seconds: nat): (r: string)
    ensures |r| >= 5 && r[|r| - 3] == ':'
    ensures forall k :: 0 <= k < |r| && k != |r| - 3 ==> IsDigit(r[k])
    ensures DigitValue(r[|r| - 2]) < 6
    ensures ClockValue(r) == seconds
  {
    SplitSeconds(seconds);
    PaddedClock(seconds / 60, seconds % 60)
  }

  /** Below 100 minutes the clock has exactly five characters. */
  lemma FormatClockWidth(seconds: nat)
    requires seconds < 6000
    ensures |FormatClock(seconds)| == 5
  {
    SplitSeconds(seconds);
  }

  /** A new recording shows "00:00". */
  lemma FormatClockStart()
    ensures FormatClock(0) == "00:00"
  {
    assert Decimal(0) == "0" && PadStart("0", 2, '0') == "00";
    assert TwoDigitField(0) == "00";
    assert PaddedClock(0, 0) == "00:00";
  }

  /** 65 seconds show "01:05". */
  lemma FormatClockMinute()
    ensures FormatClock(65) == "01:05"
  {
    assert Decimal(1) == "1" && PadStart("1", 2, '0') == "01";
    assert Decimal(5) == "5" && PadStart("5", 2, '0') == "05";
    assert TwoDigitField(1) == "01" && TwoDigitField(5) == "05";
    assert PaddedClock(1, 5) == "01:05";
    assert 65 / 60 == 1 && 65 % 60 == 5;
  }

  /** The demo's next timeout: start a take, or end it. */
  datatype DemoStep = RunAnimation | EndTake

  class Recorder {
    var submitted: bool
    var time: nat
    var isDemo: bool
    var demo: Option<DemoStep>
    /** How often `onStart` was called, and every `onStop` duration. */
    var startCalls: nat
    var stopCalls: seq<nat>

    /** Off the recording the counter is back at 0; every reported duration
        is positive; the demo has exactly one timeout pending while it
        runs, and which one matches the toggle. */
    ghost predicate Valid()
      reads this
    {
      && (!submitted ==> time == 0)
      && (forall k :: 0 <= k < |stopCalls| ==> stopCalls[k] > 0)
      && (isDemo <==> demo.Some?)
      && (demo == Some(RunAnimation) ==> !submitted)
      && (demo == Some(EndTake) ==> submitted)
    }

    /** In demo mode the first take is scheduled at once. */
    constructor (demoMode: bool)
      ensures Valid()
      ensures !submitted && time == 0 && isDemo == demoMode
      ensures demo == (if demoMode then Some(RunAnimation) else None)
      ensures startCalls == 0 && stopCalls == []
    {
      submitted, time, isDemo := false, 0, demoMode;
      demo := if demoMode then Some(RunAnimation) else None;
      startCalls, stopCalls := 0, [];
    }

    /** The recording effect: while recording it calls `onStart`; otherwise a
        positive count is reported to `onStop` and reset. */
    method RecordingEffect()
      modifies this`time, this`startCalls, this`stopCalls
      ensures submitted ==> startCalls == old(startCalls) + 1 && time == old(time) && stopCalls == old(stopCalls)
      ensures !submitted && old(time) > 0 ==>
        startCalls == old(startCalls) && time == 0 && stopCalls == old(stopCalls) + [old(time)]
      ensures !submitted && old(time) == 0 ==> unchanged(this)
    {
      if submitted {
        startCalls := startCalls + 1;
      } else if time > 0 {
        stopCalls := stopCalls + [time];
        time := 0;
      }
    }

    /** `handleClick`: in demo mode it leaves the demo (cancelling its
        timeout) and stops; otherwise it toggles the recording. */
    method HandleClick()
      requires Valid()
      modifies this
      ensures Valid()
      ensures old(isDemo) ==> !isDemo && demo == None && !submitted
      ensures !old(isDemo) ==> !isDemo && demo == None && submitted == !old(submitted)
      ensures submitted ==> time == old(time) && startCalls == old(startCalls) + 1 && stopCalls == old(stopCalls)
      ensures !submitted ==> time == 0 && startCalls == old(startCalls)
      ensures !submitted && old(submitted) && old(time) > 0 ==> stopCalls == old(stopCalls) + [old(time)]
      ensures !(old(submitted) && old(time) > 0) ==> stopCalls == old(stopCalls)
    {
      var was := submitted;
      if isDemo {
        isDemo, demo := false, None;
        submitted := false;
      } else {
        submitted := !submitted;
      }
      if submitted != was {
        RecordingEffect();
      }
    }

    /** One run of the one-second interval, which exists while recording:
        the counter goes up and, its dependency having changed, the effect
        calls `onStart` again. */
    method Tick()
      requires Valid()
      modifies this
      ensures Valid()
      ensures !old(submitted) ==> unchanged(this)
      ensures old(submitted) ==>
        && submitted && time == old(time) + 1 && startCalls == old(startCalls) + 1
        && stopCalls == old(stopCalls) && isDemo == old(isDemo) && demo == old(demo)
    {
      if submitted {
        time := time + 1;
        RecordingEffect();
      }
    }

    /** The pending demo timeout fires: a take starts, or the running take
        ends and the next is scheduled a second later. */
    method DemoStep()
      requires Valid()
      modifies this
      ensures Valid()
      ensures old(demo) == None ==> unchanged(this)
      ensures old(demo) == Some(RunAnimation) ==>
        submitted && demo == Some(EndTake) && time == old(time)
        && startCalls == old(startCalls) + 1 && stopCalls == old(stopCalls)
      ensures old(demo) == Some(EndTake) ==>
        && !submitted && demo == Some(RunAnimation) && time == 0 && startCalls == old(startCalls)
        && stopCalls == old(stopCalls) + (if old(time) > 0 then [old(time)] else [])
      ensures isDemo == old(isDemo)
    {
      if demo == Some(RunAnimation) {
        submitted, demo := true, Some(EndTake);
        RecordingEffect();
      } else if demo == Some(EndTake) {
        submitted, demo := false, Some(RunAnimation);
        RecordingEffect();
      }
    }
  }
}
