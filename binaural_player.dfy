/** The global session player (src/components/ui/GlobalBinauralPlayer.tsx):
    nothing while the session is inactive, a floating `m:ss` widget with a
    maximise action while minimised, and otherwise the full modal with
    minimise and stop actions. */
module BinauralPlayer {
  import opened Wrappers
  import opened Text
  import opened SoundSession

  lemma SplitSeconds(seconds: nat)
    ensures seconds == 60 * (seconds / 60) + seconds % 60 && seconds % 60 < 60
  {
  }

  /** The clock for `minutes` and `rest` seconds: minutes unpadded, a colon,
      the seconds padded to two digits. */
  function Clock(minutes: nat, rest: nat): (r: string)
    requires rest < 60
    ensures |r| >= 4 && r[|r| - 3] == ':'
    ensures forall k :: 0 <= k < |r| && k != |r| - 3 ==> IsDigit(r[k])
    ensures DigitValue(r[|r| - 2]) < 6
    ensures ClockValue(r) == 60 * minutes + rest
    ensures r[0] == '0' ==> minutes == 0
    ensures r[..|r| - 3] == Decimal(minutes)
  {
    var m, ss := Decimal(minutes), PadStart(Decimal(rest), 2, '0');
    TwoDigits(rest);
    DecimalRoundTrip(minutes);
    ClockFields(m, ss);
    TwoCharacters(ss);
    assert (m + ":" + ss)[..|m|] == m;
    m + ":" + ss
  }

  /** `formatTime`: whole minutes and the remaining seconds. The clock
      reads back as the seconds it was given, and its seconds field stays
      below 60. */
  function FormatTime(seconds: nat): (r: string)
    ensures |r| >= 4 && r[|r| - 3] == ':'
    ensures forall k :: 0 <= k < |r| && k != |r| - 3 ==> IsDigit(r[k])
    ensures DigitValue(r[|r| - 2]) < 6
    ensures ClockValue(r) == seconds
    ensures r[0] == '0' ==> seconds < 60
    ensures r[..|r| - 3] == Decimal(seconds / 60)
  {
    SplitSeconds(seconds);
    Clock(seconds / 60, seconds % 60)
  }

  /** "3:00" for a fresh session. */
  lemma FormatFreshSession()
    ensures FormatTime(SESSION_SECONDS) == "3:00"
  {
    assert Decimal(0) == "0" && Decimal(3) == "3";
    assert PadStart("0", 2, '0') == "00";
    assert Clock(3, 0) == "3:00";
  }

  /** "0:05" five seconds before the end. */
  lemma FormatLastSeconds()
    ensures FormatTime(5) == "0:05"
  {
    assert Decimal(0) == "0" && Decimal(5) == "5";
    assert PadStart("5", 2, '0') == "05";
    assert Clock(0, 5) == "0:05";
  }

  datatype View = Hidden | Floating | Modal

  /** Which part of the player is on screen. */
  function ViewOf(isActive: bool, isMinimized: bool): (v: View)
    ensures v == Hidden <==> !isActive
    ensures v == Floating <==> isActive && isMinimized
    ensures v == Modal <==> isActive && !isMinimized
  {
    if !isActive then Hidden else if isMinimized then Floating else Modal
  }

  /** The floating widget's only action brings the modal back. */
  method PressWidget(s: Session)
    requires s.Valid()
    modifies s`isMinimized
    ensures s.Valid()
    ensures old(ViewOf(s.isActive, s.isMinimized)) == Floating ==> ViewOf(s.isActive, s.isMinimized) == Modal
    ensures old(ViewOf(s.isActive, s.isMinimized)) != Floating ==> unchanged(s)
    ensures s.isActive == old(s.isActive) && s.timeLeft == old(s.timeLeft)
  {
    if ViewOf(s.isActive, s.isMinimized) == Floating {
      s.MaximizeSession();
    }
  }

  /** Either minimise button of the modal shrinks it to the widget. */
  method PressMinimize(s: Session)
    requires s.Valid()
    modifies s`isMinimized
    ensures s.Valid()
    ensures old(ViewOf(s.isActive, s.isMinimized)) == Modal ==> ViewOf(s.isActive, s.isMinimized) == Floating
    ensures old(ViewOf(s.isActive, s.isMinimized)) != Modal ==> unchanged(s)
    ensures s.isActive == old(s.isActive) && s.timeLeft == old(s.timeLeft)
  {
    if ViewOf(s.isActive, s.isMinimized) == Modal {
      s.MinimizeSession();
    }
  }

  /** The modal's close button stops the session with no argument, so with
      the default 0.1-second fade, and the player disappears. */
  method PressStop(s: Session)
    requires s.Valid()
    modifies s
    ensures s.Valid()
    ensures old(ViewOf(s.isActive, s.isMinimized)) == Modal ==>
      ViewOf(s.isActive, s.isMinimized) == Hidden
      && !s.isMinimized && s.timeLeft == SESSION_SECONDS && s.awards == old(s.awards)
      && s.muteCalls == old(s.muteCalls) + [SetMute(true, Some(DEFAULT_FADE))]
    ensures old(ViewOf(s.isActive, s.isMinimized)) != Modal ==> unchanged(s)
  {
    if ViewOf(s.isActive, s.isMinimized) == Modal {
      s.StopSession(NoArgument);
    }
  }
}
