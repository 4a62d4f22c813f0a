/** The voice-practice challenge (src/components/mission/VoicePracticeChallenge.tsx):
    the user repeats a target phrase aloud a required number of times.

    The transcript and the target are normalised (lower case, accents and
    punctuation removed, trimmed) and compared; an accepted match is
    debounced by strictly more than 2000 ms, hard-stops recognition, clears
    the transcript and counts one repetition; reaching the requirement sets
    a latch, shows success and schedules `onComplete` once.

    Unicode NFD decomposition (`nfd`) and the fuzzy comparison `isSimilar`
    (`similar`) are parameters. Timers are scheduled events in `pending`,
    fired explicitly by `Fire`; the clock (`now`) is an argument. */
module VoicePractice {
  import opened Wrappers
  import opened Text
  import SR = SpeechRecognition

  const SIMILARITY_THRESHOLD: real := 0.85
  const DEBOUNCE_MS := 2000
  const CLEAR_DELAY_MS := 500
  const RESTART_DELAY_MS := 1000
  const COMPLETE_DELAY_MS := 2000
  const HIGHLIGHT_MS := 1500

  // ---------------------------------------------------------------------
  // normalize

  /** The capital letters `toLowerCase` maps in this model: ASCII A-Z and the
      Latin-1 capitals U+00C0..U+00DE other than the multiplication sign. */
  predicate IsUpper(c: char) {
    ('A' <= c <= 'Z') || ('\U{00C0}' <= c <= '\U{00DE}' && c != '\U{00D7}')
  }

  predicate NoUpper(s: string) {
    forall k :: 0 <= k < |s| ==> !IsUpper(s[k])
  }

  function LowerChar(c: char): (d: char)
    ensures !IsUpper(d)
    ensures !IsUpper(c) ==> d == c
  {
    if IsUpper(c) then (c as int + 32) as char else c
  }

  /** `toLowerCase`: every capital replaced by its small letter, every other
      character left as it is. */
  function ToLower(s: string): (r: string)
    ensures |r| == |s| && NoUpper(r)
    ensures forall k :: 0 <= k < |s| && !IsUpper(s[k]) ==> r[k] == s[k]
  {
    seq(|s|, k requires 0 <= k < |s| => LowerChar(s[k]))
  }

  /** The combining diacritical marks U+0300..U+036F that follow NFD. */
  predicate IsCombiningMark(c: char) {
    '\U{0300}' <= c <= '\U{036F}'
  }

  /** The punctuation characters the normaliser deletes. */
  predicate IsStrippedPunctuation(c: char) {
    c in ".,/#!$%^&*;:{}=-_`~()"
  }

  /** `replace(/[...]/g, "")`: `s` with every character satisfying `drop`
      deleted and the others kept in order. */
  function Remove(s: string, drop: char -> bool): (r: string)
    ensures |r| <= |s|
    ensures forall k :: 0 <= k < |r| ==> !drop(r[k])
    ensures forall c :: c in r ==> c in s
    ensures (forall k :: 0 <= k < |s| ==> !drop(s[k])) ==> r == s
    decreases |s|
  {
    if |s| == 0 then ""
    else
      var rest := Remove(s[1..], drop);
      assert s == [s[0]] + s[1..];
      if drop(s[0]) then rest else [s[0]] + rest
  }

  /** `trim` leaves a string alone that neither starts nor ends with
      whitespace. */
  lemma TrimUnchanged(s: string)
    requires s != [] ==> !IsWhitespace(s[0]) && !IsWhitespace(s[|s| - 1])
    ensures Trim(s) == s
  {
  }

  /** The normaliser's deletions: combining marks, then the listed punctuation. */
  function StripMarksAndPunctuation(s: string): (t: string)
    ensures forall k :: 0 <= k < |t| ==> !IsCombiningMark(t[k]) && !IsStrippedPunctuation(t[k])
    ensures forall c :: c in t ==> c in s
  {
    var m := Remove(s, IsCombiningMark);
    var t := Remove(m, IsStrippedPunctuation);
    assert forall k :: 0 <= k < |t| ==> t[k] in m;
    t
  }

  /** The text both sides of the comparison are brought to: lower case,
      decomposed, combining marks and listed punctuation removed, trimmed.
      None of its characters is a mark or a listed punctuation character,
      its ends are not whitespace, and it has no capital when decomposition
      produced none. */
  function Normalize(text: string, nfd: string -> string): (r: string)
    ensures forall k :: 0 <= k < |r| ==> !IsCombiningMark(r[k]) && !IsStrippedPunctuation(r[k])
    ensures r != [] ==> !IsWhitespace(r[0]) && !IsWhitespace(r[|r| - 1])
    ensures NoUpper(nfd(ToLower(text))) ==> NoUpper(r)
  {
    var u := nfd(ToLower(text));
    var t := StripMarksAndPunctuation(u);
    StripKeepsNoUpper(u);
    TrimClean(t);
    Trim(t)
  }

  /** The deletions add no capital. */
  lemma StripKeepsNoUpper(u: string)
    ensures NoUpper(u) ==> NoUpper(StripMarksAndPunctuation(u))
  {
    var t := StripMarksAndPunctuation(u);
    if NoUpper(u) {
      forall k | 0 <= k < |t| ensures !IsUpper(t[k]) {
        assert t[k] in u;
      }
    }
  }

  /** Trimming text free of marks and listed punctuation leaves it free of
      them, with ends that are not whitespace, and adds no capital. */
  lemma TrimClean(t: string)
    requires forall k :: 0 <= k < |t| ==> !IsCombiningMark(t[k]) && !IsStrippedPunctuation(t[k])
    ensures forall k :: 0 <= k < |Trim(t)| ==> !IsCombiningMark(Trim(t)[k]) && !IsStrippedPunctuation(Trim(t)[k])
    ensures Trim(t) != [] ==> !IsWhitespace(Trim(t)[0]) && !IsWhitespace(Trim(t)[|Trim(t)| - 1])
    ensures NoUpper(t) ==> NoUpper(Trim(t))
  {
    TrimSpec(t);
  }

  /** Normalising twice changes nothing more, provided decomposition maps no
      character to a capital and leaves already normalised text alone. */
  lemma NormalizeIdempotent(text: string, nfd: string -> string)
    requires NoUpper(nfd(ToLower(text)))
    requires nfd(Normalize(text, nfd)) == Normalize(text, nfd)
    ensures Normalize(Normalize(text, nfd), nfd) == Normalize(text, nfd)
  {
    var r := Normalize(text, nfd);
    LowerKeepsLower(r);
    StripKeepsClean(r);
    TrimUnchanged(r);
  }

  lemma LowerKeepsLower(r: string)
    requires NoUpper(r)
    ensures ToLower(r) == r
  {
    forall k | 0 <= k < |r| ensures ToLower(r)[k] == r[k] {
      assert !IsUpper(r[k]);
    }
  }

  lemma StripKeepsClean(r: string)
    requires forall k :: 0 <= k < |r| ==> !IsCombiningMark(r[k]) && !IsStrippedPunctuation(r[k])
    ensures StripMarksAndPunctuation(r) == r
  {
    assert Remove(r, IsCombiningMark) == r;
  }

  // ---------------------------------------------------------------------
  // match test and highlight rule

  /** The match test of the effect: the normalised transcript is similar to
      the normalised target at threshold 0.85, or contains it. */
  predicate IsMatch(transcript: string, target: string, nfd: string -> string,
                    similar: (string, string, real) -> bool)
  {
    var nt, ng := Normalize(transcript, nfd), Normalize(target, nfd);
    similar(nt, ng, SIMILARITY_THRESHOLD) || Includes(nt, ng)
  }

  /** Saying the target itself is always a match, whatever `isSimilar` does;
      and a target that normalises to nothing matches every transcript. */
  lemma MatchCases(transcript: string, target: string, nfd: string -> string,
                   similar: (string, string, real) -> bool)
    ensures Normalize(transcript, nfd) == Normalize(target, nfd) ==> IsMatch(transcript, target, nfd, similar)
    ensures Normalize(target, nfd) == [] ==> IsMatch(transcript, target, nfd, similar)
    ensures !similar(Normalize(transcript, nfd), Normalize(target, nfd), SIMILARITY_THRESHOLD)
            && |Normalize(transcript, nfd)| < |Normalize(target, nfd)|
            ==> !IsMatch(transcript, target, nfd, similar)
  {
    IncludesSelf(Normalize(transcript, nfd), Normalize(transcript, nfd));
  }

  /** The words a text is shown as: its normalisation split on single spaces. */
  function Words(text: string, nfd: string -> string): (w: seq<string>)
    ensures |w| >= 1
    ensures forall k :: 0 <= k < |w| ==> ' ' !in w[k]
    ensures Join(w, ' ') == Normalize(text, nfd)
  {
    JoinSplit(Normalize(text, nfd), ' ');
    Split(Normalize(text, nfd), ' ')
  }

  /** Target word `i` is matched when the transcript has a word at `i` and it
      is the same word. */
  predicate WordMatched(targetWords: seq<string>, transcriptWords: seq<string>, i: nat)
    requires i < |targetWords|
  {
    i < |transcriptWords| && transcriptWords[i] == targetWords[i]
  }

  /** A word is shown highlighted when it is matched, or for less than
      1500 ms after the last accepted match. */
  predicate Highlighted(targetWords: seq<string>, transcriptWords: seq<string>, i: nat,
                        now: int, lastMatchTime: int)
    requires i < |targetWords|
  {
    WordMatched(targetWords, transcriptWords, i) || now - lastMatchTime < HIGHLIGHT_MS
  }

  /** Word `i` is matched exactly when the transcript's words agree with the
      target's on it; so a transcript whose words start with all the target's
      words highlights every word, and one with fewer words than `i + 1`
      highlights none past its end (outside the 1500 ms window). */
  lemma HighlightRule(targetWords: seq<string>, transcriptWords: seq<string>, now: int, lastMatchTime: int)
    ensures targetWords <= transcriptWords ==>
      forall i :: 0 <= i < |targetWords| ==> WordMatched(targetWords, transcriptWords, i)
    ensures now - lastMatchTime >= HIGHLIGHT_MS ==>
      forall i :: |transcriptWords| <= i < |targetWords| ==>
        !Highlighted(targetWords, transcriptWords, i, now, lastMatchTime)
    ensures now - lastMatchTime < HIGHLIGHT_MS ==>
      forall i :: 0 <= i < |targetWords| ==> Highlighted(targetWords, transcriptWords, i, now, lastMatchTime)
  {
  }

  // ---------------------------------------------------------------------
  // the challenge state machine

  datatype TimerAction = CallOnComplete | RestartListening | ClearTranscript

  /** A `setTimeout` callback scheduled to run at time `at`. */
  datatype Timer = Timer(at: int, action: TimerAction)

  /** How many scheduled timers will call `onComplete`. */
  function CompleteCount(ts: seq<Timer>): nat
    decreases |ts|
  {
    if |ts| == 0 then 0
    else CompleteCount(ts[..|ts| - 1]) + (if ts[|ts| - 1].action == CallOnComplete then 1 else 0)
  }

  lemma {:induction false} CompleteCountAppend(a: seq<Timer>, b: seq<Timer>)
    ensures CompleteCount(a + b) == CompleteCount(a) + CompleteCount(b)
    decreases |b|
  {
    if |b| == 0 {
      assert a + b == a;
    } else {
      assert (a + b)[..|a + b| - 1] == a + b[..|b| - 1];
      CompleteCountAppend(a, b[..|b| - 1]);
    }
  }

  /** `ts` without its entry `k`, the others in order. */
  function Without(ts: seq<Timer>, k: nat): (r: seq<Timer>)
    requires k < |ts|
    ensures |r| == |ts| - 1
    ensures forall i :: 0 <= i < k ==> r[i] == ts[i]
    ensures forall i :: k <= i < |r| ==> r[i] == ts[i + 1]
  {
    seq(|ts| - 1, i requires 0 <= i < |ts| - 1 => if i < k then ts[i] else ts[i + 1])
  }

  /** Firing timer `k` removes it, and with it one pending `onComplete` call
      when it was one. */
  lemma {:induction false} CompleteCountRemove(ts: seq<Timer>, k: nat)
    requires k < |ts|
    ensures CompleteCount(Without(ts, k)) + (if ts[k].action == CallOnComplete then 1 else 0)
            == CompleteCount(ts)
    decreases |ts|
  {
    var n := |ts|;
    var r := Without(ts, k);
    if k == n - 1 {
      assert r == ts[..n - 1];
    } else {
      CompleteCountRemove(ts[..n - 1], k);
      assert r[..n - 2] == Without(ts[..n - 1], k);
      assert r[n - 2] == ts[n - 1];
    }
  }

  class Challenge {
    const target: string
    const required: int
    /** The speech-recognition hook the challenge drives. */
    const rec: SR.Recognizer
    var repetitions: int
    var showSuccess: bool
    var lastMatchTime: int
    /** `hasCompletedRef`. */
    var completed: bool
    var pending: seq<Timer>
    /** How many times `onComplete` has been called. */
    var completions: nat

    /** The latch is set exactly when the requirement has been reached by at
        least one repetition; success is shown exactly then; `onComplete` is
        called or scheduled once after it and never before; and the counter
        never passes the requirement (or 1, when the requirement is below 1). */
    ghost predicate Valid()
      reads this, rec
    {
      && rec.Valid()
      && 0 <= repetitions <= (if required >= 1 then required else 1)
      && completed == (repetitions > 0 && repetitions >= required)
      && showSuccess == completed
      && completions + CompleteCount(pending) == (if completed then 1 else 0)
    }

    constructor (target: string, required: int)
      ensures Valid() && fresh(rec)
      ensures this.target == target && this.required == required
      ensures repetitions == 0 && !showSuccess && lastMatchTime == 0 && !completed
      ensures pending == [] && completions == 0
      ensures !rec.isListening && rec.transcript == "" && rec.current == None && !rec.hasOnResult
    {
      this.target, this.required := target, required;
      rec := new SR.Recognizer(false);
      repetitions, showSuccess, lastMatchTime, completed := 0, false, 0, false;
      pending, completions := [], 0;
    }

    /** `handleMatch`: nothing once the latch is set. Otherwise record the
        time, hard-stop recognition, clear the transcript and count one
        repetition; reaching the requirement sets the latch and success and
        schedules `onComplete` in 2000 ms, else listening restarts in 1000 ms. */
    method HandleMatch(now: int)
      requires Valid()
      modifies this, rec
      ensures Valid()
      ensures completions == old(completions) && completions <= 1
      ensures old(completed) ==> unchanged(this) && unchanged(rec)
      ensures !old(completed) ==>
        && lastMatchTime == now
        && repetitions == old(repetitions) + 1
        && completed == (repetitions >= required)
        && rec.StoppedAndCleared()
        && pending == old(pending) + (if repetitions >= required
                                      then [Timer(now + COMPLETE_DELAY_MS, CallOnComplete)]
                                      else [Timer(now + RESTART_DELAY_MS, RestartListening)])
    {
      if completed {
        return;
      }
      lastMatchTime := now;
      rec.StopListening(true);
      rec.ResetTranscript();
      // the counter's updater, with its own check of the latch
      if !completed {
        var next := repetitions + 1;
        if next >= required {
          completed := true;
          showSuccess := true;
          CompleteCountAppend(pending, [Timer(now + COMPLETE_DELAY_MS, CallOnComplete)]);
          assert [Timer(now + COMPLETE_DELAY_MS, CallOnComplete)][..0] == [];
          pending := pending + [Timer(now + COMPLETE_DELAY_MS, CallOnComplete)];
        } else {
          CompleteCountAppend(pending, [Timer(now + RESTART_DELAY_MS, RestartListening)]);
          assert [Timer(now + RESTART_DELAY_MS, RestartListening)][..0] == [];
          pending := pending + [Timer(now + RESTART_DELAY_MS, RestartListening)];
        }
        repetitions := next;
      }
    }

    /** The match effect: only while listening; on a match more than 2000 ms
        after the last accepted one, `handleMatch` runs and a transcript
        clear is scheduled in 500 ms. A match within 2000 ms (or no match)
        changes nothing. */
    method CheckMatch(now: int, nfd: string -> string, similar: (string, string, real) -> bool)
      requires Valid()
      modifies this, rec
      ensures Valid()
      ensures completions == old(completions) && completions <= 1
      ensures var accepted := old(rec.isListening)
                              && IsMatch(old(rec.transcript), target, nfd, similar)
                              && now - old(lastMatchTime) > DEBOUNCE_MS;
        && (!accepted ==> unchanged(this) && unchanged(rec))
        && (accepted && old(completed) ==>
              && repetitions == old(repetitions) && lastMatchTime == old(lastMatchTime)
              && unchanged(rec)
              && pending == old(pending) + [Timer(now + CLEAR_DELAY_MS, ClearTranscript)])
        && (accepted && !old(completed) ==>
              && repetitions == old(repetitions) + 1 && lastMatchTime == now
              && rec.StoppedAndCleared()
              && pending == old(pending)
                            + (if repetitions >= required
                               then [Timer(now + COMPLETE_DELAY_MS, CallOnComplete)]
                               else [Timer(now + RESTART_DELAY_MS, RestartListening)])
                            + [Timer(now + CLEAR_DELAY_MS, ClearTranscript)])
    {
      var matched := IsMatch(rec.transcript, target, nfd, similar);
      if rec.isListening && matched && now - lastMatchTime > DEBOUNCE_MS {
        HandleMatch(now);
        var clear := Timer(now + CLEAR_DELAY_MS, ClearTranscript);
        CompleteCountAppend(pending, [clear]);
        assert [clear][..0] == [];
        pending := pending + [clear];
      }
    }

    /** The microphone button: hard-stop while listening, start otherwise. */
    method ToggleMic(supported: bool, startThrows: bool)
      requires Valid()
      modifies rec
      ensures Valid()
      ensures old(rec.isListening) ==> rec.HardStopped()
      ensures !old(rec.isListening) ==> rec.Started(supported, startThrows)
    {
      if rec.isListening {
        rec.StopListening(true);
      } else {
        rec.StartListening(supported, startThrows);
      }
    }

    /** Timer `k` runs: `onComplete` is called, listening restarts, or the
        transcript is cleared; the timer leaves the schedule. */
    method Fire(k: nat, supported: bool, startThrows: bool)
      requires Valid() && k < |pending|
      modifies this, rec
      ensures Valid()
      ensures completions <= 1
      ensures pending == Without(old(pending), k)
      ensures repetitions == old(repetitions) && completed == old(completed)
      ensures lastMatchTime == old(lastMatchTime)
      ensures completions == old(completions) + (if old(pending[k]).action == CallOnComplete then 1 else 0)
      ensures old(pending[k]).action == ClearTranscript ==> rec.TranscriptCleared()
      ensures old(pending[k]).action == RestartListening ==> rec.Started(supported, startThrows)
      ensures old(pending[k]).action == CallOnComplete ==> unchanged(rec)
    {
      var t := pending[k];
      CompleteCountRemove(pending, k);
      pending := Without(pending, k);
      match t.action
      case CallOnComplete =>
        completions := completions + 1;
      case RestartListening =>
        rec.StartListening(supported, startThrows);
      case ClearTranscript =>
        rec.ResetTranscript();
    }
  }
}
