/** The speech-recognition hook (src/hooks/useSpeechRecognition.ts): a
    start / soft-stop / hard-stop state machine over one recogniser
    instance at a time, and the transcript it assembles from result events.

    Recogniser instances are numbered in creation order. What the browser
    decides is a parameter: whether the API exists (`supported`) and
    whether `start()` throws (`startThrows`); the instance events (`onstart`,
    `onend`, `onresult`, `onerror`) are methods the environment calls with the
    number of the instance that raised them. The commands the hook sends to
    instances are recorded, in order, in `commands`. */
module SpeechRecognition {
  import opened Wrappers

  const UNSUPPORTED_ERROR := "Speech Recognition API not supported in this browser."
  const START_FAILED_ERROR := "Failed to start recording."

  /** One entry of a result event's `results`: the transcript of its first
      alternative, and whether the entry is final. */
  datatype SpeechResult = SpeechResult(transcript: string, isFinal: bool)

  /** A command sent to a recogniser instance. */
  datatype Command = Start(instance: nat) | Stop(instance: nat) | Abort(instance: nat)

  /** The full transcript of a result event: the first alternatives of all
      results, concatenated in order. */
  function FullTranscript(results: seq<SpeechResult>): string
    decreases |results|
  {
    if |results| == 0 then "" else FullTranscript(results[..|results| - 1]) + results[|results| - 1].transcript
  }

  /** The transcript grows result by result: the full transcript of `a + b`
      is that of `a` followed by that of `b`. */
  lemma {:induction false} FullTranscriptAppend(a: seq<SpeechResult>, b: seq<SpeechResult>)
    ensures FullTranscript(a + b) == FullTranscript(a) + FullTranscript(b)
    decreases |b|
  {
    if |b| == 0 {
      assert a + b == a;
    } else {
      var b' := b[..|b| - 1];
      assert (a + b)[..|a + b| - 1] == a + b';
      FullTranscriptAppend(a, b');
    }
  }

  /** The full transcript of one result is its first alternative. */
  lemma FullTranscriptSingle(r: SpeechResult)
    ensures FullTranscript([r]) == r.transcript
  {
    assert [r][..0] == [];
  }

  /** The concatenated transcripts of the results whose finality is `final`. */
  function TranscriptOf(results: seq<SpeechResult>, final: bool): string
    decreases |results|
  {
    if |results| == 0 then ""
    else TranscriptOf(results[..|results| - 1], final)
         + (if results[|results| - 1].isFinal == final then results[|results| - 1].transcript else "")
  }

  /** The results whose finality is `final`, in their order. */
  function Finality(results: seq<SpeechResult>, final: bool): (r: seq<SpeechResult>)
    ensures |r| <= |results|
    ensures forall k :: 0 <= k < |r| ==> r[k].isFinal == final && r[k] in results
    decreases |results|
  {
    if |results| == 0 then []
    else Finality(results[..|results| - 1], final)
         + (if results[|results| - 1].isFinal == final then [results[|results| - 1]] else [])
  }

  /** Each part is the transcript of exactly the results of its finality. */
  lemma {:induction false} TranscriptOfFinality(results: seq<SpeechResult>, final: bool)
    ensures TranscriptOf(results, final) == FullTranscript(Finality(results, final))
    decreases |results|
  {
    if |results| > 0 {
      var init, last := results[..|results| - 1], results[|results| - 1];
      TranscriptOfFinality(init, final);
      if last.isFinal == final {
        FullTranscriptAppend(Finality(init, final), [last]);
        FullTranscriptSingle(last);
      } else {
        assert Finality(results, final) == Finality(init, final);
      }
    }
  }

  /** Every result is in exactly one of the two parts, as often as it
      occurs: together they are a rearrangement of the results. */
  lemma {:induction false} FinalityPartition(results: seq<SpeechResult>)
    ensures multiset(Finality(results, true)) + multiset(Finality(results, false)) == multiset(results)
    decreases |results|
  {
    if |results| > 0 {
      var init, last := results[..|results| - 1], results[|results| - 1];
      FinalityPartition(init);
      assert results == init + [last];
    }
  }

  /** The final and interim parts together are as long as the full
      transcript. */
  lemma {:induction false} PartsCoverTranscript(results: seq<SpeechResult>)
    ensures |TranscriptOf(results, true)| + |TranscriptOf(results, false)| == |FullTranscript(results)|
    decreases |results|
  {
    if |results| > 0 {
      PartsCoverTranscript(results[..|results| - 1]);
    }
  }

  /** The loop of the result handler, from `event.resultIndex` on: the final
      results' transcripts and the interim ones', each concatenated in order.
      The handler computes both and then discards them. */
  method SplitByFinality(results: seq<SpeechResult>, resultIndex: nat) returns (finalText: string, interimText: string)
    ensures resultIndex <= |results| ==> finalText == TranscriptOf(results[resultIndex..], true)
    ensures resultIndex <= |results| ==> interimText == TranscriptOf(results[resultIndex..], false)
    ensures resultIndex > |results| ==> finalText == "" && interimText == ""
  {
    finalText, interimText := "", "";
    var i := resultIndex;
    while i < |results|
      invariant resultIndex <= |results| ==> resultIndex <= i <= |results|
      invariant resultIndex <= |results| ==> finalText == TranscriptOf(results[resultIndex..i], true)
      invariant resultIndex <= |results| ==> interimText == TranscriptOf(results[resultIndex..i], false)
      invariant resultIndex > |results| ==> finalText == "" && interimText == ""
      decreases |results| - i
    {
      assert results[resultIndex..i + 1][..i - resultIndex] == results[resultIndex..i];
      if results[i].isFinal {
        finalText := finalText + results[i].transcript;
      } else {
        interimText := interimText + results[i].transcript;
      }
      i := i + 1;
    }
    if resultIndex <= |results| {
      assert results[resultIndex..i] == results[resultIndex..];
    }
  }

  class Recognizer {
    var isListening: bool
    var transcript: string
    var error: Option<string>
    /** The instance `recognitionRef` holds. */
    var current: Option<nat>
    /** The number the next created instance gets. */
    var created: nat
    /** The instances whose `onend` and `onerror` handlers were set to null. */
    var detached: set<nat>
    var commands: seq<Command>
    /** The transcripts passed to the optional `onResult` callback. */
    var reported: seq<string>
    const hasOnResult: bool

    ghost predicate Valid()
      reads this
    {
      && (current.Some? ==> current.value < created)
      && (forall i :: i in detached ==> i < created)
    }

    constructor (hasOnResult: bool)
      ensures Valid()
      ensures !isListening && transcript == "" && error == None && current == None
      ensures created == 0 && detached == {} && commands == [] && reported == []
      ensures this.hasOnResult == hasOnResult
    {
      isListening, transcript, error, current := false, "", None, None;
      created, detached, commands, reported := 0, {}, [], [];
      this.hasOnResult := hasOnResult;
    }

    /** What `startListening` does, between the state before and after it:
        the error and the transcript are cleared; without the API the error
        says so and nothing is created. Otherwise an instance is created, the
        previous one is aborted, and the new one is started and becomes
        current only if `start()` did not throw. Nothing else changes. */
    twostate predicate Started(supported: bool, startThrows: bool)
      reads this
    {
      && transcript == "" && isListening == old(isListening) && detached == old(detached)
      && reported == old(reported)
      && (!supported ==>
        && error == Some(UNSUPPORTED_ERROR) && created == old(created)
        && current == old(current) && commands == old(commands))
      && (supported ==>
        && created == old(created) + 1
        && commands == old(commands)
                       + (if old(current).Some? then [Abort(old(current).value)] else [])
                       + [Start(old(created))]
        && (startThrows ==> error == Some(START_FAILED_ERROR) && current == old(current))
        && (!startThrows ==> error == None && current == Some(old(created))))
    }

    /** What a hard stop does: the current instance, if any, is detached and
        aborted, none is current, and listening stops at once. The
        transcript, the error and the count of instances stay. */
    twostate predicate HardStopped()
      reads this
    {
      && transcript == old(transcript) && error == old(error) && created == old(created)
      && reported == old(reported)
      && !isListening && current == None
      && detached == old(detached) + (if old(current).Some? then {old(current).value} else {})
      && commands == old(commands) + (if old(current).Some? then [Abort(old(current).value)] else [])
    }

    /** A hard stop followed by `resetTranscript`: everything `HardStopped`
        says, except that the transcript is now empty. */
    twostate predicate StoppedAndCleared()
      reads this
    {
      && transcript == "" && error == old(error) && created == old(created)
      && reported == old(reported)
      && !isListening && current == None
      && detached == old(detached) + (if old(current).Some? then {old(current).value} else {})
      && commands == old(commands) + (if old(current).Some? then [Abort(old(current).value)] else [])
    }

    /** What `resetTranscript` does: the transcript is empty and nothing else
        changes. */
    twostate predicate TranscriptCleared()
      reads this
    {
      && transcript == ""
      && isListening == old(isListening) && error == old(error) && current == old(current)
      && created == old(created) && detached == old(detached) && commands == old(commands)
      && reported == old(reported)
    }

    /** `startListening`: see `Started`. */
    method StartListening(supported: bool, startThrows: bool)
      requires Valid()
      modifies this
      ensures Valid() && Started(supported, startThrows)
    {
      error := None;
      transcript := "";
      if !supported {
        error := Some(UNSUPPORTED_ERROR);
        return;
      }
      var instance := created;
      created := created + 1;
      if current.Some? {
        commands := commands + [Abort(current.value)];
      }
      commands := commands + [Start(instance)];
      if startThrows {
        error := Some(START_FAILED_ERROR);
      } else {
        current := Some(instance);
      }
    }

    /** `stopListening(force)`. A hard stop detaches the current instance's
        `onend`/`onerror`, aborts it, forgets it and stops listening at once.
        A soft stop only asks the instance to stop; the flag and the instance
        stay until its `onend`. */
    method StopListening(force: bool)
      requires Valid()
      modifies this
      ensures Valid()
      ensures transcript == old(transcript) && error == old(error) && created == old(created)
      ensures reported == old(reported)
      ensures force ==> HardStopped()
      ensures !force ==>
        && isListening == old(isListening) && current == old(current) && detached == old(detached)
        && commands == old(commands) + (if old(current).Some? then [Stop(old(current).value)] else [])
    {
      if current.Some? {
        if force {
          detached := detached + {current.value};
          commands := commands + [Abort(current.value)];
          current := None;
        } else {
          commands := commands + [Stop(current.value)];
        }
      }
      if force {
        isListening := false;
      }
    }

    /** `resetTranscript`: clear the transcript and nothing else. */
    method ResetTranscript()
      modifies this
      ensures TranscriptCleared()
    {
      transcript := "";
    }

    /** An instance's `onstart`. */
    method OnStart(instance: nat)
      requires Valid() && instance < created
      modifies this`isListening
      ensures isListening
    {
      isListening := true;
    }

    /** An instance's `onend`: stops listening unless its handler was detached. */
    method OnEnd(instance: nat)
      requires Valid() && instance < created
      modifies this`isListening
      ensures isListening == (old(isListening) && instance in detached)
    {
      if instance !in detached {
        isListening := false;
      }
    }

    /** An instance's `onerror`: records the error and stops listening, unless
        its handler was detached. */
    method OnError(instance: nat, message: string)
      requires Valid() && instance < created
      modifies this`isListening, this`error
      ensures instance !in detached ==> error == Some(message) && !isListening
      ensures instance in detached ==> error == old(error) && isListening == old(isListening)
    {
      if instance !in detached {
        error := Some(message);
        isListening := false;
      }
    }

    /** An instance's `onresult` (never detached): the transcript becomes the
        concatenation of every result's first alternative, which is also
        passed to `onResult` when one was given. */
    method OnResult(instance: nat, results: seq<SpeechResult>, resultIndex: nat)
      requires Valid() && instance < created
      modifies this`transcript, this`reported
      ensures transcript == FullTranscript(results)
      ensures reported == old(reported) + (if hasOnResult then [FullTranscript(results)] else [])
    {
      var finalText, interimText := SplitByFinality(results, resultIndex);
      transcript := FullTranscript(results);
      if hasOnResult {
        reported := reported + [transcript];
      }
    }

    /** The unmount cleanup: ask the current instance, if any, to stop. */
    method Unmount()
      requires Valid()
      modifies this`commands
      ensures commands == old(commands) + (if current.Some? then [Stop(current.value)] else [])
    {
      if current.Some? {
        commands := commands + [Stop(current.value)];
      }
    }
  }
}
