/** The new-dream form (src/pages/AddDream.tsx): a title, a description, a
    clarity from 1 to 5, a lucid switch and a comma-separated list of tags.
    Saving needs a description; it hands the dream to the progress store
    and goes home.

    The clock and identifier values `addDream` draws on are parameters of
    `HandleSubmit`, passed on to the store. */
module AddDream {
  import opened Wrappers
  import opened Text
  import ProgressStore

  /** The title used when none was typed. */
  const UNTITLED := "Sonho sem título"
  const INITIAL_CLARITY := 3
  const TAG_SEPARATOR := ','

  /** `title || 'Sonho sem título'`: an empty title is falsy. */
  function FinalTitle(title: string): (r: string)
    ensures r != ""
    ensures title != "" ==> r == title
    ensures title == "" ==> r == UNTITLED
  {
    if title == "" then UNTITLED else title
  }

  // ---------------------------------------------------------------------
  // tags

  /** `.map(t => t.trim())`. */
  function TrimEach(pieces: seq<string>): (r: seq<string>)
    ensures |r| == |pieces|
    ensures forall k :: 0 <= k < |r| ==> r[k] == Trim(pieces[k])
  {
    seq(|pieces|, k requires 0 <= k < |pieces| => Trim(pieces[k]))
  }

  /** `.filter(Boolean)`: the non-empty strings, in order. */
  function KeepNonEmpty(ts: seq<string>): (r: seq<string>)
    ensures |r| <= |ts|
    ensures forall k :: 0 <= k < |r| ==> r[k] != "" && r[k] in ts
    decreases |ts|
  {
    if |ts| == 0 then []
    else if ts[0] == "" then KeepNonEmpty(ts[1..])
    else [ts[0]] + KeepNonEmpty(ts[1..])
  }

  /** Filtering a concatenation filters each part. */
  lemma {:induction false} KeepNonEmptyAppend(a: seq<string>, b: seq<string>)
    ensures KeepNonEmpty(a + b) == KeepNonEmpty(a) + KeepNonEmpty(b)
    decreases |a|
  {
    if |a| == 0 {
      assert a + b == b;
    } else {
      assert (a + b)[0] == a[0] && (a + b)[1..] == a[1..] + b;
      KeepNonEmptyAppend(a[1..], b);
    }
  }

  /** The filter drops exactly the empty strings: everything it keeps was
      there, and every non-empty string there is kept. */
  lemma {:induction false} KeepNonEmptyKeeps(ts: seq<string>, t: string)
    ensures t in KeepNonEmpty(ts) <==> t in ts && t != ""
    decreases |ts|
  {
    if |ts| > 0 {
      KeepNonEmptyKeeps(ts[1..], t);
      assert ts == [ts[0]] + ts[1..];
    }
  }

  /** `tags.split(',').map(t => t.trim()).filter(Boolean)`. */
  function ParseTags(s: string): seq<string> {
    KeepNonEmpty(TrimEach(Split(s, TAG_SEPARATOR)))
  }

  /** A tag as the form promises it: non-empty, with no comma, and neither
      starting nor ending with whitespace. */
  predicate WellFormedTag(t: string) {
    && t != ""
    && TAG_SEPARATOR !in t
    && !IsWhitespace(t[0]) && !IsWhitespace(t[|t| - 1])
  }

  /** Every tag is well formed. */
  lemma TagsWellFormed(s: string)
    ensures forall k :: 0 <= k < |ParseTags(s)| ==> WellFormedTag(ParseTags(s)[k])
  {
    var pieces := Split(s, TAG_SEPARATOR);
    var trimmed := TrimEach(pieces);
    forall k | 0 <= k < |ParseTags(s)|
      ensures WellFormedTag(ParseTags(s)[k])
    {
      var t := ParseTags(s)[k];
      assert t != "" && t in trimmed;
      var p :| 0 <= p < |trimmed| && trimmed[p] == t;
      var piece := pieces[p];
      assert t == Trim(piece);
      TrimSpec(piece);
      assert TAG_SEPARATOR !in t by {
        if TAG_SEPARATOR in t {
          TrimSubset(piece, TAG_SEPARATOR);
        }
      }
    }
  }

  lemma TrimEachAppend(a: seq<string>, b: seq<string>)
    ensures TrimEach(a + b) == TrimEach(a) + TrimEach(b)
  {
  }

  /** Tags keep the order in which they were typed: the tags before a comma
      come before the tags after it. */
  lemma TagsInOrder(a: string, b: string)
    ensures ParseTags(a + [TAG_SEPARATOR] + b) == ParseTags(a) + ParseTags(b)
  {
    SplitAppend(a, b, TAG_SEPARATOR);
    var pa, pb := Split(a, TAG_SEPARATOR), Split(b, TAG_SEPARATOR);
    TrimEachAppend(pa, pb);
    KeepNonEmptyAppend(TrimEach(pa), TrimEach(pb));
  }

  /** Text without a comma gives its trimmed self as the only tag, or no tag
      when it is blank. */
  lemma OneTag(s: string)
    requires TAG_SEPARATOR !in s
    ensures Trim(s) != "" ==> ParseTags(s) == [Trim(s)]
    ensures Trim(s) == "" ==> ParseTags(s) == []
  {
    NoSeparatorSplit(s);
  }

  lemma {:induction false} NoSeparatorSplit(s: string)
    requires TAG_SEPARATOR !in s
    ensures Split(s, TAG_SEPARATOR) == [s]
    decreases |s|
  {
    if |s| > 0 {
      assert s[0] != TAG_SEPARATOR;
      assert TAG_SEPARATOR !in s[1..] by {
        forall k | 0 <= k < |s| - 1 ensures s[1..][k] != TAG_SEPARATOR {
          assert s[1..][k] == s[k + 1];
        }
      }
      NoSeparatorSplit(s[1..]);
      assert [s[0]] + s[1..] == s;
    }
  }

  /** An empty tag field gives no tags. */
  lemma NoTags()
    ensures ParseTags("") == []
  {
    assert Split("", TAG_SEPARATOR) == [""];
    assert Trim("") == "";
  }

  // ---------------------------------------------------------------------
  // the form

  class Form {
    const app: ProgressStore.AppStore
    var title: string
    var description: string
    var clarity: int
    var isLucid: bool
    var tags: string
    var navigations: seq<string>

    /** The range input only offers whole clarities from 1 to 5. */
    ghost predicate Valid()
      reads this, app
    {
      1 <= clarity <= 5 && app.Valid()
    }

    constructor (app: ProgressStore.AppStore)
      requires app.Valid()
      ensures Valid() && this.app == app
      ensures title == "" && description == "" && tags == ""
      ensures clarity == INITIAL_CLARITY && !isLucid && navigations == []
    {
      this.app := app;
      title, description, tags := "", "", "";
      clarity, isLucid := INITIAL_CLARITY, false;
      navigations := [];
    }

    method SetTitle(typed: string)
      modifies this`title
      ensures title == typed
    {
      title := typed;
    }

    method SetDescription(typed: string)
      modifies this`description
      ensures description == typed
    {
      description := typed;
    }

    method SetTags(typed: string)
      modifies this`tags
      ensures tags == typed
    {
      tags := typed;
    }

    /** The slider: `step="1"` between 1 and 5. */
    method SetClarity(value: int)
      requires 1 <= value <= 5
      modifies this`clarity
      ensures clarity == value
    {
      clarity := value;
    }

    method SetLucid(checked: bool)
      modifies this`isLucid
      ensures isLucid == checked
    {
      isLucid := checked;
    }

    /** What the form hands to `addDream`. */
    function Input(): (input: ProgressStore.DreamInput)
      reads this
      ensures input.title == FinalTitle(title) && input.description == description
      ensures input.clarity == clarity && input.isLucid == isLucid
      ensures input.tags == ParseTags(tags)
    {
      ProgressStore.DreamInput(FinalTitle(title), description, clarity, isLucid, ParseTags(tags))
    }

    /** `handleSubmit`: without a description nothing happens. Otherwise the
        store gets exactly one new dream, at the front, worth between 12 and
        40 XP, and the page goes home. */
    method HandleSubmit(id: string, nowIso: string, today: string, yesterday: string)
      requires Valid() && today != yesterday
      modifies app
      modifies this`navigations
      ensures Valid()
      ensures description == "" ==> unchanged(app) && navigations == old(navigations)
      ensures description != "" ==>
        && app.dreams == [ProgressStore.NewDream(Input(), id, nowIso)] + old(app.dreams)
        && app.stats == ProgressStore.AwardXP(ProgressStore.RecordAction(old(app.stats), today, yesterday),
                                               ProgressStore.DreamXP(clarity, isLucid))
        && 12 <= ProgressStore.DreamXP(clarity, isLucid) <= 40
        && app.store == ProgressStore.Mirror(old(app.store), app.dreams, app.stats)
        && app.onboarded == old(app.onboarded) && app.remoteCalls == old(app.remoteCalls)
        && navigations == old(navigations) + ["/"]
    {
      if description == "" {
        return;
      }
      app.AddDream(Input(), id, nowIso, today, yesterday);
      navigations := navigations + ["/"];
    }
  }
}
