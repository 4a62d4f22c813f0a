/** The daily-mission overlay (src/components/mission/MissionOverlay.tsx):
    a cursor over at most three tasks, a Continue button that a question task
    keeps disabled until an option is chosen, and one `completeMission` call
    with the session's XP total at the end.

    The overlay's props are `isOpen` (changed by the parent), `category` and
    `tasks` (fixed for the overlay's life). `completeMission` is not provided
    by the progress store, so its calls are only recorded, in
    `missionCalls`. */
module MissionOverlay {
  import opened Wrappers
  import opened LucidityTasks

  const SESSION_SIZE := 3

  datatype TaskKind = Action | Question | Info

  /** A task as the overlay reads it: besides id, title and XP it looks for
      a `type` and `questionOptions`, which catalog tasks do not have. */
  datatype OverlayTask = OverlayTask(
    id: string,
    title: string,
    xp: int,
    kind: Option<TaskKind>,
    questionOptions: Option<seq<string>>)

  /** A catalog task as the overlay sees it: no type, no options. */
  function FromCatalog(t: LucidityTask): (o: OverlayTask)
    ensures o.id == t.id && o.xp == t.xp && o.kind == None && o.questionOptions == None
  {
    OverlayTask(t.id, t.title, t.xp, None, None)
  }

  /** `tasks.slice(0, 3)`: the first three tasks, or all of them when fewer. */
  function SessionTasks(tasks: seq<OverlayTask>): (s: seq<OverlayTask>)
    ensures |s| == if |tasks| < SESSION_SIZE then |tasks| else SESSION_SIZE
    ensures s <= tasks
  {
    if |tasks| < SESSION_SIZE then tasks else tasks[..SESSION_SIZE]
  }

  /** The XP `reduce` over the session's tasks. */
  function TotalXP(ts: seq<OverlayTask>): int
    decreases |ts|
  {
    if |ts| == 0 then 0 else TotalXP(ts[..|ts| - 1]) + ts[|ts| - 1].xp
  }

  lemma {:induction false} TotalXPAppend(a: seq<OverlayTask>, b: seq<OverlayTask>)
    ensures TotalXP(a + b) == TotalXP(a) + TotalXP(b)
    decreases |b|
  {
    if |b| == 0 {
      assert a + b == a;
    } else {
      assert (a + b)[..|a + b| - 1] == a + b[..|b| - 1];
      TotalXPAppend(a, b[..|b| - 1]);
    }
  }

  /** Tasks worth between `lo` and `hi` each total between `n * lo` and
      `n * hi`. */
  lemma {:induction false} TotalXPBounds(ts: seq<OverlayTask>, lo: int, hi: int)
    requires forall k :: 0 <= k < |ts| ==> lo <= ts[k].xp <= hi
    ensures |ts| * lo <= TotalXP(ts) <= |ts| * hi
    decreases |ts|
  {
    if |ts| > 0 {
      TotalXPBounds(ts[..|ts| - 1], lo, hi);
    }
  }

  /** Continue is disabled on a question task until an option is chosen. */
  predicate ContinueDisabled(t: OverlayTask, isCompleted: bool) {
    t.kind == Some(Question) && !isCompleted
  }

  /** Catalog tasks carry no type, so Continue is never disabled for them. */
  lemma CatalogNeverGated(t: LucidityTask, isCompleted: bool)
    ensures !ContinueDisabled(FromCatalog(t), isCompleted)
  {
  }

  datatype MissionCall = MissionCall(category: Category, xp: int)

  class Overlay {
    var isOpen: bool
    const category: Option<Category>
    const tasks: seq<OverlayTask>
    var index: int
    var isCompleted: bool
    var showSuccess: bool
    var missionCalls: seq<MissionCall>

    function Session(): seq<OverlayTask>
      reads this
    {
      SessionTasks(tasks)
    }

    /** The cursor stays on a task of the session (on 0 when it is empty). */
    ghost predicate Valid()
      reads this
    {
      0 <= index && (index < |Session()| || index == 0)
    }

    /** The overlay draws anything only when open and given a category. */
    predicate Renders()
      reads this
    {
      isOpen && category.Some?
    }

    /** The footer with the Continue button shows while no success is shown
        and there is a current task. */
    predicate FooterShown()
      reads this
    {
      Renders() && !showSuccess && index < |Session()|
    }

    /** The XP the success view shows. */
    function SuccessXP(): int
      reads this
    {
      TotalXP(Session())
    }

    constructor (isOpen: bool, category: Option<Category>, tasks: seq<OverlayTask>)
      ensures Valid()
      ensures this.isOpen == isOpen && this.category == category && this.tasks == tasks
      ensures index == 0 && !isCompleted && !showSuccess && missionCalls == []
    {
      this.isOpen, this.category, this.tasks := isOpen, category, tasks;
      index, isCompleted, showSuccess, missionCalls := 0, false, false, [];
    }

    /** The parent changes `isOpen`; the effect on it resets the cursor, the
        answer and the success view when the overlay becomes open. */
    method SetOpen(open: bool)
      requires Valid()
      modifies this
      ensures Valid()
      ensures isOpen == open && missionCalls == old(missionCalls)
      ensures open && !old(isOpen) ==> index == 0 && !isCompleted && !showSuccess
      ensures !(open && !old(isOpen)) ==>
        index == old(index) && isCompleted == old(isCompleted) && showSuccess == old(showSuccess)
    {
      var wasOpen := isOpen;
      isOpen := open;
      if open && !wasOpen {
        index, isCompleted, showSuccess := 0, false, false;
      }
    }

    /** `handleNext`: nothing without a current task; before the last task,
        move on and clear the answer; on the last, show success and report
        the session's XP total when a category was given. */
    method HandleNext()
      requires Valid()
      modifies this
      ensures Valid()
      ensures isOpen == old(isOpen)
      ensures old(index) >= |Session()| ==>
        index == old(index) && isCompleted == old(isCompleted) && showSuccess == old(showSuccess)
        && missionCalls == old(missionCalls)
      ensures old(index) < |Session()| - 1 ==>
        index == old(index) + 1 && !isCompleted && showSuccess == old(showSuccess)
        && missionCalls == old(missionCalls)
      ensures old(index) == |Session()| - 1 ==>
        && index == old(index) && isCompleted == old(isCompleted) && showSuccess
        && missionCalls == old(missionCalls)
                           + (if category.Some? then [MissionCall(category.value, SuccessXP())] else [])
    {
      var session := Session();
      if index >= |session| {
        return;
      }
      if index < |session| - 1 {
        index := index + 1;
        isCompleted := false;
      } else {
        showSuccess := true;
        var total := TotalXP(session);
        if category.Some? {
          missionCalls := missionCalls + [MissionCall(category.value, total)];
        }
      }
    }

    /** Choosing any option of the current question marks it answered. The
        options are on screen only for a question task that has them. */
    method ChooseOption(option: nat)
      requires Valid()
      modifies this`isCompleted
      ensures var shown := FooterShown() && Session()[index].kind == Some(Question)
                           && Session()[index].questionOptions.Some?
                           && option < |Session()[index].questionOptions.value|;
        isCompleted == (old(isCompleted) || shown)
    {
      if FooterShown() {
        var t := Session()[index];
        if t.kind == Some(Question) && t.questionOptions.Some? && option < |t.questionOptions.value| {
          isCompleted := true;
        }
      }
    }

    /** Pressing Continue / Finalizar: the button exists only in the footer
        and does nothing while disabled; otherwise it is `handleNext` on a
        current task. */
    method PressContinue()
      requires Valid()
      modifies this
      ensures Valid()
      ensures !old(FooterShown()) ==> unchanged(this)
      ensures old(FooterShown()) && old(ContinueDisabled(Session()[index], isCompleted)) ==> unchanged(this)
      ensures old(FooterShown()) && !old(ContinueDisabled(Session()[index], isCompleted)) ==>
        && isOpen == old(isOpen)
        && (old(index) < |Session()| - 1 ==>
              index == old(index) + 1 && !isCompleted && !showSuccess && missionCalls == old(missionCalls))
        && (old(index) == |Session()| - 1 ==>
              index == old(index) && isCompleted == old(isCompleted) && showSuccess
              && missionCalls == old(missionCalls) + [MissionCall(category.value, SuccessXP())])
    {
      if FooterShown() && !ContinueDisabled(Session()[index], isCompleted) {
        HandleNext();
      }
    }
  }
}
