/** The home page (src/pages/Dashboard.tsx): the catalog split into the day,
    night and advanced sections, the daily mission of five shuffled tasks,
    each task card's completion test and toggle, and the mission overlay it
    opens.

    The shuffle (`sort` with a random comparator) is a parameter: any
    permutation of the catalog. */
module Dashboard {
  import opened Wrappers
  import opened Types
  import opened LucidityTasks
  import MO = MissionOverlay

  const WBTB_ID := "wbtb_lite"
  const REENTRY_ID := "reentry"
  const DAILY_MISSION_SIZE := 5

  predicate IsAdvancedId(id: string) {
    id == WBTB_ID || id == REENTRY_ID
  }

  predicate IsDayTask(t: LucidityTask) {
    t.category == Day
  }

  predicate IsNightTask(t: LucidityTask) {
    t.category == Night && !IsAdvancedId(t.id)
  }

  predicate IsAdvancedTask(t: LucidityTask) {
    IsAdvancedId(t.id)
  }

  /** `ts.filter(keep)`: those tasks satisfying `keep`, in their order. */
  function Filter(ts: seq<LucidityTask>, keep: LucidityTask -> bool): (r: seq<LucidityTask>)
    ensures |r| <= |ts|
    ensures forall k :: 0 <= k < |r| ==> keep(r[k]) && r[k] in ts
    ensures forall k :: 0 <= k < |ts| && keep(ts[k]) ==> ts[k] in r
    decreases |ts|
  {
    if |ts| == 0 then []
    else
      var rest := Filter(ts[..|ts| - 1], keep);
      assert forall k :: 0 <= k < |ts| - 1 ==> ts[k] == ts[..|ts| - 1][k];
      if keep(ts[|ts| - 1]) then rest + [ts[|ts| - 1]] else rest
  }

  /** Filtering keeps the order: the filter of `a + b` is the filter of `a`
      followed by the filter of `b`. */
  lemma {:induction false} FilterAppend(a: seq<LucidityTask>, b: seq<LucidityTask>, keep: LucidityTask -> bool)
    ensures Filter(a + b, keep) == Filter(a, keep) + Filter(b, keep)
    decreases |b|
  {
    if |b| == 0 {
      assert a + b == a;
    } else {
      assert (a + b)[..|a + b| - 1] == a + b[..|b| - 1];
      FilterAppend(a, b[..|b| - 1], keep);
    }
  }

  lemma {:induction false} FilterAll(ts: seq<LucidityTask>, keep: LucidityTask -> bool)
    requires forall k :: 0 <= k < |ts| ==> keep(ts[k])
    ensures Filter(ts, keep) == ts
    decreases |ts|
  {
    if |ts| > 0 {
      FilterAll(ts[..|ts| - 1], keep);
      assert ts[..|ts| - 1] + [ts[|ts| - 1]] == ts;
    }
  }

  lemma FilterNone(ts: seq<LucidityTask>, keep: LucidityTask -> bool)
    requires forall k :: 0 <= k < |ts| ==> !keep(ts[k])
    ensures Filter(ts, keep) == []
  {
  }

  function DayTasks(ts: seq<LucidityTask>): seq<LucidityTask> {
    Filter(ts, IsDayTask)
  }

  function NightTasks(ts: seq<LucidityTask>): seq<LucidityTask> {
    Filter(ts, IsNightTask)
  }

  function AdvTasks(ts: seq<LucidityTask>): seq<LucidityTask> {
    Filter(ts, IsAdvancedTask)
  }

  /** On any task list, no task is both a day and a night task, nor both a
      night and an advanced one. */
  lemma SectionsDisjoint(ts: seq<LucidityTask>, t: LucidityTask)
    ensures !(t in DayTasks(ts) && t in NightTasks(ts))
    ensures !(t in NightTasks(ts) && t in AdvTasks(ts))
  {
  }

  /** The filter of three lists joined is the three filters joined. */
  lemma FilterThree(d: seq<LucidityTask>, n: seq<LucidityTask>, a: seq<LucidityTask>, keep: LucidityTask -> bool)
    ensures Filter(d + n + a, keep) == Filter(d, keep) + Filter(n, keep) + Filter(a, keep)
  {
    FilterAppend(d + n, a, keep);
    FilterAppend(d, n, keep);
  }

  /** A list made of day tasks, then ordinary night tasks, then advanced
      tasks falls apart into exactly those three sections. */
  lemma SectionsOf(d: seq<LucidityTask>, n: seq<LucidityTask>, a: seq<LucidityTask>)
    requires forall k :: 0 <= k < |d| ==> IsDayTask(d[k]) && !IsAdvancedTask(d[k])
    requires forall k :: 0 <= k < |n| ==> IsNightTask(n[k])
    requires forall k :: 0 <= k < |a| ==> IsAdvancedTask(a[k]) && a[k].category == Night
    ensures DayTasks(d + n + a) == d
    ensures NightTasks(d + n + a) == n
    ensures AdvTasks(d + n + a) == a
  {
    assert DayTasks(d + n + a) == d by {
      FilterThree(d, n, a, IsDayTask);
      FilterAll(d, IsDayTask);
      FilterNone(n, IsDayTask);
      FilterNone(a, IsDayTask);
    }
    assert NightTasks(d + n + a) == n by {
      FilterThree(d, n, a, IsNightTask);
      FilterNone(d, IsNightTask);
      FilterAll(n, IsNightTask);
      FilterNone(a, IsNightTask);
    }
    assert AdvTasks(d + n + a) == a by {
      FilterThree(d, n, a, IsAdvancedTask);
      FilterNone(d, IsAdvancedTask);
      FilterNone(n, IsAdvancedTask);
      FilterAll(a, IsAdvancedTask);
    }
  }

  /** On the catalog the day section is its day habits, the night section
      its before-sleep techniques and the advanced section its early-morning
      ones: together the whole catalog, in catalog order, with no task in two
      sections. */
  lemma CatalogSections()
    ensures DayTasks(LUCIDITY_TASKS) == DAY_HABITS
    ensures NightTasks(LUCIDITY_TASKS) == BEFORE_SLEEP
    ensures AdvTasks(LUCIDITY_TASKS) == EARLY_MORNING
    ensures DayTasks(LUCIDITY_TASKS) + NightTasks(LUCIDITY_TASKS) + AdvTasks(LUCIDITY_TASKS) == LUCIDITY_TASKS
    ensures forall t :: t in AdvTasks(LUCIDITY_TASKS) ==> t !in DayTasks(LUCIDITY_TASKS)
  {
    SectionsOf(DAY_HABITS, BEFORE_SLEEP, EARLY_MORNING);
    forall t | t in EARLY_MORNING ensures t !in DAY_HABITS {
      assert t.category == Night;
    }
  }

  // ---------------------------------------------------------------------
  // daily mission

  predicate DistinctElements(ts: seq<LucidityTask>) {
    forall i, j :: 0 <= i < j < |ts| ==> ts[i] != ts[j]
  }

  lemma {:induction false} DistinctCountsOnce(ts: seq<LucidityTask>, x: LucidityTask)
    requires DistinctElements(ts)
    ensures multiset(ts)[x] <= 1
    decreases |ts|
  {
    if |ts| > 0 {
      var init := ts[..|ts| - 1];
      assert ts == init + [ts[|ts| - 1]];
      DistinctCountsOnce(init, x);
      if x == ts[|ts| - 1] {
        assert x !in init;
      }
    }
  }

  /** A permutation of a list with distinct ids has distinct ids. */
  lemma PermutationKeepsDistinctIds(s: seq<LucidityTask>, t: seq<LucidityTask>)
    requires multiset(s) == multiset(t) && DistinctIds(t)
    ensures DistinctIds(s)
  {
    forall i, j | 0 <= i < j < |s| ensures s[i].id != s[j].id {
      assert s[i] in multiset(t) && s[j] in multiset(t);
      var p :| 0 <= p < |t| && t[p] == s[i];
      var q :| 0 <= q < |t| && t[q] == s[j];
      if s[i] == s[j] {
        assert s == s[..i] + [s[i]] + s[i + 1..j] + [s[j]] + s[j + 1..];
        assert multiset(s)[s[i]] >= 2;
        assert DistinctElements(t);
        DistinctCountsOnce(t, s[i]);
        assert false;
      } else {
        assert p != q;
      }
    }
  }

  /** `shuffled.slice(0, 5)`: at most five tasks, pairwise distinct, all
      from the catalog; five exactly when the catalog has five or more. */
  function DailyMission(shuffled: seq<LucidityTask>, catalog: seq<LucidityTask>): (r: seq<LucidityTask>)
    requires multiset(shuffled) == multiset(catalog) && DistinctIds(catalog)
    ensures |r| == if |catalog| < DAILY_MISSION_SIZE then |catalog| else DAILY_MISSION_SIZE
    ensures r <= shuffled
    ensures DistinctIds(r)
    ensures forall k :: 0 <= k < |r| ==> r[k] in catalog
  {
    assert |shuffled| == |multiset(shuffled)| == |catalog|;
    PermutationKeepsDistinctIds(shuffled, catalog);
    var r := if |shuffled| < DAILY_MISSION_SIZE then shuffled else shuffled[..DAILY_MISSION_SIZE];
    assert forall k :: 0 <= k < |r| ==> r[k] == shuffled[k] && shuffled[k] in multiset(catalog);
    r
  }

  /** The page's daily mission: exactly five distinct catalog tasks, the
      first five of the shuffled catalog. */
  function CatalogDailyMission(shuffled: seq<LucidityTask>): (r: seq<LucidityTask>)
    requires multiset(shuffled) == multiset(LUCIDITY_TASKS)
    ensures |r| == DAILY_MISSION_SIZE && r <= shuffled && DistinctIds(r)
    ensures forall k :: 0 <= k < |r| ==> r[k] in LUCIDITY_TASKS
  {
    CatalogShape();
    DailyMission(shuffled, LUCIDITY_TASKS)
  }

  // ---------------------------------------------------------------------
  // task card

  /** `completedTasks?.includes(id)`: false when the list is absent. */
  predicate IsCompleted(completedTasks: Option<seq<string>>, id: string) {
    completedTasks.Some? && id in completedTasks.value
  }

  /** The stats the store keeps have no `completedTasks`, so the card reads
      an absent list. */
  function CompletedTasksOf(stats: UserStats): Option<seq<string>> {
    None
  }

  /** No task card ever shows as completed. */
  lemma CardsNeverCompleted(stats: UserStats, id: string)
    ensures !IsCompleted(CompletedTasksOf(stats), id)
  {
  }

  datatype ToggleCall = ToggleCall(id: string, xp: int)

  class TaskCard {
    const task: LucidityTask
    var isExpanded: bool
    /** The calls to `toggleTask`, which the progress store does not
        provide. */
    var toggleCalls: seq<ToggleCall>

    constructor (task: LucidityTask)
      ensures this.task == task && !isExpanded && toggleCalls == []
    {
      this.task := task;
      isExpanded, toggleCalls := false, [];
    }

    /** A click on the card flips its expansion. */
    method ClickCard()
      modifies this
      ensures isExpanded == !old(isExpanded) && toggleCalls == old(toggleCalls)
    {
      isExpanded := !isExpanded;
    }

    /** The round toggle button passes its own task's id and XP, and stops the
        click from reaching the card. */
    method ClickToggle()
      modifies this
      ensures toggleCalls == old(toggleCalls) + [ToggleCall(task.id, task.xp)]
      ensures isExpanded == old(isExpanded)
    {
      toggleCalls := toggleCalls + [ToggleCall(task.id, task.xp)];
    }
  }

  // ---------------------------------------------------------------------
  // the page and its overlay

  function ToOverlayTasks(ts: seq<LucidityTask>): (r: seq<MO.OverlayTask>)
    ensures |r| == |ts|
    ensures forall k :: 0 <= k < |ts| ==> r[k] == MO.FromCatalog(ts[k])
  {
    seq(|ts|, k requires 0 <= k < |ts| => MO.FromCatalog(ts[k]))
  }

  class Page {
    /** The catalog the page shows; the app's page is built over
        `LUCIDITY_TASKS`. */
    const tasks: seq<LucidityTask>
    var showMission: bool
    /** The overlay, given the daily mission and no category. */
    const overlay: MO.Overlay

    ghost predicate Valid()
      reads this, overlay
    {
      overlay.Valid() && overlay.isOpen == showMission && overlay.category == None
    }

    /** `shuffled` is the memoised shuffle of the catalog; its first five
        tasks become the overlay's tasks. */
    constructor (tasks: seq<LucidityTask>, shuffled: seq<LucidityTask>)
      requires multiset(shuffled) == multiset(tasks) && DistinctIds(tasks)
      ensures Valid() && fresh(overlay) && !showMission && this.tasks == tasks
      ensures overlay.tasks == ToOverlayTasks(DailyMission(shuffled, tasks))
    {
      this.tasks := tasks;
      showMission := false;
      overlay := new MO.Overlay(false, None, ToOverlayTasks(DailyMission(shuffled, tasks)));
    }

    /** The daily-mission button opens the overlay, which, having no
        category, draws nothing and never reports a mission. */
    method PressMissionButton()
      requires Valid()
      modifies this, overlay
      ensures Valid() && showMission
      ensures !overlay.Renders() && !overlay.FooterShown()
      ensures overlay.missionCalls == old(overlay.missionCalls)
    {
      showMission := true;
      overlay.SetOpen(true);
    }

    /** The overlay's close button hides it. */
    method CloseMission()
      requires Valid()
      modifies this, overlay
      ensures Valid() && !showMission && !overlay.Renders()
      ensures overlay.missionCalls == old(overlay.missionCalls)
    {
      showMission := false;
      overlay.SetOpen(false);
    }
  }
}
