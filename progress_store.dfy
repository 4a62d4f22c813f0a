/** The progress store (src/context/AppContext.tsx): the dream journal, the
    user's statistics and the onboarding flag, mirrored into a key/value
    local store after every change.

    The clock, the UUID generator and the remote dream service are
    parameters: `today`/`yesterday` are the two calendar-day strings the
    source derives from `new Date()`, `id` and `nowIso` what
    `crypto.randomUUID()` and `toISOString()` return, and the remote
    service's reply to a fetch is passed to `SyncDreams`. Remote requests
    the store issues are recorded, in order, in `remoteCalls`. */
module ProgressStore {
  import opened Wrappers
  import opened Types

  const DREAMS_KEY := "dreamlab_dreams"
  const STATS_KEY := "dreamlab_stats"
  const ONBOARDING_KEY := "dreamlab_onboarding_completed"

  const DEFAULT_STATS := UserStats(0, 1, 0, None, 0)

  /** Defaults applied when mapping a remote dream. */
  const REMOTE_UNTITLED := "Sonho Sem Título"
  const REMOTE_DEFAULT_CLARITY := 50
  const REMOTE_DEFAULT_MOOD := "neutral"
  /** How many recent nights a sync asks for. */
  const SYNC_NIGHTS := 30

  // ---------------------------------------------------------------------
  // Local store

  /** What a local-store key holds. The source keeps JSON text; the model
      keeps the value the text encodes. */
  datatype Stored = StoredDreams(dreams: seq<Dream>) | StoredStats(stats: UserStats) | StoredText(text: string)

  type Store = map<string, Stored>

  /** The dream list read at start-up: the stored list, or `[]` when the key
      is absent. */
  function LoadDreams(store: Store): seq<Dream> {
    if DREAMS_KEY in store && store[DREAMS_KEY].StoredDreams? then store[DREAMS_KEY].dreams else []
  }

  /** The statistics read at start-up: the stored record, or `DEFAULT_STATS`. */
  function LoadStats(store: Store): UserStats {
    if STATS_KEY in store && store[STATS_KEY].StoredStats? then store[STATS_KEY].stats else DEFAULT_STATS
  }

  /** The onboarding flag read at start-up: whether the stored text is `'true'`. */
  predicate LoadOnboarded(store: Store) {
    ONBOARDING_KEY in store && store[ONBOARDING_KEY] == StoredText("true")
  }

  /** The store after the two mirroring effects have written the dreams and
      the statistics. */
  function Mirror(store: Store, dreams: seq<Dream>, stats: UserStats): (r: Store)
    ensures r.Keys == store.Keys + {DREAMS_KEY, STATS_KEY}
  {
    store[DREAMS_KEY := StoredDreams(dreams)][STATS_KEY := StoredStats(stats)]
  }

  /** Loading a mirrored store gives back exactly what was written, and the
      onboarding flag it already held. */
  lemma LoadMirror(store: Store, dreams: seq<Dream>, stats: UserStats)
    ensures LoadDreams(Mirror(store, dreams, stats)) == dreams
    ensures LoadStats(Mirror(store, dreams, stats)) == stats
    ensures LoadOnboarded(Mirror(store, dreams, stats)) == LoadOnboarded(store)
  {
    assert DREAMS_KEY != STATS_KEY by { assert |DREAMS_KEY| != |STATS_KEY|; }
    assert ONBOARDING_KEY != DREAMS_KEY by { assert |ONBOARDING_KEY| != |DREAMS_KEY|; }
    assert ONBOARDING_KEY != STATS_KEY by { assert |ONBOARDING_KEY| != |STATS_KEY|; }
  }

  /** An empty store loads as the empty journal, the default statistics and
      onboarding not done. */
  lemma LoadEmpty()
    ensures LoadDreams(map[]) == [] && LoadStats(map[]) == DEFAULT_STATS && !LoadOnboarded(map[])
  {
  }

  // ---------------------------------------------------------------------
  // Statistics

  /** The level for an XP total, `floor(xp / 100) + 1`: the unique level
      whose hundred-XP band contains `xp`. */
  function LevelFor(xp: int): (level: int)
    ensures 100 * (level - 1) <= xp < 100 * level
  {
    xp / 100 + 1
  }

  /** The consistency the store keeps for statistics it produced itself:
      the level matches the XP and the counters are not negative. */
  predicate WellFormed(s: UserStats) {
    s.level == LevelFor(s.xp) && s.streak >= 0 && s.dreamsRecorded >= 0
  }

  lemma DefaultWellFormed()
    ensures WellFormed(DEFAULT_STATS)
  {
  }

  /** The `awardXP` updater: adds `amount` to the XP, recomputes the level
      and leaves every other field alone. */
  function AwardXP(prev: UserStats, amount: int): (r: UserStats)
    ensures r.xp == prev.xp + amount
    ensures 100 * (r.level - 1) <= r.xp < 100 * r.level
    ensures r.streak == prev.streak && r.lastJournalDate == prev.lastJournalDate
    ensures r.dreamsRecorded == prev.dreamsRecorded
  {
    var newXP := prev.xp + amount;
    prev.(xp := newXP, level := LevelFor(newXP))
  }

  /** The `recordAction` updater for a recorded action on `today`, where
      `yesterday` is the calendar day before it. */
  function RecordAction(prev: UserStats, today: string, yesterday: string): (r: UserStats)
    requires today != yesterday
    ensures r.lastJournalDate == Some(today)
    ensures r.dreamsRecorded == prev.dreamsRecorded + 1
    ensures r.xp == prev.xp && r.level == prev.level
  {
    var newStreak :=
      if prev.lastJournalDate != Some(today) then
        if prev.lastJournalDate == Some(yesterday) then prev.streak + 1
        else if prev.lastJournalDate != Some(today) then 1
        else prev.streak
      else if prev.streak == 0 then 1
      else prev.streak;
    prev.(lastJournalDate := Some(today), streak := newStreak, dreamsRecorded := prev.dreamsRecorded + 1)
  }

  /** The streak rule: an action the day after the last one extends the
      streak by one, one after a gap (or the first ever) restarts it at 1,
      and a second action on the same day keeps it, except that 0 becomes 1. */
  lemma {:induction false} StreakRule(prev: UserStats, today: string, yesterday: string)
    requires today != yesterday
    ensures prev.lastJournalDate == Some(yesterday) ==> RecordAction(prev, today, yesterday).streak == prev.streak + 1
    ensures prev.lastJournalDate != Some(yesterday) && prev.lastJournalDate != Some(today) ==>
      RecordAction(prev, today, yesterday).streak == 1
    ensures prev.lastJournalDate == Some(today) ==>
      RecordAction(prev, today, yesterday).streak == if prev.streak == 0 then 1 else prev.streak
  {
  }

  /** A recorded action keeps the statistics well formed and always leaves a
      streak of at least one. */
  lemma {:induction false} RecordActionWellFormed(prev: UserStats, today: string, yesterday: string)
    requires today != yesterday && WellFormed(prev)
    ensures WellFormed(RecordAction(prev, today, yesterday))
    ensures RecordAction(prev, today, yesterday).streak >= 1
  {
  }

  /** Recording a second action on the same day changes only the dream
      counter: the streak of the first action is kept. */
  lemma {:induction false} SameDayTwice(prev: UserStats, today: string, yesterday: string)
    requires today != yesterday && prev.streak >= 0
    ensures var once := RecordAction(prev, today, yesterday);
      RecordAction(once, today, yesterday) == once.(dreamsRecorded := once.dreamsRecorded + 1)
  {
    var once := RecordAction(prev, today, yesterday);
    assert once.streak != 0;
  }

  /** Actions on two consecutive days extend the streak by one. */
  lemma {:induction false} ConsecutiveDays(prev: UserStats, day0: string, day1: string, day2: string)
    requires day0 != day1 && day1 != day2
    ensures RecordAction(RecordAction(prev, day1, day0), day2, day1).streak == RecordAction(prev, day1, day0).streak + 1
  {
  }

  /** Awarding XP keeps the statistics well formed, whatever the amount. */
  lemma {:induction false} AwardXPWellFormed(prev: UserStats, amount: int)
    requires WellFormed(prev)
    ensures WellFormed(AwardXP(prev, amount))
  {
    var r := AwardXP(prev, amount);
    LevelUnique(r.xp, r.level);
  }

  /** The level band condition determines the level. */
  lemma LevelUnique(xp: int, level: int)
    requires 100 * (level - 1) <= xp < 100 * level
    ensures level == LevelFor(xp)
  {
  }

  // ---------------------------------------------------------------------
  // Dreams

  /** The fields the journal page supplies for a new dream. */
  datatype DreamInput = DreamInput(title: string, description: string, clarity: int, isLucid: bool, tags: seq<string>)

  /** The XP a new dream earns: 10, plus twice its clarity, plus 20 when it
      was lucid. */
  function DreamXP(clarity: int, isLucid: bool): (xp: int)
    ensures 1 <= clarity <= 5 ==> 12 <= xp <= 40
    ensures xp == 10 + 2 * clarity + (if isLucid then 20 else 0)
  {
    var base := 10 + clarity * 2;
    if isLucid then base + 20 else base
  }

  lemma DreamXPExample()
    ensures DreamXP(5, true) == 40 && DreamXP(1, false) == 12
  {
  }

  /** The dream `addDream` creates: the input's fields with a generated id
      and creation time. */
  function NewDream(input: DreamInput, id: string, nowIso: string): (d: Dream)
    ensures d.id == id && d.date == nowIso
    ensures d.title == input.title && d.description == input.description
    ensures d.clarity == input.clarity && d.isLucid == input.isLucid && d.tags == Some(input.tags)
  {
    Dream(id, nowIso, input.title, input.description, input.clarity, input.isLucid, Some(input.tags), None, None, None)
  }

  predicate DistinctIds(ds: seq<Dream>) {
    forall i, j :: 0 <= i < j < |ds| ==> ds[i].id != ds[j].id
  }

  /** Prepending a dream whose id is not yet used keeps the ids distinct. */
  lemma PrependFresh(d: Dream, ds: seq<Dream>)
    requires DistinctIds(ds)
    requires forall k :: 0 <= k < |ds| ==> ds[k].id != d.id
    ensures DistinctIds([d] + ds)
  {
    var r := [d] + ds;
    forall i, j | 0 <= i < j < |r| ensures r[i].id != r[j].id {
      assert r[j] == ds[j - 1];
      if i > 0 { assert r[i] == ds[i - 1]; }
    }
  }

  /** The journal with every dream of id `id` taken out. */
  function WithoutId(ds: seq<Dream>, id: string): (r: seq<Dream>)
    ensures |r| <= |ds|
    ensures forall k :: 0 <= k < |r| ==> r[k].id != id && r[k] in ds
    ensures forall d :: d in ds && d.id != id ==> d in r
    decreases |ds|
  {
    if |ds| == 0 then []
    else if ds[0].id == id then WithoutId(ds[1..], id)
    else [ds[0]] + WithoutId(ds[1..], id)
  }

  /** Deleting works piecewise, so the kept dreams stay in their original
      relative order. */
  lemma {:induction false} WithoutIdAppend(a: seq<Dream>, b: seq<Dream>, id: string)
    ensures WithoutId(a + b, id) == WithoutId(a, id) + WithoutId(b, id)
    decreases |a|
  {
    if |a| == 0 {
      assert a + b == b;
    } else {
      assert (a + b)[0] == a[0] && (a + b)[1..] == a[1..] + b;
      WithoutIdAppend(a[1..], b, id);
    }
  }

  /** A journal without the id is left as it is: deleting twice is deleting once. */
  lemma {:induction false} WithoutIdAbsent(ds: seq<Dream>, id: string)
    requires forall k :: 0 <= k < |ds| ==> ds[k].id != id
    ensures WithoutId(ds, id) == ds
    decreases |ds|
  {
    if |ds| > 0 {
      WithoutIdAbsent(ds[1..], id);
      assert ds == [ds[0]] + ds[1..];
    }
  }

  lemma WithoutIdIdempotent(ds: seq<Dream>, id: string)
    ensures WithoutId(WithoutId(ds, id), id) == WithoutId(ds, id)
  {
    WithoutIdAbsent(WithoutId(ds, id), id);
  }

  // ---------------------------------------------------------------------
  // Remote reconciliation

  /** A row of the remote `dreams` table as the sync reads it; an absent or
      null column is `None`. */
  datatype RemoteDream = RemoteDream(
    id: string,
    title: Option<string>,
    rawText: Option<string>,
    recallClarity: Option<int>,
    lucid: Option<bool>,
    emotionMain: Option<string>,
    voiceNoteUrl: Option<string>,
    coverImage: Option<string>)

  /** A remote night with its dreams (`dreams` may be absent). */
  datatype RemoteNight = RemoteNight(date: string, dreams: Option<seq<RemoteDream>>)

  /** JavaScript's `x || fallback` on an optional string: the empty string
      is falsy like an absent one. */
  function OrText(x: Option<string>, fallback: string): string {
    if x.Some? && x.value != "" then x.value else fallback
  }

  /** The mapping of one remote dream of a night dated `date`. */
  function FromRemote(date: string, d: RemoteDream): (r: Dream)
    ensures r.id == d.id && r.date == date && r.tags == None && r.mood.Some?
    ensures r.coverImage == d.coverImage && r.recordingUrl == d.voiceNoteUrl
    ensures r.title != "" && (d.title.Some? && d.title.value != "" ==> r.title == d.title.value)
    ensures d.title.None? || d.title.value == "" ==> r.title == REMOTE_UNTITLED
    ensures d.rawText.Some? ==> r.description == d.rawText.value
    ensures d.rawText.None? ==> r.description == ""
    ensures r.clarity != 0
    ensures d.recallClarity.Some? && d.recallClarity.value != 0 ==> r.clarity == d.recallClarity.value
    ensures d.recallClarity.None? || d.recallClarity.value == 0 ==> r.clarity == REMOTE_DEFAULT_CLARITY
    ensures d.lucid.Some? ==> r.isLucid == d.lucid.value
    ensures d.lucid.None? ==> !r.isLucid
    ensures d.emotionMain.Some? && d.emotionMain.value != "" ==> r.mood == Some(d.emotionMain.value)
    ensures d.emotionMain.None? || d.emotionMain.value == "" ==> r.mood == Some(REMOTE_DEFAULT_MOOD)
  {
    Dream(
      d.id,
      date,
      OrText(d.title, REMOTE_UNTITLED),
      OrText(d.rawText, ""),
      if d.recallClarity.Some? && d.recallClarity.value != 0 then d.recallClarity.value else REMOTE_DEFAULT_CLARITY,
      d.lucid.GetOr(false),
      None,
      d.coverImage,
      Some(OrText(d.emotionMain, REMOTE_DEFAULT_MOOD)),
      d.voiceNoteUrl)
  }

  /** The dreams of one night, in their order. */
  function FromNight(n: RemoteNight): (r: seq<Dream>)
    ensures var ds := n.dreams.GetOr([]);
      |r| == |ds| && forall k :: 0 <= k < |r| ==> r[k] == FromRemote(n.date, ds[k])
  {
    var ds := n.dreams.GetOr([]);
    seq(|ds|, k requires 0 <= k < |ds| => FromRemote(n.date, ds[k]))
  }

  /** The `flatMap` of the sync: every night's dreams, night order first,
      then dream order. */
  function FromNights(nights: seq<RemoteNight>): (r: seq<Dream>)
    ensures forall k :: 0 <= k < |r| ==> r[k].title != "" && r[k].tags == None
    decreases |nights|
  {
    if |nights| == 0 then [] else FromNight(nights[0]) + FromNights(nights[1..])
  }

  /** Flattening works night by night. */
  lemma {:induction false} FromNightsAppend(a: seq<RemoteNight>, b: seq<RemoteNight>)
    ensures FromNights(a + b) == FromNights(a) + FromNights(b)
    decreases |a|
  {
    if |a| == 0 {
      assert a + b == b;
    } else {
      assert (a + b)[0] == a[0] && (a + b)[1..] == a[1..] + b;
      FromNightsAppend(a[1..], b);
    }
  }

  /** The number of remote dreams over a list of nights. */
  function DreamCount(nights: seq<RemoteNight>): nat
    decreases |nights|
  {
    if |nights| == 0 then 0 else |nights[0].dreams.GetOr([])| + DreamCount(nights[1..])
  }

  /** The flattened list holds exactly one entry per remote dream; it is
      empty exactly when no night has a dream. */
  lemma {:induction false} FromNightsLength(nights: seq<RemoteNight>)
    ensures |FromNights(nights)| == DreamCount(nights)
    decreases |nights|
  {
    if |nights| > 0 {
      FromNightsLength(nights[1..]);
    }
  }

  /** The result of the sync: a non-empty remote list replaces the journal;
      no reply, or an empty list, keeps it. */
  function Reconcile(local: seq<Dream>, nights: Option<seq<RemoteNight>>): (r: seq<Dream>)
    ensures nights.Some? && DreamCount(nights.value) > 0 ==> r == FromNights(nights.value)
    ensures nights.None? || DreamCount(nights.value) == 0 ==> r == local
  {
    if nights.Some? then
      FromNightsLength(nights.value);
      var remote := FromNights(nights.value);
      if |remote| > 0 then remote else local
    else local
  }

  /** A request the store sends to the remote dream service. */
  datatype RemoteCall = DeleteRemoteDream(id: string) | FetchRecentNights(userId: string, limit: nat)

  // ---------------------------------------------------------------------
  // The provider

  class AppStore {
    var dreams: seq<Dream>
    var stats: UserStats
    var onboarded: bool
    var store: Store
    var remoteCalls: seq<RemoteCall>

    /** The local store mirrors the state. */
    ghost predicate Valid()
      reads this
    {
      && DREAMS_KEY in store && store[DREAMS_KEY] == StoredDreams(dreams)
      && STATS_KEY in store && store[STATS_KEY] == StoredStats(stats)
      && onboarded == LoadOnboarded(store)
    }

    /** Start-up: read the three keys, falling back to the defaults, then the
        mirroring effects write the dreams and the statistics back. */
    constructor (initial: Store)
      ensures Valid()
      ensures dreams == LoadDreams(initial) && stats == LoadStats(initial) && onboarded == LoadOnboarded(initial)
      ensures store == Mirror(initial, dreams, stats) && remoteCalls == []
    {
      dreams := LoadDreams(initial);
      stats := LoadStats(initial);
      onboarded := LoadOnboarded(initial);
      store := Mirror(initial, LoadDreams(initial), LoadStats(initial));
      remoteCalls := [];
      new;
      LoadMirror(initial, dreams, stats);
    }

    /** `addDream`: prepend the new dream, record the action, then award the
        dream's XP. */
    method AddDream(input: DreamInput, id: string, nowIso: string, today: string, yesterday: string)
      requires Valid() && today != yesterday
      modifies this
      ensures Valid()
      ensures dreams == [NewDream(input, id, nowIso)] + old(dreams)
      ensures stats == AwardXP(RecordAction(old(stats), today, yesterday), DreamXP(input.clarity, input.isLucid))
      ensures store == Mirror(old(store), dreams, stats)
      ensures onboarded == old(onboarded) && remoteCalls == old(remoteCalls)
      ensures WellFormed(old(stats)) ==> WellFormed(stats) && stats.streak >= 1
    {
      var newDream := NewDream(input, id, nowIso);
      dreams := [newDream] + dreams;
      var recorded := RecordAction(stats, today, yesterday);
      stats := AwardXP(recorded, DreamXP(input.clarity, input.isLucid));
      store := Mirror(store, dreams, stats);
      LoadMirror(old(store), dreams, stats);
      if WellFormed(old(stats)) {
        RecordActionWellFormed(old(stats), today, yesterday);
        AwardXPWellFormed(recorded, DreamXP(input.clarity, input.isLucid));
      }
    }

    /** `deleteDream`: remove the dream locally at once, then ask the remote
        service to delete it; the local removal does not depend on the reply. */
    method DeleteDream(id: string)
      requires Valid()
      modifies this
      ensures Valid()
      ensures dreams == WithoutId(old(dreams), id)
      ensures stats == old(stats) && onboarded == old(onboarded)
      ensures store == old(store)[DREAMS_KEY := StoredDreams(dreams)]
      ensures remoteCalls == old(remoteCalls) + [DeleteRemoteDream(id)]
    {
      dreams := WithoutId(dreams, id);
      store := store[DREAMS_KEY := StoredDreams(dreams)];
      remoteCalls := remoteCalls + [DeleteRemoteDream(id)];
      assert DREAMS_KEY != STATS_KEY by { assert |DREAMS_KEY| != |STATS_KEY|; }
      assert ONBOARDING_KEY != DREAMS_KEY by { assert |ONBOARDING_KEY| != |DREAMS_KEY|; }
    }

    /** `completeOnboarding`: store `'true'` under the onboarding key and set
        the flag. The name is not stored. */
    method CompleteOnboarding(name: string)
      requires Valid()
      modifies this
      ensures Valid() && onboarded
      ensures store == old(store)[ONBOARDING_KEY := StoredText("true")]
      ensures dreams == old(dreams) && stats == old(stats) && remoteCalls == old(remoteCalls)
    {
      store := store[ONBOARDING_KEY := StoredText("true")];
      onboarded := true;
      assert ONBOARDING_KEY != DREAMS_KEY by { assert |ONBOARDING_KEY| != |DREAMS_KEY|; }
      assert ONBOARDING_KEY != STATS_KEY by { assert |ONBOARDING_KEY| != |STATS_KEY|; }
    }

    /** `syncDreams`: fetch the last 30 nights of `userId`; `reply` is what
        the remote service answered (`None` for a null `data`). A non-empty
        flattened list replaces the journal (the remote is authoritative);
        otherwise nothing changes locally. */
    method SyncDreams(userId: string, reply: Option<seq<RemoteNight>>)
      requires Valid()
      modifies this
      ensures Valid()
      ensures dreams == Reconcile(old(dreams), reply)
      ensures stats == old(stats) && onboarded == old(onboarded)
      ensures remoteCalls == old(remoteCalls) + [FetchRecentNights(userId, SYNC_NIGHTS)]
      ensures store == if dreams == old(dreams) then old(store) else old(store)[DREAMS_KEY := StoredDreams(dreams)]
    {
      remoteCalls := remoteCalls + [FetchRecentNights(userId, SYNC_NIGHTS)];
      if reply.Some? {
        var remote := FromNights(reply.value);
        if |remote| > 0 {
          dreams := remote;
          store := store[DREAMS_KEY := StoredDreams(dreams)];
          assert DREAMS_KEY != STATS_KEY by { assert |DREAMS_KEY| != |STATS_KEY|; }
          assert ONBOARDING_KEY != DREAMS_KEY by { assert |ONBOARDING_KEY| != |DREAMS_KEY|; }
        }
      }
    }
  }
}
