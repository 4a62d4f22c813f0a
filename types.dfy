/** The two records the progress store keeps: a journal entry and the
    user's statistics (src/types/index.ts). */
module Types {
  import opened Wrappers

  /** A journal entry. Dreams created on the device carry `tags` and no
      `mood` or `recordingUrl`; dreams mapped from the remote store carry no
      `tags` but always a `mood`, so the optional fields are `Option`s. */
  datatype Dream = Dream(
    id: string,
    date: string,
    title: string,
    description: string,
    clarity: int,
    isLucid: bool,
    tags: Option<seq<string>>,
    coverImage: Option<string>,
    mood: Option<string>,
    recordingUrl: Option<string>)

  /** The statistics the store initialises and updates. `dailyActions` and
      `bedtime` are declared on the source's type but never set by the store,
      so they are not fields here. */
  datatype UserStats = UserStats(
    xp: int,
    level: int,
    streak: int,
    lastJournalDate: Option<string>,
    dreamsRecorded: int)
}
