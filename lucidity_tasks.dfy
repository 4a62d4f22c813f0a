/** The constant catalog of lucidity tasks (src/data/lucidityTasks.ts):
    seven day habits and eight night techniques, each worth some XP. The
    icon each entry carries is presentation and not modelled. */
module LucidityTasks {

  datatype Category = Morning | Day | Night

  datatype LucidityTask = LucidityTask(
    id: string,
    title: string,
    description: string,
    category: Category,
    xp: int)

  /** The day habits and reality checks. */
  const DAY_HABITS: seq<LucidityTask> := [
      LucidityTask("rc_hands", "Check de Realidade — Mãos",
        "Olhe para as mãos por 3 segundos, conte os dedos e tente atravessar a palma.",
        Day, 10),
      LucidityTask("magic_text", "Texto Mágico",
        "Leia algo, desvie o olhar e leia de novo. Se mudar, é sonho.",
        Day, 10),
      LucidityTask("mirror_check", "Espelho da Realidade",
        "Olhe no espelho e foque nos olhos. Pergunte: \"Estou sonhando?\"",
        Day, 10),
      LucidityTask("strangeness_trigger", "Gatilho de Estranhamento",
        "Algo estranho aconteceu? Pare e faça um teste de realidade.",
        Day, 15),
      LucidityTask("breathing", "Respiração de Consciência",
        "1 min de respiração 4-4-4-4 para aumentar clareza.",
        Day, 10),
      LucidityTask("dream_codes", "Códigos do Sonho",
        "Identifique um padrão recorrente dos seus sonhos (ex: água, atraso).",
        Day, 20),
      LucidityTask("micro_viz", "Microvisualização",
        "Feche os olhos por 20s e imagine-se lucido em um sonho.",
        Day, 15)
    ]

  /** The techniques for before sleep. */
  const BEFORE_SLEEP: seq<LucidityTask> := [
      LucidityTask("memory_training", "Treino de Memória",
        "Tente lembrar 3 coisas estranhas de ontem. Reforça o músculo da memória.",
        Night, 15),
      LucidityTask("mild_ritual", "Ritual MILD",
        "Repita 5x com intenção: \"Vou perceber que estou sonhando\".",
        Night, 20),
      LucidityTask("scene_entry", "Cena de Entrada",
        "Visualize onde quer acordar no sonho com todos os sentidos.",
        Night, 20),
      LucidityTask("zero_screen", "Tela Zero",
        "Sem telas 60 min antes de dormir.",
        Night, 30),
      LucidityTask("guided_journal", "Diário Guiado (Pré-Sono)",
        "Responda onde estava, com quem e o que houve de estranho.",
        Night, 15),
      LucidityTask("lucidity_anchor", "Âncora de Lucidez",
        "Olhe para sua \"âncora\" (anel, mãos) antes de fechar os olhos.",
        Night, 10)
    ]

  /** The advanced techniques for the early morning. */
  const EARLY_MORNING: seq<LucidityTask> := [
      LucidityTask("wbtb_lite", "WBTB Lite",
        "Acordou após ~5h? Afirme sua intenção e volte a dormir.",
        Night, 50),
      LucidityTask("reentry", "Reentrada no Sonho",
        "Acordou de um sonho? Não se mexa e tente voltar para ele.",
        Night, 40)
    ]

  /** The catalog, in the order of its three sections. */
  const LUCIDITY_TASKS: seq<LucidityTask> := DAY_HABITS + BEFORE_SLEEP + EARLY_MORNING

  /** How many tasks of `ts` are in category `c`. */
  function CountIn(ts: seq<LucidityTask>, c: Category): (n: nat)
    ensures n <= |ts|
    ensures n == 0 <==> forall k :: 0 <= k < |ts| ==> ts[k].category != c
    decreases |ts|
  {
    if |ts| == 0 then 0
    else CountIn(ts[..|ts| - 1], c) + (if ts[|ts| - 1].category == c then 1 else 0)
  }

  predicate DistinctIds(ts: seq<LucidityTask>) {
    forall i, j :: 0 <= i < j < |ts| ==> ts[i].id != ts[j].id
  }

  /** The position of a task with id `id`, if any. */
  function IndexOf(ts: seq<LucidityTask>, id: string): (r: int)
    ensures -1 <= r < |ts|
    ensures r >= 0 ==> ts[r].id == id
    ensures r < 0 ==> forall k :: 0 <= k < |ts| ==> ts[k].id != id
    decreases |ts|
  {
    if |ts| == 0 then -1
    else if ts[|ts| - 1].id == id then |ts| - 1
    else IndexOf(ts[..|ts| - 1], id)
  }

  /** Fifteen tasks with pairwise distinct ids, each worth between 10 and
      50 XP. */
  lemma CatalogShape()
    ensures |LUCIDITY_TASKS| == 15
    ensures DistinctIds(LUCIDITY_TASKS)
    ensures forall k :: 0 <= k < |LUCIDITY_TASKS| ==> 10 <= LUCIDITY_TASKS[k].xp <= 50
  {
  }

  lemma {:induction false} CountInAppend(a: seq<LucidityTask>, b: seq<LucidityTask>, c: Category)
    ensures CountIn(a + b, c) == CountIn(a, c) + CountIn(b, c)
    decreases |b|
  {
    if |b| == 0 {
      assert a + b == a;
    } else {
      assert (a + b)[..|a + b| - 1] == a + b[..|b| - 1];
      CountInAppend(a, b[..|b| - 1], c);
    }
  }

  lemma {:induction false} CountInAll(ts: seq<LucidityTask>, c: Category)
    requires forall k :: 0 <= k < |ts| ==> ts[k].category == c
    ensures CountIn(ts, c) == |ts|
    decreases |ts|
  {
    if |ts| > 0 {
      CountInAll(ts[..|ts| - 1], c);
    }
  }

  /** Seven day tasks, then eight night tasks, and no morning task. */
  lemma CatalogCategories()
    ensures forall k :: 0 <= k < 7 ==> LUCIDITY_TASKS[k].category == Day
    ensures forall k :: 7 <= k < 15 ==> LUCIDITY_TASKS[k].category == Night
    ensures CountIn(LUCIDITY_TASKS, Day) == 7
    ensures CountIn(LUCIDITY_TASKS, Night) == 8
    ensures CountIn(LUCIDITY_TASKS, Morning) == 0
  {
    var days, nights := DAY_HABITS, BEFORE_SLEEP + EARLY_MORNING;
    assert LUCIDITY_TASKS == days + nights;
    CountInAll(days, Day);
    CountInAll(nights, Night);
    CountInAppend(days, nights, Day);
    CountInAppend(days, nights, Night);
  }

  /** The two advanced techniques are night tasks worth 50 and 40 XP. */
  lemma AdvancedEntries()
    ensures var w := IndexOf(LUCIDITY_TASKS, "wbtb_lite");
      w >= 0 && LUCIDITY_TASKS[w].category == Night && LUCIDITY_TASKS[w].xp == 50
    ensures var r := IndexOf(LUCIDITY_TASKS, "reentry");
      r >= 0 && LUCIDITY_TASKS[r].category == Night && LUCIDITY_TASKS[r].xp == 40
  {
  }
}
