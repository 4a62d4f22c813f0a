/** The journey map (src/components/gamification/JourneyMap.tsx): lucidity tasks
    as a vertical trail of nodes, joined by one curved path. A node is done
    when its id is among the completed ids, and locked when neither it nor
    the node before it is done.

    Each node's horizontal position comes from a sine wave in floating
    point and is not modelled: a path segment names the nodes it joins
    instead of their x coordinates. Vertical positions are whole numbers. */
module JourneyMap {
  import opened Wrappers
  import opened LucidityTasks

  const STEP_HEIGHT := 100

  datatype Node = Node(task: LucidityTask, y: int, isCompleted: bool, isLocked: bool)

  /** `nodes`: one node per task, in order, each 100 below the previous. */
  function Nodes(tasks: seq<LucidityTask>, completedTaskIds: seq<string>): (r: seq<Node>)
    ensures |r| == |tasks|
    ensures forall i :: 0 <= i < |r| ==> r[i].task == tasks[i] && r[i].y == STEP_HEIGHT * i + 50
    ensures forall i :: 0 <= i < |r| ==> (r[i].isCompleted <==> tasks[i].id in completedTaskIds)
  {
    seq(|tasks|, i requires 0 <= i < |tasks| =>
      Node(tasks[i], i * STEP_HEIGHT + 50,
        tasks[i].id in completedTaskIds,
        i > 0 && tasks[i - 1].id !in completedTaskIds && tasks[i].id !in completedTaskIds))
  }

  /** The lock rule, read on the nodes: a node is locked exactly when it is
      not the first, it is not done and the node before it is not done. So
      the first node is never locked, nor is a done node, nor the node after
      a done one. */
  lemma LockRule(tasks: seq<LucidityTask>, completedTaskIds: seq<string>)
    ensures var r := Nodes(tasks, completedTaskIds);
      && (forall i :: 0 < i < |r| ==> (r[i].isLocked <==> !r[i - 1].isCompleted && !r[i].isCompleted))
      && (|r| > 0 ==> !r[0].isLocked)
      && (forall i :: 0 <= i < |r| && r[i].isCompleted ==> !r[i].isLocked)
      && (forall i :: 0 < i < |r| && r[i - 1].isCompleted ==> !r[i].isLocked)
  {
  }

  /** With nothing done, every node but the first is locked; with every
      task done, none is. */
  lemma LockExtremes(tasks: seq<LucidityTask>, completedTaskIds: seq<string>)
    ensures (forall i :: 0 <= i < |tasks| ==> tasks[i].id !in completedTaskIds) ==>
      forall i :: 0 < i < |tasks| ==> Nodes(tasks, completedTaskIds)[i].isLocked
    ensures (forall i :: 0 <= i < |tasks| ==> tasks[i].id in completedTaskIds) ==>
      forall i :: 0 <= i < |tasks| ==> !Nodes(tasks, completedTaskIds)[i].isLocked
  {
  }

  /** `totalHeight`: room for every node and 100 more. Every node lies
      strictly inside it, the last one 150 above its bottom. */
  function TotalHeight(nodes: seq<Node>): (h: int)
    ensures h >= 100
  {
    |nodes| * STEP_HEIGHT + 100
  }

  lemma NodesInside(tasks: seq<LucidityTask>, completedTaskIds: seq<string>)
    ensures var r := Nodes(tasks, completedTaskIds);
      && (forall i :: 0 <= i < |r| ==> 0 < r[i].y < TotalHeight(r))
      && (|r| > 0 ==> TotalHeight(r) - r[|r| - 1].y == 150)
      && (forall i :: 0 < i < |r| ==> r[i].y - r[i - 1].y == STEP_HEIGHT)
  {
  }

  // ---------------------------------------------------------------------
  // the path

  /** One piece of the path: a move to a node, or a cubic curve from one
      node to the next whose two control points sit at height `midY`. */
  datatype Segment =
    | MoveTo(node: nat, y: int)
    | CurveTo(from: nat, to: nat, midY: real, y: int)

  /** Node `k`'s curve to the next node. */
  function Curve(nodes: seq<Node>, k: nat): Segment
    requires k + 1 < |nodes|
  {
    CurveTo(k, k + 1, (nodes[k].y + nodes[k + 1].y) as real / 2.0, nodes[k + 1].y)
  }

  /** The path the loop builds: a move to the first node, then one curve per
      pair of neighbours. */
  function Path(nodes: seq<Node>): (p: seq<Segment>)
    ensures |p| == |nodes|
    ensures |nodes| > 0 ==> p[0] == MoveTo(0, nodes[0].y)
    ensures forall k :: 1 <= k < |p| ==> p[k] == Curve(nodes, k - 1)
  {
    if |nodes| == 0 then []
    else [MoveTo(0, nodes[0].y)] + seq(|nodes| - 1, k requires 0 <= k < |nodes| - 1 => Curve(nodes, k))
  }

  /** `pathData`: empty without nodes, otherwise the path from the first
      node through each following one. */
  method PathData(nodes: seq<Node>) returns (d: seq<Segment>)
    ensures d == Path(nodes)
  {
    if |nodes| == 0 {
      return [];
    }
    d := [MoveTo(0, nodes[0].y)];
    var i := 0;
    while i < |nodes| - 1
      invariant 0 <= i <= |nodes| - 1
      invariant |d| == i + 1 && d[0] == MoveTo(0, nodes[0].y)
      invariant forall k :: 1 <= k <= i ==> d[k] == Curve(nodes, k - 1)
    {
      var current, next := nodes[i], nodes[i + 1];
      var midY := (current.y + next.y) as real / 2.0;
      d := d + [CurveTo(i, i + 1, midY, next.y)];
      i := i + 1;
    }
    assert d == Path(nodes);
  }

  /** The path is empty exactly when there are no nodes; otherwise it is one
      move, to the first node, followed only by curves, the `k`-th of them
      from node `k` to node `k + 1`, ending at the last node. */
  lemma PathShape(nodes: seq<Node>)
    ensures Path(nodes) == [] <==> |nodes| == 0
    ensures |nodes| > 0 ==> Path(nodes)[0] == MoveTo(0, nodes[0].y)
    ensures forall k :: 1 <= k < |nodes| ==>
      Path(nodes)[k].CurveTo? && Path(nodes)[k].from == k - 1 && Path(nodes)[k].to == k
    ensures |nodes| > 0 ==> Path(nodes)[|nodes| - 1].y == nodes[|nodes| - 1].y
  {
  }

  /** On the map's own nodes every control height is a whole number, 50
      below the start of its curve and 50 above its end. */
  lemma CurvesOfNodes(tasks: seq<LucidityTask>, completedTaskIds: seq<string>)
    ensures var r := Nodes(tasks, completedTaskIds);
      forall k :: 1 <= k < |r| ==>
        Path(r)[k].midY == (STEP_HEIGHT * k) as real
        && Path(r)[k].midY == (r[k - 1].y + 50) as real
        && Path(r)[k].y == r[k].y
  {
    var r := Nodes(tasks, completedTaskIds);
    forall k | 1 <= k < |r|
      ensures Path(r)[k].midY == (STEP_HEIGHT * k) as real
    {
      assert Path(r)[k] == Curve(r, k - 1);
      assert r[k - 1].y + r[k].y == 2 * (STEP_HEIGHT * k);
    }
  }

  // ---------------------------------------------------------------------
  // the buttons

  /** A node's click: its task is selected unless the node is locked. */
  function Click(node: Node): (selected: Option<LucidityTask>)
    ensures selected.Some? <==> !node.isLocked
    ensures selected.Some? ==> selected.value == node.task
  {
    if node.isLocked then None else Some(node.task)
  }

  /** `disabled`: locked and not done. */
  predicate Disabled(node: Node) {
    node.isLocked && !node.isCompleted
  }

  /** Since a done node is never locked, a map button is disabled exactly
      when it is locked, and a click on it selects nothing. */
  lemma DisabledIsLocked(tasks: seq<LucidityTask>, completedTaskIds: seq<string>, i: nat)
    requires i < |tasks|
    ensures var node := Nodes(tasks, completedTaskIds)[i];
      (Disabled(node) <==> node.isLocked) && (Disabled(node) <==> Click(node) == None)
  {
  }

  /** What the button shows: a check mark when done, else a padlock when
      locked, else its task's own icon. */
  datatype Badge = CheckMark | Padlock | TaskIcon

  function BadgeOf(node: Node): (b: Badge)
    ensures b == CheckMark <==> node.isCompleted
    ensures b == Padlock <==> !node.isCompleted && node.isLocked
    ensures b == TaskIcon <==> !node.isCompleted && !node.isLocked
  {
    if node.isCompleted then CheckMark else if node.isLocked then Padlock else TaskIcon
  }

  /** The "COMEÇAR" marker over node `i`: open, not done, and as far along
      the trail as there are completed ids. */
  predicate StartIndicator(nodes: seq<Node>, completedTaskIds: seq<string>, i: nat)
    requires i < |nodes|
  {
    !nodes[i].isLocked && !nodes[i].isCompleted && i == |completedTaskIds|
  }

  /** The marker shows on at most one node. */
  lemma AtMostOneIndicator(nodes: seq<Node>, completedTaskIds: seq<string>, i: nat, j: nat)
    requires i < |nodes| && j < |nodes|
    requires StartIndicator(nodes, completedTaskIds, i) && StartIndicator(nodes, completedTaskIds, j)
    ensures i == j
  {
  }

  /** Each task's id, in order. */
  function IdsOf(tasks: seq<LucidityTask>): (ids: seq<string>)
    ensures |ids| == |tasks|
    ensures forall j :: 0 <= j < |tasks| ==> ids[j] == tasks[j].id
  {
    seq(|tasks|, j requires 0 <= j < |tasks| => tasks[j].id)
  }

  /** With distinct ids, a task's id is among the first `k` ids exactly when
      that task is one of the first `k`. */
  lemma InFirstIds(tasks: seq<LucidityTask>, k: nat, j: nat)
    requires k <= |tasks| && j < |tasks| && DistinctIds(tasks)
    ensures tasks[j].id in IdsOf(tasks[..k]) <==> j < k
  {
    var done := IdsOf(tasks[..k]);
    if j < k {
      assert done[j] == tasks[j].id;
    } else {
      forall m | 0 <= m < |done| ensures done[m] != tasks[j].id {
        assert done[m] == tasks[m].id;
      }
    }
  }

  /** When tasks were done in trail order, the marker stands on the
      first task not yet done, and on no other node. */
  lemma IndicatorFollowsProgress(tasks: seq<LucidityTask>, k: nat)
    requires k <= |tasks| && DistinctIds(tasks)
    ensures var done := IdsOf(tasks[..k]); var r := Nodes(tasks, done);
      forall i :: 0 <= i < |r| ==> (StartIndicator(r, done, i) <==> i == k)
  {
    var done := IdsOf(tasks[..k]);
    var r := Nodes(tasks, done);
    if k < |tasks| {
      InFirstIds(tasks, k, k);
      if k > 0 {
        InFirstIds(tasks, k, k - 1);
      }
      assert StartIndicator(r, done, k);
    }
  }
}
