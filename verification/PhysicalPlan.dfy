/**
 What the nodes of a rewritten plan are worth, and the breadth-first search that decides which
 side of a join a table belongs to.
 */
module PhysicalPlan {
  import opened Relational
  import opened PlanTree

  /** The value of output column `c` of a node. */
  ghost function Output(n: PlanNode, c: Column): seq<int>
    reads n
  {
    var i := IndexOf(n.outputs, c);
    if i < |n.outputs| && i < |n.worth.den| then n.worth.den[i] else []
  }

  /** The value read as input column i from a child. */
  ghost function Slot(inputs: seq<Column>, child: PlanNode, i: nat): seq<int>
    reads child
  {
    if i < |inputs| then Output(child, inputs[i]) else []
  }

  ghost predicate Local(e: Engine, n: PlanNode, s: set<PlanNode>)
    reads s, n
  {
    && (forall i :: 0 <= i < |n.children| ==> n.children[i] in s && n.children[i].worth.rank < n.worth.rank)
    && |n.worth.slots| == |n.children|
    && (forall i :: 0 <= i < |n.children| ==> n.worth.slots[i] == Slot(n.inputs, n.children[i], i))
    && n.worth.den == e.Evaluate(n.op, n.inputs, n.worth.slots)
  }

  /** `s` is a finished, acyclic part of the plan and `den` is its denotation. */
  ghost predicate Settled(e: Engine, s: set<PlanNode>)
    reads s
  {
    forall n {:trigger Local(e, n, s)} :: n in s ==> Local(e, n, s)
  }

  ghost function TablesOf(cols: seq<Column>): set<string> {
    if cols == [] then {} else {cols[0].table} + TablesOf(cols[1..])
  }

  ghost function Union(sets: seq<set<string>>): set<string> {
    if sets == [] then {} else sets[0] + Union(sets[1..])
  }

  lemma {:induction false} TablesOfMember(cols: seq<Column>, table: string)
    ensures table in TablesOf(cols) <==> exists i :: 0 <= i < |cols| && cols[i].table == table
  {
    if cols != [] {
      TablesOfMember(cols[1..], table);
      if i :| 1 <= i < |cols| && cols[i].table == table {
        assert cols[1..][i - 1].table == table;
      }
    }
  }

  lemma {:induction false} UnionMember(sets: seq<set<string>>, table: string)
    ensures table in Union(sets) <==> exists i :: 0 <= i < |sets| && table in sets[i]
  {
    if sets != [] {
      UnionMember(sets[1..], table);
      if i :| 1 <= i < |sets| && table in sets[i] {
        assert table in sets[1..][i - 1];
      }
    }
  }

  /** `reach` collects the tables of all outputs reachable from a node. */
  ghost predicate LocalReach(n: PlanNode, s: set<PlanNode>)
    reads s, n
  {
    && (forall i :: 0 <= i < |n.children| ==> n.children[i] in s && n.children[i].worth.rank < n.worth.rank)
    && |n.worth.below| == |n.children|
    && (forall i :: 0 <= i < |n.children| ==> n.worth.below[i] == n.children[i].worth.reach)
    && n.worth.reach == TablesOf(n.outputs) + Union(n.worth.below)
  }

  ghost predicate Reaching(s: set<PlanNode>)
    reads s
  {
    forall n {:trigger LocalReach(n, s)} :: n in s ==> LocalReach(n, s)
  }

  // -------------------------------------------------------------------------------------------
  // The denotation is unique
  // -------------------------------------------------------------------------------------------

  ghost predicate Acyclic(s: set<PlanNode>)
    reads s
  {
    forall m :: m in s ==> forall i :: 0 <= i < |m.children| ==>
      m.children[i] in s && m.children[i].worth.rank < m.worth.rank
  }

  /** The denotation of a node, computed from its descendants alone. */
  ghost function Denote(e: Engine, n: PlanNode, s: set<PlanNode>): seq<seq<int>>
    requires n in s && Acyclic(s)
    reads s
    decreases n.worth.rank, |n.children| + 1
  {
    e.Evaluate(n.op, n.inputs, DenoteSlots(e, n, s, |n.children|))
  }

  ghost function DenoteSlots(e: Engine, n: PlanNode, s: set<PlanNode>, k: nat): (r: seq<seq<int>>)
    requires n in s && Acyclic(s) && k <= |n.children|
    reads s
    ensures |r| == k
    decreases n.worth.rank, k
  {
    if k == 0 then [] else
      var child := n.children[k - 1];
      var d := Denote(e, child, s);
      var i := if k - 1 < |n.inputs| then IndexOf(child.outputs, n.inputs[k - 1]) else |d|;
      DenoteSlots(e, n, s, k - 1) + [if k - 1 < |n.inputs| && i < |child.outputs| && i < |d| then d[i] else []]
  }

  /** In a settled plan the recorded value of every node is its denotation. */
  lemma {:induction false} SettledDenotes(e: Engine, n: PlanNode, s: set<PlanNode>)
    requires Settled(e, s) && Acyclic(s) && n in s
    ensures n.worth.den == Denote(e, n, s)
    decreases n.worth.rank, |n.children| + 1
  {
    assert Local(e, n, s);
    SettledSlots(e, n, s, |n.children|);
    assert n.worth.slots[..|n.children|] == n.worth.slots;
  }

  lemma NextSlot(e: Engine, n: PlanNode, s: set<PlanNode>, k: nat)
    requires n in s && Acyclic(s) && 0 < k <= |n.children|
             && n.children[k - 1].worth.den == Denote(e, n.children[k - 1], s)
    ensures DenoteSlots(e, n, s, k) == DenoteSlots(e, n, s, k - 1) + [Slot(n.inputs, n.children[k - 1], k - 1)]
  {
  }

  lemma {:induction false} SettledSlots(e: Engine, n: PlanNode, s: set<PlanNode>, k: nat)
    requires Settled(e, s) && Acyclic(s) && n in s && k <= |n.children| == |n.worth.slots|
    ensures DenoteSlots(e, n, s, k) == n.worth.slots[..k]
    decreases n.worth.rank, k
  {
    if k > 0 {
      SettledSlots(e, n, s, k - 1);
      var child := n.children[k - 1];
      SettledDenotes(e, child, s);
      assert n.worth.slots[k - 1] == Slot(n.inputs, child, k - 1) by { assert Local(e, n, s); }
      NextSlot(e, n, s, k);
      assert n.worth.slots[..k] == n.worth.slots[..k - 1] + [n.worth.slots[k - 1]];
    }
  }

  // -------------------------------------------------------------------------------------------
  // detFilterColIdx
  // -------------------------------------------------------------------------------------------

  /** A join whose two inputs reach disjoint sets of tables. */
  ghost predicate SidedJoin(n: PlanNode)
    reads n, n.children
  {
    && |n.children| == 2 && |n.outputs| == 2
    && n.outputs[0].table in n.children[0].worth.reach && n.outputs[1].table in n.children[1].worth.reach
    && n.children[0].worth.reach !! n.children[1].worth.reach
  }

  /** A part of the plan that is closed downwards and never outputs `table` does not reach it. */
  lemma {:induction false} ClosedWithout(v: PlanNode, closed: set<PlanNode>, s: set<PlanNode>, table: string)
    requires Reaching(s) && closed <= s && v in closed
    requires forall m :: m in closed ==> forall i :: 0 <= i < |m.children| ==> Seen(m.children[i], closed, [])
    requires forall m :: m in closed ==> table !in TablesOf(m.outputs)
    ensures table !in v.worth.reach
    decreases v.worth.rank
  {
    assert LocalReach(v, s);
    forall i | 0 <= i < |v.children| ensures table !in v.children[i].worth.reach {
      assert Seen(v.children[i], closed, []);
      ClosedWithout(v.children[i], closed, s, table);
    }
    UnionMember(v.worth.below, table);
  }

  lemma ChildReach(n: PlanNode, i: nat, s: set<PlanNode>)
    requires LocalReach(n, s) && i < |n.children|
    ensures n.children[i].worth.reach <= n.worth.reach
  {
    forall table | table in n.children[i].worth.reach ensures table in n.worth.reach {
      UnionMember(n.worth.below, table);
    }
  }

  lemma InOutputs(n: PlanNode, table: string, s: set<PlanNode>)
    requires LocalReach(n, s) && table in TablesOf(n.outputs)
    ensures table in n.worth.reach
  {
  }

  method Mentions(cols: seq<Column>, table: string) returns (found: bool)
    ensures found <==> table in TablesOf(cols)
  {
    TablesOfMember(cols, table);
    for i := 0 to |cols|
      invariant forall j :: 0 <= j < i ==> cols[j].table != table
    {
      if cols[i].table == table {
        return true;
      }
    }
    return false;
  }

  datatype Entry = Entry(side: nat, node: PlanNode)

  function Tagged(side: nat, nodes: seq<PlanNode>): (r: seq<Entry>)
    ensures |r| == |nodes|
    ensures forall i :: 0 <= i < |r| ==> r[i] == Entry(side, nodes[i])
  {
    seq(|nodes|, i requires 0 <= i < |nodes| => Entry(side, nodes[i]))
  }

  ghost predicate Seen(n: PlanNode, visited: set<PlanNode>, queue: seq<Entry>) {
    n in visited || exists j :: 0 <= j < |queue| && queue[j].node == n
  }

  /** A queue entry lies below the join input it is tagged with. */
  ghost predicate Tag(node: PlanNode, q: Entry, s: set<PlanNode>)
    requires |node.children| == 2
    reads s, node, node.children
  {
    q.node in s && q.side < 2 && q.node.worth.reach <= node.children[q.side].worth.reach
  }

  ghost predicate QueueInv(node: PlanNode, queue: seq<Entry>, s: set<PlanNode>)
    requires |node.children| == 2
    reads s, node, node.children
  {
    forall j :: 0 <= j < |queue| ==> Tag(node, queue[j], s)
  }

  /** Visited nodes do not output the table, and their children are visited or queued. */
  ghost predicate VisitedInv(table: string, node: PlanNode, visited: set<PlanNode>, queue: seq<Entry>, s: set<PlanNode>)
    reads s, node
  {
    && visited <= s
    && (forall v :: v in visited ==> table !in TablesOf(v.outputs))
    && (forall v :: v in visited ==> forall i :: 0 <= i < |v.children| ==> Seen(v.children[i], visited, queue))
    && (forall i :: 0 <= i < |node.children| ==> Seen(node.children[i], visited, queue))
  }

  lemma SeenStep(cur: PlanNode, side: nat, visited: set<PlanNode>, rest: seq<Entry>, more: seq<Entry>)
    ensures forall n :: Seen(n, visited, [Entry(side, cur)] + rest) ==> Seen(n, visited + {cur}, rest + more)
    ensures forall i :: 0 <= i < |more| ==> Seen(more[i].node, visited + {cur}, rest + more)
  {
    var q := rest + more;
    forall i | 0 <= i < |more| ensures Seen(more[i].node, visited + {cur}, q) {
      assert q[|rest| + i] == more[i];
    }
    forall n | Seen(n, visited, [Entry(side, cur)] + rest) ensures Seen(n, visited + {cur}, q) {
      if n !in visited + {cur} {
        var j :| 0 <= j < |[Entry(side, cur)] + rest| && ([Entry(side, cur)] + rest)[j].node == n;
        assert q[j - 1].node == n;
      }
    }
  }

  lemma SkipStep(table: string, node: PlanNode, cur: PlanNode, side: nat, visited: set<PlanNode>, rest: seq<Entry>,
                 s: set<PlanNode>)
    requires VisitedInv(table, node, visited, [Entry(side, cur)] + rest, s) && cur in visited
    ensures VisitedInv(table, node, visited, rest, s)
  {
    SeenStep(cur, side, visited, rest, []);
    assert rest + [] == rest && visited + {cur} == visited;
  }

  lemma VisitStep(table: string, node: PlanNode, cur: PlanNode, side: nat, visited: set<PlanNode>, rest: seq<Entry>,
                  s: set<PlanNode>)
    requires VisitedInv(table, node, visited, [Entry(side, cur)] + rest, s)
    requires cur in s && table !in TablesOf(cur.outputs)
    ensures VisitedInv(table, node, visited + {cur}, rest + Tagged(side, cur.children), s)
  {
    var more := Tagged(side, cur.children);
    SeenStep(cur, side, visited, rest, more);
    forall v, i | v in visited + {cur} && 0 <= i < |v.children|
      ensures Seen(v.children[i], visited + {cur}, rest + more)
    {
      if v !in visited {
        assert more[i].node == v.children[i];
      }
    }
  }

  lemma QueueStep(node: PlanNode, cur: PlanNode, side: nat, rest: seq<Entry>, s: set<PlanNode>)
    requires Reaching(s) && |node.children| == 2
    requires QueueInv(node, [Entry(side, cur)] + rest, s)
    ensures cur in s && side < 2 && cur.worth.reach <= node.children[side].worth.reach
    ensures QueueInv(node, rest, s) && QueueInv(node, rest + Tagged(side, cur.children), s)
  {
    var more, queue := Tagged(side, cur.children), [Entry(side, cur)] + rest;
    assert Tag(node, queue[0], s);
    assert LocalReach(cur, s);
    forall j | 0 <= j < |rest| ensures Tag(node, rest[j], s) {
      assert rest[j] == queue[j + 1];
    }
    forall i | 0 <= i < |more| ensures Tag(node, more[i], s) {
      ChildReach(cur, i, s);
    }
  }

  /** An exhausted search means neither side reaches the table. */
  lemma {:induction false} Exhausted(table: string, node: PlanNode, visited: set<PlanNode>, s: set<PlanNode>)
    requires Reaching(s) && VisitedInv(table, node, visited, [], s)
    ensures forall k :: 0 <= k < |node.children| ==> table !in node.children[k].worth.reach
  {
    forall k | 0 <= k < |node.children| ensures table !in node.children[k].worth.reach {
      assert Seen(node.children[k], visited, []);
      ClosedWithout(node.children[k], visited, s, table);
    }
  }

  lemma StartStep(table: string, node: PlanNode, queue: seq<Entry>, s: set<PlanNode>)
    requires node in s && Reaching(s) && |node.children| == 2
    requires queue == [Entry(0, node.children[0]), Entry(1, node.children[1])]
    ensures QueueInv(node, queue, s) && VisitedInv(table, node, {}, queue, s)
  {
    assert LocalReach(node, s);
    assert Tag(node, queue[0], s) && Tag(node, queue[1], s);
    assert Seen(queue[0].node, {}, queue) && Seen(queue[1].node, {}, queue);
  }

  /** Which output of `node` is the position list for `table`. */
  method FilterColIdx(table: string, node: PlanNode, ghost s: set<PlanNode>) returns (idx: nat)
    requires node in s && Reaching(s)
    requires node.op.JoinOp? ==> SidedJoin(node)
    ensures !node.op.JoinOp? ==> idx == 0
    ensures node.op.JoinOp? ==> forall k :: 0 <= k < 2 && table in node.children[k].worth.reach ==> idx == k
  {
    if !node.op.JoinOp? {
      return 0;
    }
    if node.outputs[0].table == table {
      return 0;
    } else if node.outputs[1].table == table {
      return 1;
    }

    var queue := [Entry(0, node.children[0]), Entry(1, node.children[1])];
    var visited: set<PlanNode> := {};
    StartStep(table, node, queue, s);
    while queue != []
      invariant QueueInv(node, queue, s) && VisitedInv(table, node, visited, queue, s)
      decreases s - visited, |queue|
    {
      var side, cur := queue[0].side, queue[0].node;
      ghost var before := queue;
      queue := queue[1..];
      assert before == [Entry(side, cur)] + queue;
      QueueStep(node, cur, side, queue, s);
      if cur in visited {
        SkipStep(table, node, cur, side, visited, queue, s);
        continue;
      }
      var found := Mentions(cur.outputs, table);
      if found {
        InOutputs(cur, table, s);
        return side;
      }
      VisitStep(table, node, cur, side, visited, queue, s);
      visited := visited + {cur};
      queue := queue + Tagged(side, cur.children);
    }
    Exhausted(table, node, visited, s);
    return 0;
  }
}
