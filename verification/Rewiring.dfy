/**
 What the materialization passes share: the shape of the tree they are given, the nodes they
 create, and the moment a node's children are replaced.
 */
module Rewiring {
  import opened Relational
  import opened PlanTree
  import opened PhysicalPlan

  function Nodes(t: Tree): (r: set<PlanNode>)
    ensures t.node in r
  {
    {t.node} + NodesOf(t.subs)
  }

  function NodesOf(ts: seq<Tree>): set<PlanNode> {
    if ts == [] then {} else Nodes(ts[0]) + NodesOf(ts[1..])
  }

  /** No node object occurs twice in the tree. */
  ghost predicate Unshared(t: Tree) {
    t.node !in NodesOf(t.subs) && AllUnshared(t.subs)
  }

  ghost predicate AllUnshared(ts: seq<Tree>) {
    ts == [] || (Unshared(ts[0]) && Nodes(ts[0]) !! NodesOf(ts[1..]) && AllUnshared(ts[1..]))
  }

  lemma {:induction false} MemberNodes(ts: seq<Tree>, k: nat)
    requires k < |ts|
    ensures Nodes(ts[k]) <= NodesOf(ts) && ts[k].node in NodesOf(ts)
  {
    if k > 0 {
      MemberNodes(ts[1..], k - 1);
    }
  }

  /** Which operators output positions and which output values; a Group does both. */
  ghost predicate Flagged(t: Tree)
    reads t.node
  {
    && t.node.outputsPosList == IsPositional(t.op)
    && t.node.outputsMatVals == (t.op.FetchOp? || t.op.MapOp? || t.op.SelectOp? || t.op.GroupOp?)
  }

  /** The heap holds tree `t`. */
  ghost predicate Shape(t: Tree)
    reads Nodes(t)
  {
    && t.node.op == t.op && t.node.inputs == t.inputs && t.node.outputs == t.outputs
    && Flagged(t)
    && |t.node.children| == |t.subs|
    && (forall i :: 0 <= i < |t.subs| ==> t.node.children[i] == t.subs[i].node)
    && Shapes(t.subs)
  }

  ghost predicate Shapes(ts: seq<Tree>)
    reads NodesOf(ts)
  {
    ts == [] || (Shape(ts[0]) && Shapes(ts[1..]))
  }

  /** Subtrees a pass has not come to yet. */
  ghost predicate Untouched(ts: seq<Tree>, s: set<PlanNode>)
    reads NodesOf(ts)
  {
    Shapes(ts) && AllUnshared(ts) && NodesOf(ts) !! s
  }

  // -------------------------------------------------------------------------------------------
  // What a finished pass must have established
  // -------------------------------------------------------------------------------------------

  /** Child i of the node denotes input column i over the node's input relation. */
  ghost predicate Supplied(e: Engine, t: Tree, s: set<PlanNode>)
    reads s
  {
    && t.subs != []
    && t.node in s && t.node.op == t.op && t.node.inputs == t.inputs && t.node.outputs == t.outputs
    && |t.node.children| == |t.inputs|
    && (forall i :: 0 <= i < |t.inputs| ==>
          t.node.children[i] in s
          && Output(t.node.children[i], t.inputs[i]) == ColumnOf(e, In(e, t, t.inputs[i].table), t.inputs[i]))
  }

  /** Every operator of the tree reads the right columns, same rows in the same order. */
  ghost predicate Correct(e: Engine, t: Tree, s: set<PlanNode>)
    reads s
  {
    && (t.subs != [] ==> Supplied(e, t, s))
    && (forall k :: 0 <= k < |t.subs| ==> Correct(e, t.subs[k], s))
  }

  /** Correctness is not lost when the finished part of the plan grows. */
  lemma {:induction false} CorrectGrows(e: Engine, t: Tree, s: set<PlanNode>, s': set<PlanNode>)
    requires Correct(e, t, s) && s <= s'
    ensures Correct(e, t, s')
  {
    forall k | 0 <= k < |t.subs| ensures Correct(e, t.subs[k], s') {
      CorrectGrows(e, t.subs[k], s, s');
    }
  }

  /** Nor gained: what the nodes read lies in the finished part already. */
  lemma {:induction false} CorrectSame(e: Engine, t: Tree, s: set<PlanNode>, s': set<PlanNode>)
    requires Settled(e, s) && Nodes(t) <= s <= s'
    ensures Correct(e, t, s) <==> Correct(e, t, s')
  {
    assert Local(e, t.node, s);
    forall k | 0 <= k < |t.subs| ensures Correct(e, t.subs[k], s) <==> Correct(e, t.subs[k], s') {
      MemberNodes(t.subs, k);
      CorrectSame(e, t.subs[k], s, s');
    }
  }

  /** The output of `t` that carries positions for `table`. */
  function PositionOutput(t: Tree, table: string): Column
    requires |t.outputs| > Side(t, table)
  {
    t.outputs[Side(t, table)]
  }

  /** A supplied positional node outputs the logical position lists. */
  lemma SuppliedLists(e: Engine, t: Tree, s: set<PlanNode>, table: string)
    requires e.Sound() && (Core(t) || Chain(t)) && IsPositional(t.op)
    requires Settled(e, s) && Supplied(e, t, s)
    ensures |t.outputs| > Side(t, table) && |Lists(e, t)| > Side(t, table)
    ensures Output(t.node, PositionOutput(t, table)) == Lists(e, t)[Side(t, table)]
  {
    assert Local(e, t.node, s);
    assert t.node.worth.slots == InputColumns(e, t);
    ListsInRange(e, t, table);
    OutputAt(t, table);
    assert e.Evaluate(t.op, t.inputs, t.node.worth.slots)[Side(t, table)] == Lists(e, t)[Side(t, table)];
  }

  lemma OutputAt(t: Tree, table: string)
    requires (Core(t) || Chain(t)) && IsPositional(t.op)
    ensures |t.outputs| > Side(t, table) && IndexOf(t.outputs, t.outputs[Side(t, table)]) == Side(t, table)
  {
  }

  /** A supplied Map or aggregating Group outputs the column it computes. */
  lemma SuppliedValues(e: Engine, t: Tree, s: set<PlanNode>)
    requires e.Sound() && Chain(t) && !Core(t) && (t.op.MapOp? || (t.op.GroupOp? && t.op.hasAgg))
    requires Settled(e, s) && Supplied(e, t, s)
    ensures var c := if t.op.MapOp? then t.outputs[0] else t.outputs[3];
            Output(t.node, c) == ColumnOf(e, Rel(e, t), c)
  {
    assert Local(e, t.node, s);
    assert t.node.worth.slots == InputColumns(e, t);
    SoundAt(e, t);
    if t.op.MapOp? {
      MapKeepsRows(e, t, "");
    } else {
      GroupComputes(e, t);
    }
  }

  /** `m` outputs column `c` of the relation `sub` denotes, and reaches exactly its tables. */
  ghost predicate Provides(e: Engine, m: PlanNode, c: Column, sub: Tree)
    reads m
  {
    && Output(m, c) == ColumnOf(e, Rel(e, sub), c)
    && (Core(sub) ==> m.worth.reach == Tables(sub))
  }

  /** A finished core node reaches exactly the tables below it, each join input its own side's. */
  ghost predicate Reached(t: Tree, s: set<PlanNode>)
    reads s
  {
    && t.node in s
    && (Core(t) ==> t.node.worth.reach == Tables(t))
    && (Core(t) && t.op.JoinOp? ==>
          && |t.node.children| == 2 && t.node.children[0] in s && t.node.children[1] in s
          && t.node.children[0].worth.reach == Tables(t.subs[0])
          && t.node.children[1].worth.reach == Tables(t.subs[1]))
  }

  /** Providers of the right columns make the node's operands right. */
  lemma Supply(e: Engine, t: Tree, s: set<PlanNode>)
    requires WellFormed(t) && t.subs != []
    requires t.node in s && t.node.op == t.op && t.node.inputs == t.inputs && t.node.outputs == t.outputs
    requires LocalReach(t.node, s) && |t.node.children| == |t.inputs|
    requires forall i :: 0 <= i < |t.inputs| ==>
               Provides(e, t.node.children[i], t.inputs[i], t.subs[Side(t, t.inputs[i].table)])
    ensures Supplied(e, t, s) && Reached(t, s)
  {
    if Core(t) {
      var below := t.node.worth.below;
      forall table ensures table in t.node.worth.reach <==> table in Tables(t) {
        UnionMember(below, table);
        TablesOfMember(t.node.outputs, table);
        if t.op.JoinOp? {
          assert Side(t, t.inputs[0].table) == 0 && Side(t, t.inputs[1].table) == 1;
          assert below[0] == Tables(t.subs[0]) && below[1] == Tables(t.subs[1]);
        } else {
          assert below[0] == Tables(t.subs[0]);
        }
      }
    }
  }

  function ColumnSet(cols: seq<Column>): set<Column> {
    set c | c in cols
  }

  /** The tables below the first k children. */
  function First(t: Tree, k: nat): set<string> {
    if k == 0 || t.subs == [] then {} else if k == 1 then Tables(t.subs[0]) else Tables(t)
  }

  /** The column under which a child's values are remembered; a Group without aggregate has none. */
  function ValueColumn(op: Op, outputs: seq<Column>): Column
    requires |outputs| > 0
  {
    if op.GroupOp? then if op.hasAgg then outputs[|outputs| - 1] else Column("", "") else outputs[0]
  }

  /** The first k subtrees are finished. */
  ghost predicate Done(e: Engine, t: Tree, k: nat, s: set<PlanNode>)
    reads s
  {
    && Settled(e, s) && Reaching(s)
    && k <= |t.subs| && NodesOf(t.subs[..k]) <= s && (forall j :: 0 <= j < k ==> Correct(e, t.subs[j], s))
  }

  lemma DoneGrows(e: Engine, t: Tree, k: nat, s0: set<PlanNode>, s1: set<PlanNode>, s: set<PlanNode>)
    requires k < |t.subs| && Done(e, t, k, s0) && s0 <= s1 <= s && Settled(e, s) && Reaching(s)
    requires Correct(e, t.subs[k], s1) && Nodes(t.subs[k]) <= s1
    ensures Done(e, t, k + 1, s)
  {
    forall j | 0 <= j < k + 1 ensures Correct(e, t.subs[j], s) {
      CorrectGrows(e, t.subs[j], if j < k then s0 else s1, s);
    }
    NodesOfSnoc(t.subs, k);
  }

  lemma {:induction false} NodesOfSnoc(ts: seq<Tree>, k: nat)
    requires k < |ts|
    ensures NodesOf(ts[..k + 1]) == NodesOf(ts[..k]) + Nodes(ts[k])
  {
    if k > 0 {
      assert ts[..k + 1][1..] == ts[1..][..k] && ts[..k][1..] == ts[1..][..k - 1];
      NodesOfSnoc(ts[1..], k - 1);
    }
  }

  // -------------------------------------------------------------------------------------------
  // New nodes
  // -------------------------------------------------------------------------------------------

  /** A height above all of `ms`. */
  lemma {:induction false} Above(ms: seq<PlanNode>) returns (r: nat)
    ensures forall i :: 0 <= i < |ms| ==> ms[i].worth.rank < r
  {
    if ms == [] {
      r := 0;
    } else {
      var below := Above(ms[1..]);
      assert forall i :: 1 <= i < |ms| ==> ms[i] == ms[1..][i - 1];
      r := if ms[0].worth.rank < below then below else ms[0].worth.rank + 1;
    }
  }

  /** The values a node with these inputs and children reads, and the tables its children reach. */
  lemma {:induction false} ReadChildren(inputs: seq<Column>, ms: seq<PlanNode>)
    returns (slots: seq<seq<int>>, below: seq<set<string>>)
    ensures |slots| == |below| == |ms|
    ensures forall i :: 0 <= i < |ms| ==> slots[i] == Slot(inputs, ms[i], i) && below[i] == ms[i].worth.reach
  {
    slots, below := [], [];
    for k := 0 to |ms|
      invariant |slots| == |below| == k
      invariant forall i :: 0 <= i < k ==> slots[i] == Slot(inputs, ms[i], i) && below[i] == ms[i].worth.reach
    {
      slots, below := slots + [Slot(inputs, ms[k], k)], below + [ms[k].worth.reach];
    }
  }

  /** Adding one consistent node to a settled part leaves it settled. */
  lemma Settle(e: Engine, n: PlanNode, s: set<PlanNode>)
    requires Settled(e, s) && Reaching(s)
    requires Local(e, n, s) && LocalReach(n, s)
    ensures Settled(e, s + {n}) && Reaching(s + {n})
  {
    forall m | m in s ensures Local(e, m, s + {n}) && LocalReach(m, s + {n}) {
      assert Local(e, m, s) && LocalReach(m, s);
    }
  }

  /** Fill in the ghost fields of a node whose children are settled. */
  ghost method Account(e: Engine, n: PlanNode, s: set<PlanNode>)
    requires Settled(e, s) && Reaching(s) && n !in s
    requires forall i :: 0 <= i < |n.children| ==> n.children[i] in s
    modifies n`worth
    ensures Local(e, n, s) && LocalReach(n, s)
    ensures Settled(e, s + {n}) && Reaching(s + {n})
  {
    var slots, below := ReadChildren(n.inputs, n.children);
    var rank := Above(n.children);
    n.worth := Worth(slots, e.Evaluate(n.op, n.inputs, slots), rank, below, TablesOf(n.outputs) + Union(below));
    Settle(e, n, s);
  }

  lemma MaterializeWorth(e: Engine, m: PlanNode, s: set<PlanNode>)
    requires Local(e, m, s) && LocalReach(m, s)
    requires m.op == MatOp && |m.inputs| == 2 && |m.outputs| == 1 && |m.children| == 2
    ensures Output(m, m.outputs[0]) == Gather(Output(m.children[0], m.inputs[0]), Output(m.children[1], m.inputs[1]))
    ensures m.worth.reach == {m.outputs[0].table} + m.children[0].worth.reach + m.children[1].worth.reach
  {
    var below := m.worth.below;
    assert Union(below) == below[0] + Union(below[1..]);
    assert TablesOf(m.outputs[1..]) == {};
  }

  lemma FetchWorth(e: Engine, m: PlanNode, s: set<PlanNode>)
    requires Local(e, m, s) && LocalReach(m, s)
    requires m.op.FetchOp? && |m.inputs| == 1 && m.outputs == m.inputs && m.children == []
    ensures Output(m, m.outputs[0]) == e.BaseColumn(m.outputs[0])
    ensures m.worth.reach == {m.outputs[0].table}
  {
    assert TablesOf(m.outputs[1..]) == {};
  }

  method NewFetch(ghost e: Engine, c: Column, wasTableBaseNode: bool, ghost s: set<PlanNode>) returns (m: PlanNode)
    requires Settled(e, s) && Reaching(s)
    ensures fresh(m)
    ensures m.op == FetchOp(wasTableBaseNode) && m.inputs == m.outputs == [c] && m.outputsMatVals
    ensures Output(m, c) == e.BaseColumn(c) && m.worth.reach == {c.table}
    ensures Settled(e, s + {m}) && Reaching(s + {m})
  {
    m := new PlanNode(FetchOp(wasTableBaseNode), [c], [c], false, []);
    Account(e, m, s);
    FetchWorth(e, m, s);
  }

  method NewMaterialize(ghost e: Engine, idxCol: Column, filterCol: Column, out: Column, posList: bool,
                        src: PlanNode, filter: PlanNode, ghost s: set<PlanNode>) returns (m: PlanNode)
    requires Settled(e, s) && Reaching(s) && src in s && filter in s
    ensures fresh(m)
    ensures m.op == MatOp && m.inputs == [idxCol, filterCol] && m.outputs == [out] && m.children == [src, filter]
    ensures m.outputsPosList == posList && m.outputsMatVals == !posList
    ensures Output(m, out) == Gather(Output(src, idxCol), Output(filter, filterCol))
    ensures m.worth.reach == {out.table} + src.worth.reach + filter.worth.reach
    ensures Settled(e, s + {m}) && Reaching(s + {m})
  {
    m := new PlanNode(MatOp, [idxCol, filterCol], [out], posList, [src, filter]);
    Account(e, m, s);
    MaterializeWorth(e, m, s);
  }

  /** Replace a node's children by the providers of its input columns. */
  method Rewire(ghost e: Engine, node: PlanNode, providers: seq<PlanNode>, ghost s: set<PlanNode>)
    requires Settled(e, s) && Reaching(s) && node !in s
    requires forall i :: 0 <= i < |providers| ==> providers[i] in s
    modifies node`children, node`worth
    ensures node.children == providers
    ensures Settled(e, s + {node}) && Reaching(s + {node})
  {
    node.children := providers;
    Account(e, node, s);
  }

  /** The node holds what the tree says, whatever its children are. */
  ghost predicate Standing(t: Tree, s: set<PlanNode>)
    reads s
  {
    t.node in s && t.node.op == t.op && t.node.inputs == t.inputs && t.node.outputs == t.outputs
  }

  /** The output of a finished positional node that a column or position list is gathered by. */
  method FilterColumn(ghost e: Engine, ghost t: Tree, table: string, child: PlanNode, ghost s: set<PlanNode>)
    returns (filterCol: Column)
    requires e.Sound() && (Core(t) || Chain(t)) && IsPositional(t.op) && child == t.node
    requires Settled(e, s) && Reaching(s) && Standing(t, s) && Reached(t, s)
    requires Core(t) ==> table in Tables(t)
    ensures |t.outputs| > Side(t, table) && filterCol == PositionOutput(t, table)
    ensures Supplied(e, t, s) ==>
      |Lists(e, t)| > Side(t, table) && Output(child, filterCol) == Lists(e, t)[Side(t, table)]
  {
    OutputAt(t, table);
    var idx := FilterColIdx(table, child, s);
    filterCol := child.outputs[idx];
    if Supplied(e, t, s) {
      SuppliedLists(e, t, s, table);
    }
  }

  /** Materialize a column on the position list of the operator above it. */
  method MoveColumn(ghost e: Engine, ghost t: Tree, c: Column, src: PlanNode, child: PlanNode, ghost s: set<PlanNode>)
    returns (m: PlanNode)
    requires e.Sound() && (Core(t) || Chain(t)) && IsPositional(t.op) && child == t.node
    requires Settled(e, s) && Reaching(s) && Standing(t, s) && Reached(t, s)
    requires t.subs != [] && Below(t, c) && src in s
    ensures fresh(m) && m.op == MatOp && m.outputsMatVals && !m.outputsPosList
    ensures |t.outputs| > Side(t, c.table)
    ensures m.inputs == [c, PositionOutput(t, c.table)] && m.outputs == [c] && m.children == [src, child]
    ensures Supplied(e, t, s) && Provides(e, src, c, t.subs[Side(t, c.table)]) ==> Provides(e, m, c, t)
    ensures Settled(e, s + {m}) && Reaching(s + {m})
  {
    BelowCore(t, c);
    var filterCol := FilterColumn(e, t, c.table, child, s);
    ghost var list, provided := Output(child, filterCol), Supplied(e, t, s)
      && Provides(e, src, c, t.subs[Side(t, c.table)]);
    m := NewMaterialize(e, c, filterCol, c, false, src, child, s);
    if provided {
      ColumnMoved(e, t, c, src, m, list);
    }
  }

  /** Over the core only base columns are readable. */
  lemma BelowCore(t: Tree, c: Column)
    requires (Core(t) || Chain(t)) && Below(t, c)
    ensures Core(t) ==>
      c.table in Tables(t) && Core(t.subs[Side(t, c.table)]) && Tables(t.subs[Side(t, c.table)]) <= Tables(t)
  {
    if Core(t) {
      CoreSubs(t, Side(t, c.table));
      TableNames(t.subs[Side(t, c.table)]);
    }
  }

  lemma ColumnMoved(e: Engine, t: Tree, c: Column, src: PlanNode, m: PlanNode, list: seq<int>)
    requires e.Sound() && (Core(t) || Chain(t)) && IsPositional(t.op) && Below(t, c)
    requires Provides(e, src, c, t.subs[Side(t, c.table)])
    requires |Lists(e, t)| > Side(t, c.table) && list == Lists(e, t)[Side(t, c.table)]
    requires Output(m, c) == Gather(Output(src, c), list)
    requires Core(t) ==> m.worth.reach == {c.table} + src.worth.reach + Tables(t)
    ensures Provides(e, m, c, t)
  {
    BelowCore(t, c);
    Advance(e, t, c);
  }
}
