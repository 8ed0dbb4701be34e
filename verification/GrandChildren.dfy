/**
 `grandChildrenOptimization`: where an operator already reads the column a Materialize fetches
 through a composed position list, gather from what the operator reads instead.

 Nodes are shared and rewritten in place, so the theorem is about every node of the plan.
 */
module GrandChildren {
  import opened Relational
  import opened PlanTree
  import opened PhysicalPlan
  import opened Rewiring
  import opened LatePlans
  import opened LateMaterialization

  /** What the rewrite may not change: everything but the inputs and children of value gathers. */
  twostate predicate Preserved(s: set<PlanNode>)
    reads s
  {
    forall n :: n in s ==>
      && n.op == old(n.op) && n.outputs == old(n.outputs)
      && n.outputsPosList == old(n.outputsPosList) && n.outputsMatVals == old(n.outputsMatVals)
      && n.worth.den == old(n.worth.den) && n.worth.rank == old(n.worth.rank)
      && ((n.op.MatOp? && n.outputsMatVals) || (n.inputs == old(n.inputs) && n.children == old(n.children)))
  }

  /** The gather `m` may read column `c` from `source` through operator `f` instead. */
  lemma ShortCut(e: Engine, m: PlanNode, source: PlanNode, s: set<PlanNode>)
    requires Settled(e, s) && Layered(e, s) && m in s
    requires m.op.MatOp? && m.outputsMatVals && |m.children| == 2 && m.children[1].op.MatOp?
             && m.children[1].outputsPosList
    requires |m.children[1].children| == 2 && |m.children[1].inputs| == 2
    requires source in m.children[1].children[1].children && source.outputsMatVals
    requires |m.inputs| > 0 && m.inputs[0] in source.outputs
    ensures m.worth.den ==
      [Gather(Output(source, m.inputs[0]), Output(m.children[1].children[1], m.children[1].inputs[1]))]
  {
    var fetch, lists := m.children[0], m.children[1];
    assert Local(e, m, s) && Layer(e, m, s);
    assert Local(e, fetch, s) && Local(e, lists, s) && Layer(e, lists, s);
    var p, f := lists.children[0], lists.children[1];
    var positions, moved := Output(p, lists.inputs[0]), Output(f, lists.inputs[1]);
    assert m.worth.slots[0] == e.BaseColumn(m.inputs[0]);
    assert lists.worth.den == [Gather(positions, moved)];
    assert m.worth.slots[1] == Gather(positions, moved);
    GatherComposes(e.BaseColumn(m.inputs[0]), positions, moved);
  }

  /** Gather `m` from `source` through the operator below its position list. */
  method Shorten(ghost e: Engine, m: PlanNode, source: PlanNode, ghost s: set<PlanNode>)
    requires Settled(e, s) && Layered(e, s) && m in s
    requires m.op.MatOp? && m.outputsMatVals && |m.children| == 2 && m.children[1].op.MatOp?
             && m.children[1].outputsPosList
    requires m.children[1] in s && |m.children[1].children| == 2 && |m.children[1].inputs| == 2
             && m.children[1].children[1] in s
    requires source in s && source in m.children[1].children[1].children && source.outputsMatVals
    requires |m.inputs| == 2 && m.inputs[0] in source.outputs
    modifies m
    ensures Preserved(s) && Settled(e, s) && Layered(e, s)
    ensures m.children == [source, old(m.children[1].children[1])] && !m.children[1].op.MatOp?
  {
    ShortCut(e, m, source, s);
    Lower(e, m, source, s);
    var filterChild := m.children[1];
    ghost var slots := [Output(source, m.inputs[0]), Output(filterChild.children[1], filterChild.inputs[1])];
    m.children, m.inputs, m.worth :=
      [source, filterChild.children[1]], [m.inputs[0], filterChild.inputs[1]], m.worth.(slots := slots);
    Gathers(e, m, source, filterChild.children[1], s);
    forall n | n in s ensures Local(e, n, s) && Layer(e, n, s) {
      if n != m {
        Stays(Elsewhere(e, n, m, {}, s));
      }
    }
  }

  lemma Gathers(e: Engine, m: PlanNode, source: PlanNode, f: PlanNode, s: set<PlanNode>)
    requires m.op.MatOp? && m.children == [source, f] && |m.inputs| == 2 && |m.outputs| == 1
             && m.outputsMatVals == !m.outputsPosList
    requires source in s && f in s && source.worth.rank < m.worth.rank && f.worth.rank < m.worth.rank
    requires m.outputsMatVals && !f.op.MatOp?
    requires m.worth.slots == [Output(source, m.inputs[0]), Output(f, m.inputs[1])]
    requires m.worth.den == [Gather(Output(source, m.inputs[0]), Output(f, m.inputs[1]))]
    ensures Local(e, m, s) && Layer(e, m, s)
  {
  }

  /** The new children lie below `m`, and the second one is an operator. */
  lemma Lower(e: Engine, m: PlanNode, source: PlanNode, s: set<PlanNode>)
    requires Settled(e, s) && Layered(e, s) && m in s
    requires m.op.MatOp? && m.outputsMatVals && |m.children| == 2 && m.children[1].op.MatOp?
             && m.children[1].outputsPosList
    requires m.children[1] in s && |m.children[1].children| == 2 && m.children[1].children[1] in s
    requires source in s && source in m.children[1].children[1].children
    ensures var f := m.children[1].children[1];
            !f.op.MatOp? && f.worth.rank < m.worth.rank && source.worth.rank < m.worth.rank
    ensures m.outputsMatVals == !m.outputsPosList && |m.outputs| == 1
  {
    assert Local(e, m, s) && Local(e, m.children[1], s) && Local(e, m.children[1].children[1], s);
    assert Layer(e, m.children[1], s) && Layer(e, m, s);
  }

  /** A node of the plan, seen while node `m` is rewritten. */
  datatype Elsewhere = Elsewhere(e: Engine, n: PlanNode, m: PlanNode, visited: set<PlanNode>, s: set<PlanNode>)

  /** The other nodes see the same values through `m` as before. */
  twostate lemma Stays(at: Elsewhere)
    requires old(Settled(at.e, at.s)) && old(Layered(at.e, at.s)) && at.n in at.s && at.n != at.m
    requires forall x :: x in at.s && x != at.m ==> unchanged(x)
    requires at.m in at.s && at.m.op.MatOp? && at.m.outputsMatVals
    requires at.m.op == old(at.m.op) && at.m.outputs == old(at.m.outputs)
    requires at.m.worth.den == old(at.m.worth.den) && at.m.worth.rank == old(at.m.worth.rank)
    requires at.m.outputsPosList == old(at.m.outputsPosList) && at.m.outputsMatVals == old(at.m.outputsMatVals)
    ensures Local(at.e, at.n, at.s) && Layer(at.e, at.n, at.s)
  {
    assert old(Local(at.e, at.n, at.s)) && old(Layer(at.e, at.n, at.s));
    forall x, c | x in at.s ensures Output(x, c) == old(Output(x, c)) {
    }
  }

  /** A Group carries the column only as its aggregate, any other node as one of its outputs. */
  predicate Carries(op: Op, outputs: seq<Column>, c: Column) {
    if op.GroupOp? then op.hasAgg && |outputs| > 0 && outputs[|outputs| - 1] == c else c in outputs
  }

  /** An operator below `n`'s composed position list already reads the column `n` gathers. */
  ghost predicate Opportunity(n: PlanNode, s: set<PlanNode>)
    reads s, n
  {
    && n.op.MatOp? && n.outputsMatVals && |n.children| == 2 && |n.inputs| == 2
    && n.children[1] in s && n.children[1].op.MatOp? && n.children[1].outputsPosList && |n.children[1].children| == 2
    && n.children[1].children[1] in s
    && exists k :: 0 <= k < |n.children[1].children[1].children|
         && var c := n.children[1].children[1].children[k];
            c in s && c.outputsMatVals && Carries(c.op, c.outputs, n.inputs[0])
  }

  /** The pass is through with `n`: nothing left to shorten, and its children have been visited. */
  ghost predicate Through(n: PlanNode, visited: set<PlanNode>, s: set<PlanNode>)
    reads s, n
  {
    !Opportunity(n, s) && forall i :: 0 <= i < |n.children| ==> n.children[i] in visited
  }

  ghost predicate AllThrough(done: set<PlanNode>, visited: set<PlanNode>, s: set<PlanNode>)
    reads s
  {
    forall n :: n in done && n in s ==> Through(n, visited, s)
  }

  /** Shortening one node does not open opportunities elsewhere. */
  twostate lemma StaysThrough(at: Elsewhere)
    requires old(Layered(at.e, at.s)) && old(Through(at.n, at.visited, at.s)) && Preserved(at.s) && at.n in at.s
             && at.n != at.m
    requires forall x :: x in at.s && x != at.m ==> unchanged(x)
    requires at.m in at.s && at.m.op.MatOp? && at.m.outputsMatVals
    ensures Through(at.n, at.visited, at.s)
  {
    assert old(Layer(at.e, at.n, at.s));
    if |at.n.children| == 2 && at.n.children[1] in at.s {
      assert old(Layer(at.e, at.n.children[1], at.s));
    }
  }

  method GrandChildrenSub(ghost e: Engine, node: PlanNode, visited0: set<PlanNode>, ghost open: set<PlanNode>,
                          ghost s: set<PlanNode>)
    returns (visited: set<PlanNode>)
    requires Settled(e, s) && Layered(e, s) && node in s && visited0 <= s
    requires forall n :: n in open ==> n in s && n.worth.rank > node.worth.rank
    requires AllThrough(visited0 - open, visited0, s)
    modifies s
    ensures Preserved(s) && Settled(e, s) && Layered(e, s)
    ensures forall n :: n in s && old(n.worth.rank > node.worth.rank) ==> unchanged(n)
    ensures visited0 + {node} <= visited <= s
    ensures AllThrough(visited - open, visited, s)
    decreases node.worth.rank, 1
  {
    visited := visited0;
    if node in visited {
      return;
    }
    visited := visited + {node};
    assert Local(e, node, s);
    ghost var open' := open + {node};
    assert visited - open' <= visited0 - open;
    visited := VisitChildren(e, node, visited, open', s);
    assert visited - open - {node} == visited - open';
    ShortenIfPossible(e, node, visited, open, s);
  }

  /** The children in turn; the node itself is still open. */
  method VisitChildren(ghost e: Engine, node: PlanNode, visited0: set<PlanNode>, ghost open: set<PlanNode>,
                       ghost s: set<PlanNode>)
    returns (visited: set<PlanNode>)
    requires Settled(e, s) && Layered(e, s) && node in visited0 && visited0 <= s && Local(e, node, s)
    requires forall n :: n in open ==> n in s && n.worth.rank >= node.worth.rank
    requires AllThrough(visited0 - open, visited0, s)
    modifies s
    ensures Preserved(s) && Settled(e, s) && Layered(e, s)
    ensures forall n :: n in s && old(n.worth.rank) >= old(node.worth.rank) ==> unchanged(n)
    ensures visited0 <= visited <= s && (forall i :: 0 <= i < |node.children| ==> node.children[i] in visited)
    ensures AllThrough(visited - open, visited, s)
    decreases node.worth.rank, 0, 1
  {
    assert forall i :: 0 <= i < |node.children| ==> node.children[i].worth.rank < node.worth.rank;
    visited := VisitAll(e, node.children, node.worth.rank, visited0, open, s);
  }

  /** Nodes of a height below `bound`; those at or above it stay as they are. */
  method VisitAll(ghost e: Engine, kids: seq<PlanNode>, ghost bound: nat, visited0: set<PlanNode>,
                  ghost open: set<PlanNode>, ghost s: set<PlanNode>)
    returns (visited: set<PlanNode>)
    requires Settled(e, s) && Layered(e, s) && visited0 <= s
    requires forall i :: 0 <= i < |kids| ==> kids[i] in s && kids[i].worth.rank < bound
    requires forall n :: n in open ==> n in s && n.worth.rank >= bound
    requires AllThrough(visited0 - open, visited0, s)
    modifies s
    ensures Preserved(s) && Settled(e, s) && Layered(e, s)
    ensures forall n :: n in s && old(n.worth.rank) >= bound ==> unchanged(n)
    ensures visited0 <= visited <= s && AllVisited(kids, visited)
    ensures AllThrough(visited - open, visited, s)
    decreases bound, 0, 0
  {
    visited := visited0;
    for k := 0 to |kids|
      invariant Preserved(s) && Settled(e, s) && Layered(e, s)
      invariant forall n :: n in s && old(n.worth.rank) >= bound ==> unchanged(n)
      invariant visited0 <= visited <= s
      invariant AllVisited(kids[..k], visited)
      invariant AllThrough(visited - open, visited, s)
    {
      assert kids[k] in s && kids[k].worth.rank == old(kids[k].worth.rank);
      assert forall n :: n in open ==> n.worth.rank == old(n.worth.rank);
      ghost var before := visited;
      visited := GrandChildrenSub(e, kids[k], visited, open, s);
      OneMoreVisited(kids, k, before, visited);
    }
    assert kids[..|kids|] == kids;
  }

  predicate AllVisited(kids: seq<PlanNode>, visited: set<PlanNode>) {
    forall i :: 0 <= i < |kids| ==> kids[i] in visited
  }

  lemma OneMoreVisited(kids: seq<PlanNode>, k: nat, visited: set<PlanNode>, visited': set<PlanNode>)
    requires k < |kids| && AllVisited(kids[..k], visited) && visited <= visited' && kids[k] in visited'
    ensures AllVisited(kids[..k + 1], visited')
  {
  }

  method ShortenIfPossible(ghost e: Engine, node: PlanNode, ghost visited: set<PlanNode>, ghost open: set<PlanNode>,
                           ghost s: set<PlanNode>)
    requires Settled(e, s) && Layered(e, s) && node in visited && visited <= s
    requires forall n :: n in open ==> n in s && n.worth.rank > node.worth.rank
    requires forall i :: 0 <= i < |node.children| ==> node.children[i] in visited
    requires AllThrough(visited - open - {node}, visited, s)
    modifies node
    ensures Preserved(s) && Settled(e, s) && Layered(e, s)
    ensures AllThrough(visited - open, visited, s)
  {
    assert Local(e, node, s) && Layer(e, node, s);
    if !node.op.MatOp? || !node.outputsMatVals {
      return;
    }
    var filterChild := node.children[1];
    if filterChild.op.MatOp? && filterChild.outputsPosList {
      assert Local(e, filterChild, s) && Layer(e, filterChild, s);
      assert Local(e, filterChild.children[1], s);
      var candidates := filterChild.children[1].children;
      var k := FindCarrier(candidates, node.inputs[0]);
      if k < |candidates| {
        ShortenTo(e, node, candidates[k], visited, open, s);
      }
    }
  }

  /** The first candidate that carries values of column `c`. */
  method FindCarrier(candidates: seq<PlanNode>, c: Column) returns (k: nat)
    ensures k <= |candidates|
    ensures k < |candidates| ==> candidates[k].outputsMatVals && Carries(candidates[k].op, candidates[k].outputs, c)
    ensures forall i :: 0 <= i < k ==>
              !(candidates[i].outputsMatVals && Carries(candidates[i].op, candidates[i].outputs, c))
  {
    k := 0;
    while k < |candidates| && !(candidates[k].outputsMatVals && Carries(candidates[k].op, candidates[k].outputs, c))
      invariant k <= |candidates|
      invariant forall i :: 0 <= i < k ==>
                  !(candidates[i].outputsMatVals && Carries(candidates[i].op, candidates[i].outputs, c))
    {
      k := k + 1;
    }
  }

  method ShortenTo(ghost e: Engine, node: PlanNode, source: PlanNode, ghost visited: set<PlanNode>,
                   ghost open: set<PlanNode>, ghost s: set<PlanNode>)
    requires Settled(e, s) && Layered(e, s) && node in visited && visited <= s && node !in open
    requires node.op.MatOp? && node.outputsMatVals && |node.children| == 2 && |node.inputs| == 2
    requires node.children[1] in visited && node.children[1] !in open && node.children[1] != node
    requires node.children[1].op.MatOp? && node.children[1].outputsPosList
    requires |node.children[1].children| == 2 && |node.children[1].inputs| == 2 && node.children[1].children[1] in s
    requires node.children[1].children[1] !in open && node.children[1].children[1] != node
    requires source in node.children[1].children[1].children && source in s && source.outputsMatVals
    requires node.inputs[0] in source.outputs
    requires AllThrough(visited - open - {node}, visited, s)
    modifies node
    ensures Preserved(s) && Settled(e, s) && Layered(e, s)
    ensures AllThrough(visited - open, visited, s)
  {
    assert Through(node.children[1], visited, s);
    assert Through(node.children[1].children[1], visited, s);
    label before:
    Shorten(e, node, source, s);
    forall n | n in visited - open ensures Through(n, visited, s) {
      if n != node {
        StaysThrough@before(Elsewhere(e, n, node, visited, s));
      }
    }
  }

  /** A logical plan whose nodes `s` have been rewritten. */
  datatype Rewritten = Rewritten(e: Engine, t: Tree, s: set<PlanNode>)

  /** The rewrite leaves every operator reading the right columns. */
  twostate lemma {:induction false} CorrectSurvives(plan: Rewritten)
    requires WellFormed(plan.t) && Preserved(plan.s) && old(Correct(plan.e, plan.t, plan.s))
    ensures Correct(plan.e, plan.t, plan.s)
    decreases plan.t
  {
    RootShape(plan.t);
    forall k | 0 <= k < |plan.t.subs| ensures Correct(plan.e, plan.t.subs[k], plan.s) {
      SubsWellFormed(plan.t, k);
      CorrectSurvives(plan.(t := plan.t.subs[k]));
    }
  }

  /**
   A late pass followed by the rewrite, on a whole plan: if every scan is read through one column
   and the pass loses no column that is needed, every operator reads, for each of its input columns, exactly
   that column of its input relation.
   */
  method OptimizeLate(ghost e: Engine, hybrid: bool, ghost t: Tree, root: PlanNode)
    returns (errors: seq<Error>, ghost s: set<PlanNode>)
    requires e.Sound() && WellFormed(t) && Unshared(t) && root == t.node && Shape(t)
    modifies Nodes(t)
    ensures errors == [] <==> OneColumnPerScan(t) && Keeps(hybrid, t)
    ensures errors == [] ==> Settled(e, s) && Correct(e, t, s) && root in s
  {
    var tablesBelow, d;
    RootShape(t);
    PassesWhen(hybrid, t);
    tablesBelow, d, errors, s := PutLateMaterialization(e, hybrid, t, root, {}, [], {});
    if errors == [] {
      label passed:
      var visited := GrandChildrenSub(e, root, {}, {}, s);
      CorrectSurvives@passed(Rewritten(e, t, s));
    }
  }
}
