/**
 The materialization passes agree: whatever one of them makes an operator read, the others do too.
 */
module Agreement {
  import opened Relational
  import opened PlanTree
  import opened PhysicalPlan
  import opened Rewiring
  import opened StaleColumns
  import opened EagerMaterialization
  import opened LatePlans
  import opened LateMaterialization
  import opened GrandChildren

  /** The same logical plan, held by different nodes. */
  predicate SamePlan(t: Tree, u: Tree) {
    && t.op == u.op && t.inputs == u.inputs && t.outputs == u.outputs && |t.subs| == |u.subs|
    && forall k :: 0 <= k < |t.subs| ==> SamePlan(t.subs[k], u.subs[k])
  }

  lemma {:induction false} SameTables(t: Tree, u: Tree)
    requires SamePlan(t, u)
    ensures Tables(t) == Tables(u)
  {
    if |t.subs| > 0 { SameTables(t.subs[0], u.subs[0]); }
    if |t.subs| > 1 { SameTables(t.subs[1], u.subs[1]); }
  }

  lemma NoInput(e: Engine, t: Tree)
    requires t.subs == []
    ensures Rel(e, t) == Apply(e, t, [], [], seq(|t.inputs|, i => []))
  {
    var cols := seq(|t.inputs|, i requires 0 <= i < |t.inputs| =>
      ColumnOf(e, if Side(t, t.inputs[i].table) == 1 then [] else [], t.inputs[i]));
    assert cols == seq(|t.inputs|, i => []);
  }

  lemma SameStep(e: Engine, t: Tree, u: Tree)
    requires SamePlan(t, u) && t.subs != [] && Rel(e, t.subs[0]) == Rel(e, u.subs[0])
    requires |t.subs| > 1 ==> Rel(e, t.subs[1]) == Rel(e, u.subs[1]) && Tables(t.subs[1]) == Tables(u.subs[1])
    ensures Rel(e, t) == Rel(e, u)
  {
    assert InputColumns(e, t) == InputColumns(e, u);
    RelUnfold(e, t);
    RelUnfold(e, u);
  }

  lemma {:induction false} SameRelation(e: Engine, t: Tree, u: Tree)
    requires SamePlan(t, u)
    ensures Rel(e, t) == Rel(e, u)
  {
    if t.subs == [] {
      NoInput(e, t);
      NoInput(e, u);
    } else {
      SameRelation(e, t.subs[0], u.subs[0]);
      if |t.subs| > 1 {
        SameRelation(e, t.subs[1], u.subs[1]);
        SameTables(t.subs[1], u.subs[1]);
      }
      SameStep(e, t, u);
    }
  }

  /** The two plans feed every operator the same columns. */
  ghost predicate ReadAlike(t: Tree, u: Tree, s: set<PlanNode>, s': set<PlanNode>)
    requires SamePlan(t, u)
    reads s, s'
  {
    && (t.subs != [] ==>
          && t.node in s && u.node in s'
          && |t.node.children| == |u.node.children| == |t.inputs|
          && forall i :: 0 <= i < |t.inputs| ==>
               && t.node.children[i] in s && u.node.children[i] in s'
               && Output(t.node.children[i], t.inputs[i]) == Output(u.node.children[i], u.inputs[i]))
    && forall k :: 0 <= k < |t.subs| ==> ReadAlike(t.subs[k], u.subs[k], s, s')
  }

  /**
   Two passes over the same plan, eager or late, each correct: every operator reads the same values
   in the same order.
   */
  lemma {:induction false} PassesAgree(e: Engine, t: Tree, u: Tree, s: set<PlanNode>, s': set<PlanNode>)
    requires SamePlan(t, u) && Correct(e, t, s) && Correct(e, u, s')
    ensures ReadAlike(t, u, s, s')
  {
    forall k | 0 <= k < |t.subs| ensures ReadAlike(t.subs[k], u.subs[k], s, s') {
      PassesAgree(e, t.subs[k], u.subs[k], s, s');
    }
    if t.subs != [] {
      forall i | 0 <= i < |t.inputs|
        ensures Output(t.node.children[i], t.inputs[i]) == Output(u.node.children[i], u.inputs[i])
      {
        var c := t.inputs[i];
        if |t.subs| > 1 { SameTables(t.subs[1], u.subs[1]); }
        SameRelation(e, t.subs[Side(t, c.table)], u.subs[Side(u, c.table)]);
      }
    }
  }

  /**
   The eager pass on one copy of a plan and a late pass on another: unless a column is lost or a
   computed column is stale, every operator of the two copies reads the same values.
   */
  method OptimizeBothWays(ghost e: Engine, hybrid: bool, ghost t: Tree, eager: PlanNode, ghost u: Tree, late: PlanNode)
    returns (missing: seq<Column>, errors: seq<Error>, ghost s: set<PlanNode>, ghost s': set<PlanNode>)
    requires e.Sound() && SamePlan(t, u) && WellFormed(t) && WellFormed(u) && Nodes(t) !! Nodes(u)
    requires Unshared(t) && eager == t.node && Shape(t)
    requires Unshared(u) && late == u.node && Shape(u)
    modifies Nodes(t), Nodes(u)
    ensures missing == [] <==> MapReads(t)
    ensures errors == [] <==> OneColumnPerScan(u) && Keeps(hybrid, u)
    ensures missing == [] && Fresh(e, t) && errors == [] ==> ReadAlike(t, u, s, s')
  {
    missing, s := FillPlan(e, t, eager);
    assert old(allocated(Nodes(u)));
    assert Nodes(u) !! s;
    errors, s' := OptimizeLate(e, hybrid, u, late);
    if missing == [] && Fresh(e, t) && errors == [] {
      PassesAgree(e, t, u, s, s');
    }
  }

  // -------------------------------------------------------------------------------------------
  // What a Select reads above Sort and Group
  // -------------------------------------------------------------------------------------------

  /** The Select stands on a Sort over an aggregating Group. */
  predicate SortedGroup(t: Tree) {
    ChainPlan(t) && t.subs[0].op.SortOp? && t.subs[0].subs != [] && t.subs[0].subs[0].op.GroupOp?
      && t.subs[0].subs[0].op.hasAgg
  }

  /** Above a Sort over a Group, all that the Select reads has been moved by the one list of the Sort. */
  ghost predicate MovedTogether(e: Engine, t: Tree, s: set<PlanNode>)
    requires SortedGroup(t)
    reads s, t.node, t.subs[0].node, t.subs[0].subs[0].node
  {
    var sort := t.subs[0];
    var group := sort.subs[0];
    && |sort.outputs| > 0 && |group.outputs| == 4 && |t.node.children| == |t.inputs|
    && forall i :: 0 <= i < |t.inputs| ==>
         && t.node.children[i] in s
         && Output(t.node.children[i], t.inputs[i])
            == Gather(if t.inputs[i] == group.outputs[3] then Output(group.node, group.outputs[3])
                      else ColumnOf(e, Rel(e, group), t.inputs[i]),
                      Output(sort.node, sort.outputs[0]))
  }

  lemma SortMovesTogether(e: Engine, t: Tree, s: set<PlanNode>)
    requires e.Sound() && SortedGroup(t) && Settled(e, s) && Correct(e, t, s)
    ensures MovedTogether(e, t, s)
  {
    var sort := t.subs[0];
    var group := sort.subs[0];
    SubsWellFormed(t, 0);
    assert !Core(sort) && Correct(e, sort, s) && Correct(e, group, s);
    ChainSubs(sort, 0);
    assert Chain(group) && !Core(group);
    SuppliedValues(e, group, s);
    SuppliedLists(e, sort, s, "");
    forall i | 0 <= i < |t.inputs|
      ensures ColumnOf(e, Rel(e, sort), t.inputs[i])
              == Gather(ColumnOf(e, Rel(e, group), t.inputs[i]), Output(sort.node, sort.outputs[0]))
    {
      SortMoves(e, t, s, i);
    }
  }

  lemma SortMoves(e: Engine, t: Tree, s: set<PlanNode>, i: nat)
    requires e.Sound() && SortedGroup(t) && Settled(e, s) && Supplied(e, t.subs[0], s) && i < |t.inputs|
    requires Chain(t.subs[0]) && !Core(t.subs[0])
    ensures |t.subs[0].outputs| > 0
    ensures ColumnOf(e, Rel(e, t.subs[0]), t.inputs[i])
            == Gather(ColumnOf(e, Rel(e, t.subs[0].subs[0]), t.inputs[i]), Output(t.subs[0].node, t.subs[0].outputs[0]))
  {
    var sort, c := t.subs[0], t.inputs[i];
    InputsBelow(t, i);
    OwnOrBelow(sort, c);
    SuppliedLists(e, sort, s, c.table);
    Advance(e, sort, c);
  }

  /**
   A late pass on a plan with Maps, Sorts and Groups: the operands of the Select, base columns and
   computed ones, are equally long, and above a Sort over an aggregate they are moved together.
   */
  method AlignSelect(ghost e: Engine, hybrid: bool, ghost t: Tree, root: PlanNode)
    returns (errors: seq<Error>, ghost s: set<PlanNode>)
    requires e.Sound() && ChainPlan(t) && Unshared(t) && root == t.node && Shape(t)
    modifies Nodes(t)
    ensures errors == [] <==> OneColumnPerScan(t) && Keeps(hybrid, t)
    ensures errors == [] ==>
      |root.children| == |t.inputs| && forall i :: 0 <= i < |t.inputs| ==>
        |Output(root.children[i], t.inputs[i])| == |Rel(e, t.subs[0])|
    ensures errors == [] && SortedGroup(t) ==> MovedTogether(e, t, s)
  {
    errors, s := OptimizeLate(e, hybrid, t, root);
    if errors == [] && SortedGroup(t) {
      SortMovesTogether(e, t, s);
    }
  }

  /** The plan on which the eager pass gives the Select the sums in the wrong order is no trouble to the late passes. */
  lemma SumQueryIsLate(select: PlanNode, sort: PlanNode, group: PlanNode, filter: PlanNode, scan: PlanNode,
                       a: Column, b: Column, v: Column)
    requires OneTable(a, b, v)
    ensures var t := SumQuery(select, sort, group, filter, scan, a, b, v);
            SortedGroup(t) && MapReads(t) && OneColumnPerScan(t) && NoBareReads(t) && HybridKeeps(t, {})
  {
    var t := SumQuery(select, sort, group, filter, scan, a, b, v);
    var filtered := Filtered(filter, scan, a);
    SumQueryShape(select, sort, group, filter, scan, a, b, v);
    assert filtered.subs == [ScanOf(scan, a)];
    ScanShape(scan, a);
    var summed := Summed(group, filtered, b, v);
    var sorted := BySum(sort, summed);
    FilterIsLate(filtered, {} + ColumnSet(t.inputs) + ColumnSet(sorted.inputs) + ColumnSet(summed.inputs));
    AboveFilter(summed, {} + ColumnSet(t.inputs) + ColumnSet(sorted.inputs));
    AboveFilter(sorted, {} + ColumnSet(t.inputs));
    AboveFilter(t, {});
  }

  /** SELECT b, a + c FROM T. */
  function MappedScan(select: PlanNode, map_: PlanNode, scan: PlanNode, a: Column, b: Column, c: Column): Tree {
    var sum := Column(MAP, a.name + "+" + c.name);
    Tree(select, SelectOp, [b, sum], [b, sum], [Tree(map_, MapOp(ADD), [a, c], [sum], [ScanOf(scan, a)])])
  }

  /** A column read past a Map that has not read it, with nothing between the Map and the table: no pass finds it. */
  lemma MappedScanFails(select: PlanNode, map_: PlanNode, scan: PlanNode, a: Column, b: Column, c: Column)
    requires a.table == b.table == c.table && a.table !in {"", MAP, AGG} && b != a && b != c
    ensures var t := MappedScan(select, map_, scan, a, b, c);
            ChainPlan(t) && !MapReads(t) && !NoBareReads(t) && !HybridKeeps(t, {})
  {
    var t := MappedScan(select, map_, scan, a, b, c);
    ScanShape(scan, a);
    var mapped := t.subs[0];
    assert mapped.subs == [ScanOf(scan, a)] && Tables(mapped) == {a.table} && !mapped.IsScan();
    assert Chain(mapped) && !Core(mapped) && Bare(mapped) && Computed(mapped) == {mapped.outputs[0]};
    assert b in t.inputs && b.table in Tables(t) && b !in mapped.inputs;
    assert b in ColumnSet(t.inputs);
    assert ChainPlan(t) && OverBare(t) && OverMappedScan(t);
    assert !ScanKept(mapped, {} + ColumnSet(t.inputs)) && t.subs == [mapped];
  }

  predicate FoundByAll(t: Tree, above: set<Column>) {
    MapReads(t) && Lifted(t) && HybridKeeps(t, above)
  }

  lemma FilterIsLate(t: Tree, above: set<Column>)
    requires Core(t) && t.op.FilterOp? && |t.inputs| == 1 && t.subs[0].IsScan() && t.subs[0].subs == []
    ensures FoundByAll(t, above)
  {
    CoreNoBareReads(t);
    CoreHybridKeeps(t, above);
    assert t.inputs == [t.inputs[0]] && !Bare(t) && OneColumnAt(t);
    assert forall k :: 0 <= k < |t.subs| ==> t.subs[k] == t.subs[0] && OneColumnPerScan(t.subs[k]);
  }

  lemma AboveFilter(t: Tree, above: set<Column>)
    requires |t.subs| == 1 && !t.IsScan() && !t.op.MapOp? && !t.subs[0].op.MapOp?
    requires FoundByAll(t.subs[0], above + ColumnSet(t.inputs))
    ensures FoundByAll(t, above)
  {
    AboveLifted(t);
  }
}
