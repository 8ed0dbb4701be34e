/**
 `fillMaterializes`: every column an ancestor will read is materialized again after each
 operator that filters or reorders rows.
 */
module EagerMaterialization {
  import opened Relational
  import opened PlanTree
  import opened PhysicalPlan
  import opened Rewiring
  import opened StaleColumns

  // -------------------------------------------------------------------------------------------
  // The plans the pass gets right
  // -------------------------------------------------------------------------------------------

  predicate OverMappedScan(t: Tree) {
    t.subs != [] && t.subs[0].op.MapOp? && t.subs[0].subs != [] && t.subs[0].subs[0].IsScan()
  }

  /** Directly above a Map over a base table, only the columns the Map has read can be found. */
  predicate MapReadsAt(t: Tree) {
    OverMappedScan(t) ==> forall c :: c in t.inputs && c.table in Tables(t) ==> c in t.subs[0].inputs
  }

  predicate MapReads(t: Tree) {
    MapReadsAt(t) && forall k :: 0 <= k < |t.subs| ==> MapReads(t.subs[k])
  }

  /** Every column is found and no computed column is stale where it is read. */
  ghost predicate Fine(e: Engine, t: Tree) {
    MapReads(t) && Fresh(e, t)
  }

  ghost predicate FineBelow(e: Engine, t: Tree, k: nat) {
    forall j :: 0 <= j < k && j < |t.subs| ==> Fine(e, t.subs[j])
  }

  lemma FineSplits(e: Engine, t: Tree)
    ensures Fine(e, t) <==> MapReadsAt(t) && FreshAt(e, t) && FineBelow(e, t, |t.subs|)
  {
    assert (forall k :: 0 <= k < |t.subs| ==> Fine(e, t.subs[k])) <==>
      (forall k :: 0 <= k < |t.subs| ==> MapReads(t.subs[k]))
        && (forall k :: 0 <= k < |t.subs| ==> Fresh(e, t.subs[k]));
  }

  /** A Filter/Join core computes nothing. */
  lemma {:induction false} CoreIsFine(e: Engine, t: Tree)
    requires Core(t)
    ensures Fine(e, t)
  {
    forall k | 0 <= k < |t.subs| ensures Fine(e, t.subs[k]) {
      CoreSubs(t, k);
      CoreIsFine(e, t.subs[k]);
    }
    CoreReads(t);
    FineSplits(e, t);
  }

  lemma CoreReads(t: Tree)
    requires Core(t)
    ensures t.subs != [] ==> forall c :: c in t.inputs ==> c.table in Tables(t)
    ensures !OverMappedScan(t)
  {
  }

  lemma CoreFindsAll(e: Engine, t: Tree)
    requires Core(t) || CorePlan(t)
    ensures MapReads(t)
  {
    if Core(t) {
      CoreIsFine(e, t);
    } else {
      CoreIsFine(e, t.subs[0]);
    }
  }

  // -------------------------------------------------------------------------------------------
  // What the map of materializations holds
  // -------------------------------------------------------------------------------------------

  /** `m` holds a base column as the relation has it, a computed one as it was computed. */
  ghost predicate Holds(e: Engine, m: PlanNode, c: Column, sub: Tree)
    reads m
  {
    if c.table in Tables(sub) then Provides(e, m, c, sub)
    else Output(m, c) == ColumnOf(e, Rel(e, Origin(sub, c)), c)
  }

  /** Nothing has moved the column's table and no reader has given the column a node of its own. */
  predicate Raw(t: Tree, c: Column) {
    && t.subs != []
    && var sub := t.subs[Side(t, c.table)];
       && c.table in Tables(sub)
       && ((sub.IsScan() && c !in t.inputs)
           || (sub.op.MapOp? && sub.subs != [] && sub.subs[0].IsScan() && c !in sub.inputs))
  }

  ghost predicate Keys(t: Tree, tables: set<string>, pMat: map<Column, PlanNode>, s: set<PlanNode>) {
    forall c {:trigger c in pMat} :: c in pMat ==> pMat[c] in s && (Core(t) ==> c.table in tables)
  }

  /** Every needed column offered by the first k children has an entry, unless nothing asks for one yet. */
  ghost predicate Entered(t: Tree, k: nat, needed: set<Column>, pMat: map<Column, PlanNode>) {
    forall c {:trigger Below(t, c)} :: c in needed && Below(t, c) && Side(t, c.table) < k ==> c in pMat || Raw(t, c)
  }

  /** Columns of a base table below a Map have been named by the Map. */
  ghost predicate Named(t: Tree, k: nat, pMat: map<Column, PlanNode>) {
    k > 0 && |t.subs| == 1 ==>
      && (t.op.MapOp? && t.subs[0].IsScan() ==> forall c {:trigger c in pMat} :: c in pMat ==> c in t.inputs)
      && (OverMappedScan(t) ==> forall c {:trigger c in pMat} :: c in pMat && c.table in Tables(t) ==>
          c in t.subs[0].inputs)
  }

  ghost predicate Aligned(e: Engine, t: Tree, k: nat, needed: set<Column>, pMat: map<Column, PlanNode>)
    reads pMat.Values
  {
    forall c {:trigger Below(t, c)} :: c in needed && Below(t, c) && Side(t, c.table) < k && c in pMat ==>
      Holds(e, pMat[c], c, t.subs[Side(t, c.table)])
  }

  /** `fine` says that the subtrees met so far are `Fine`. */
  ghost predicate Ready(e: Engine, fine: bool, t: Tree, k: nat, needed: set<Column>, pMat: map<Column, PlanNode>,
                        s: set<PlanNode>)
    reads pMat.Values
  {
    && Keys(t, First(t, k), pMat, s) && Entered(t, k, needed, pMat) && Named(t, k, pMat)
    && (fine ==> Aligned(e, t, k, needed, pMat))
  }

  ghost predicate ScanReady(e: Engine, t: Tree, inputOfParent: set<Column>, pMat: map<Column, PlanNode>,
                            s: set<PlanNode>)
    requires t.IsScan() && Core(t)
    reads s
  {
    && t.node in s && |t.node.outputs| == 1 && t.node.outputs[0].table == t.inputs[0].table
    && Provides(e, t.node, t.node.outputs[0], t)
    && Keys(t, Tables(t), pMat, s)
    && (forall c {:trigger c in pMat} :: c in pMat ==> Provides(e, pMat[c], c, t) && c in inputOfParent)
    && (forall c :: c in inputOfParent && c.table == t.inputs[0].table ==>
          c in pMat && t.node.outputs[0] in inputOfParent)
  }

  /** What the recursive call reports about subtree `t`. */
  ghost predicate Returned(e: Engine, t: Tree, needed: set<Column>, inputOfParent: set<Column>,
                           pMat: map<Column, PlanNode>, s: set<PlanNode>)
    requires WellFormed(t)
    reads s, pMat.Values
  {
    if t.IsScan() then ScanReady(e, t, inputOfParent, pMat, s)
    else Ready(e, Fine(e, t), t, |t.subs|, needed, pMat, s)
  }

  /** The first k subtrees are finished, and each is right exactly if it is fine. */
  ghost predicate Passed(e: Engine, t: Tree, k: nat, s: set<PlanNode>)
    reads s
  {
    && Settled(e, s) && Reaching(s) && k <= |t.subs| && NodesOf(t.subs[..k]) <= s
    && (forall j :: 0 <= j < k ==> (Correct(e, t.subs[j], s) <==> Fine(e, t.subs[j])))
  }

  lemma PassedGrows(e: Engine, t: Tree, k: nat, s0: set<PlanNode>, s1: set<PlanNode>, s: set<PlanNode>)
    requires k < |t.subs| && Passed(e, t, k, s0) && s0 <= s1 <= s && Settled(e, s) && Reaching(s) && Settled(e, s1)
    requires (Correct(e, t.subs[k], s1) <==> Fine(e, t.subs[k])) && Nodes(t.subs[k]) <= s1
    ensures Passed(e, t, k + 1, s)
  {
    NodesOfSnoc(t.subs, k);
    forall j | 0 <= j < k + 1 ensures Correct(e, t.subs[j], s) <==> Fine(e, t.subs[j]) {
      if j < k {
        MemberNodes(t.subs[..k], j);
        CorrectSame(e, t.subs[j], s0, s);
      } else {
        CorrectSame(e, t.subs[j], s1, s);
      }
    }
  }

  // -------------------------------------------------------------------------------------------
  // The inner loop over the columns needed at the node or above
  // -------------------------------------------------------------------------------------------

  /** `pMat` while child k's needed columns are being moved: those in `todo` are still to do. */
  ghost predicate Moving(e: Engine, fine: bool, t: Tree, k: nat, needed: set<Column>, todo: set<Column>,
                         pMat: map<Column, PlanNode>, s: set<PlanNode>)
    requires k < |t.subs|
    reads pMat.Values
  {
    && Keys(t, First(t, k + 1), pMat, s) && Entered(t, k, needed, pMat)
    && (forall c {:trigger Below(t.subs[k], c)} :: c in needed && Below(t.subs[k], c) ==>
          c in pMat || (c in todo && Raw(t.subs[k], c)))
    && (fine ==> Aligned(e, t, k, needed, pMat))
    && (fine ==> forall c {:trigger Below(t.subs[k], c)} :: c in needed && Below(t.subs[k], c) && c in pMat ==>
          Halfway(e, t.subs[k], todo, c, pMat[c]))
  }

  ghost predicate Halfway(e: Engine, t: Tree, todo: set<Column>, c: Column, m: PlanNode)
    requires t.subs != []
    reads m
  {
    if c in todo || c.table !in Tables(t) then Holds(e, m, c, t.subs[Side(t, c.table)]) else Provides(e, m, c, t)
  }

  /** The latest materialization of a column, or a Fetch when nothing has moved its table yet. */
  method Source(ghost e: Engine, ghost t: Tree, c: Column, pMat: map<Column, PlanNode>, ghost s0: set<PlanNode>)
    returns (src: PlanNode, ghost s: set<PlanNode>)
    requires e.Sound() && (Core(t) || Chain(t)) && Below(t, c) && (c in pMat || Raw(t, c))
    requires Settled(e, s0) && Reaching(s0) && (c in pMat ==> pMat[c] in s0)
    ensures Settled(e, s) && Reaching(s) && s0 <= s && (forall n :: n in s ==> n in s0 || fresh(n))
    ensures src in s
    ensures if c in pMat then src == pMat[c] else Provides(e, src, c, t.subs[Side(t, c.table)])
  {
    s := s0;
    if c in pMat {
      src := pMat[c];
    } else {
      src := NewFetch(e, c, false, s);
      s := s + {src};
      RawColumn(e, t, c);
    }
  }

  /** What nothing has moved is a base column. */
  lemma RawColumn(e: Engine, t: Tree, c: Column)
    requires e.Sound() && (Core(t) || Chain(t)) && Raw(t, c)
    ensures ColumnOf(e, Rel(e, t.subs[Side(t, c.table)]), c) == e.BaseColumn(c)
    ensures Core(t.subs[Side(t, c.table)]) ==> Tables(t.subs[Side(t, c.table)]) == {c.table}
  {
    var sub := t.subs[Side(t, c.table)];
    SubsWellFormed(t, Side(t, c.table));
    if sub.IsScan() {
      ScanColumn(e, sub, c);
    } else {
      MapKeepsRows(e, sub, c.table);
      ScanColumn(e, sub.subs[0], c);
    }
  }

  method MoveNeeded(ghost e: Engine, ghost fine: bool, ghost t: Tree, ghost k: nat, needed: set<Column>,
                    child: PlanNode, tablesBelowChild: set<string>, pMat0: map<Column, PlanNode>,
                    ghost s0: set<PlanNode>)
    returns (pMat: map<Column, PlanNode>, ghost s: set<PlanNode>)
    requires e.Sound() && WellFormed(t) && k < |t.subs| && child == t.subs[k].node
    requires IsPositional(t.subs[k].op) && tablesBelowChild == Tables(t.subs[k])
    requires Settled(e, s0) && Reaching(s0) && Standing(t.subs[k], s0) && Reached(t.subs[k], s0)
    requires fine ==> Supplied(e, t.subs[k], s0)
    requires Moving(e, fine, t, k, needed, needed, pMat0, s0)
    ensures Settled(e, s) && Reaching(s) && s0 <= s && (forall n :: n in s ==> n in s0 || fresh(n))
    ensures Moving(e, fine, t, k, needed, {}, pMat, s)
  {
    pMat, s := pMat0, s0;
    var todo := needed;
    while todo != {}
      invariant todo <= needed
      invariant Settled(e, s) && Reaching(s) && s0 <= s && (forall n :: n in s ==> n in s0 || fresh(n))
      invariant Moving(e, fine, t, k, needed, todo, pMat, s)
      decreases todo
    {
      var idxCol :| idxCol in todo;
      if idxCol.table in tablesBelowChild {
        pMat, s := MoveOne(e, fine, t, k, needed, todo, idxCol, child, pMat, s);
      } else {
        NotMoved(e, fine, t, k, needed, todo, idxCol, pMat, s);
      }
      todo := todo - {idxCol};
    }
  }

  method MoveOne(ghost e: Engine, ghost fine: bool, ghost t: Tree, ghost k: nat, ghost needed: set<Column>,
                 ghost todo: set<Column>, idxCol: Column, child: PlanNode, pMat0: map<Column, PlanNode>,
                 ghost s0: set<PlanNode>)
    returns (pMat: map<Column, PlanNode>, ghost s: set<PlanNode>)
    requires e.Sound() && WellFormed(t) && k < |t.subs| && child == t.subs[k].node && IsPositional(t.subs[k].op)
    requires Settled(e, s0) && Reaching(s0) && Standing(t.subs[k], s0) && Reached(t.subs[k], s0)
    requires fine ==> Supplied(e, t.subs[k], s0)
    requires Moving(e, fine, t, k, needed, todo, pMat0, s0)
    requires idxCol in todo && todo <= needed && idxCol.table in Tables(t.subs[k])
    ensures Settled(e, s) && Reaching(s) && s0 <= s && (forall n :: n in s ==> n in s0 || fresh(n))
    ensures Moving(e, fine, t, k, needed, todo - {idxCol}, pMat, s)
  {
    ghost var sub := t.subs[k];
    SubsWellFormed(t, k);
    TableBelow(sub, idxCol);
    var src, s1 := Source(e, sub, idxCol, pMat0, s0);
    var m := MoveColumn(e, sub, idxCol, src, child, s1);
    s := s1 + {m};
    pMat := pMat0[idxCol := m];
    assert Moving(e, fine, t, k, needed, todo, pMat0, s0);
    assert fine ==> Provides(e, m, idxCol, sub);
    Moved(e, fine, t, k, needed, todo, idxCol, pMat0, s0, m, s);
  }

  /** A base column of an operator is readable at its input. */
  lemma TableBelow(t: Tree, c: Column)
    requires (Core(t) || Chain(t)) && t.subs != [] && c.table in Tables(t)
    ensures Below(t, c) && c.table in Tables(t.subs[Side(t, c.table)])
  {
    SubsWellFormed(t, Side(t, c.table));
  }

  /** Columns of no table below the child stay as they are. */
  lemma NotMoved(e: Engine, fine: bool, t: Tree, k: nat, needed: set<Column>, todo: set<Column>, c: Column,
                 pMat: map<Column, PlanNode>, s: set<PlanNode>)
    requires k < |t.subs| && Moving(e, fine, t, k, needed, todo, pMat, s) && c.table !in Tables(t.subs[k])
    requires WellFormed(t)
    ensures Moving(e, fine, t, k, needed, todo - {c}, pMat, s)
  {
    SubsWellFormed(t, k);
    RawIsBase(t.subs[k], c);
  }

  lemma RawIsBase(t: Tree, c: Column)
    requires WellFormed(t)
    ensures Raw(t, c) ==> c.table in Tables(t)
  {
    if Raw(t, c) {
      SubsWellFormed(t, Side(t, c.table));
      TableOfChild(t, Side(t, c.table), c.table);
    }
  }

  lemma Moved(e: Engine, fine: bool, t: Tree, k: nat, needed: set<Column>, todo: set<Column>, c: Column,
              pMat: map<Column, PlanNode>, s: set<PlanNode>, m: PlanNode, s': set<PlanNode>)
    requires WellFormed(t) && k < |t.subs| && Moving(e, fine, t, k, needed, todo, pMat, s)
    requires c in todo && c in needed && c.table in Tables(t.subs[k])
    requires s <= s' && m in s' && (fine ==> Provides(e, m, c, t.subs[k]))
    ensures Moving(e, fine, t, k, needed, todo - {c}, pMat[c := m], s')
  {
    SubsWellFormed(t, k);
    TableOfChild(t, k, c.table);
    assert Side(t, c.table) == k;
  }

  // -------------------------------------------------------------------------------------------
  // Taking over what a child reports
  // -------------------------------------------------------------------------------------------

  /** `pMat.merge`: entries already present win; the children's keys do not overlap. */
  function MergeInto(pMat: map<Column, PlanNode>, more: map<Column, PlanNode>): map<Column, PlanNode> {
    more + pMat
  }

  /** After the merge, each child's tables are looked up in what that child reported. */
  lemma Merged(t: Tree, k: nat, pMat: map<Column, PlanNode>, more: map<Column, PlanNode>, s: set<PlanNode>)
    requires WellFormed(t) && k < |t.subs|
    requires Keys(t, First(t, k), pMat, s) && Keys(t.subs[k], Tables(t.subs[k]), more, s)
    requires k == 0 ==> pMat == map[]
    ensures Keys(t, First(t, k + 1), MergeInto(pMat, more), s)
    ensures k == 0 ==> MergeInto(pMat, more) == more
    ensures k > 0 ==> forall c: Column :: c.table in Tables(t.subs[k]) ==>
      (c in MergeInto(pMat, more) <==> c in more) && (c in more ==> MergeInto(pMat, more)[c] == more[c])
    ensures forall c :: c in pMat ==> c in MergeInto(pMat, more) && MergeInto(pMat, more)[c] == pMat[c]
    ensures k > 0 ==> forall c: Column :: c.table in Tables(t.subs[0]) ==> (c in MergeInto(pMat, more) <==> c in pMat)
  {
  }

  /** The entries of the children before child k outlast the merge. */
  lemma Earlier(e: Engine, fine: bool, t: Tree, k: nat, needed: set<Column>, pMat: map<Column, PlanNode>,
                pMat': map<Column, PlanNode>, s: set<PlanNode>)
    requires WellFormed(t) && k < |t.subs| && Ready(e, fine, t, k, needed, pMat, s)
    requires forall c :: c in pMat ==> c in pMat' && (c.table in First(t, k) ==> pMat'[c] == pMat[c])
    requires k > 0 ==> forall c: Column :: c.table in Tables(t.subs[0]) ==> (c in pMat' <==> c in pMat)
    ensures Entered(t, k, needed, pMat') && (fine ==> Aligned(e, t, k, needed, pMat'))
  {
    forall c | c in needed && Below(t, c) && Side(t, c.table) < k
      ensures c in pMat' || Raw(t, c)
      ensures fine && c in pMat' ==> Holds(e, pMat'[c], c, t.subs[Side(t, c.table)])
    {
      SubsWellFormed(t, k);
      TableNames(t.subs[0]);
      assert c in pMat || Raw(t, c);
      assert c.table in Tables(t.subs[0]);
    }
  }

  lemma TakePositional(e: Engine, fine: bool, t: Tree, k: nat, needed: set<Column>, neededBelow: set<Column>,
                       inputOfParent: set<Column>, pMat: map<Column, PlanNode>, more: map<Column, PlanNode>,
                       s0: set<PlanNode>, s: set<PlanNode>)
    requires WellFormed(t) && k < |t.subs| && IsPositional(t.subs[k].op) && WellFormed(t.subs[k])
    requires Ready(e, fine, t, k, needed, pMat, s0) && s0 <= s && (k == 0 ==> pMat == map[])
    requires Returned(e, t.subs[k], neededBelow, inputOfParent, more, s) && needed <= neededBelow
    ensures Moving(e, fine && Fine(e, t.subs[k]), t, k, needed, needed, MergeInto(pMat, more), s)
  {
    var sub, pMat' := t.subs[k], MergeInto(pMat, more);
    Merged(t, k, pMat, more, s);
    Earlier(e, fine, t, k, needed, pMat, pMat', s0);
    forall c | c in needed && Below(sub, c)
      ensures c in pMat' || Raw(sub, c)
      ensures c in pMat' && Fine(e, sub) ==> Holds(e, pMat'[c], c, sub.subs[Side(sub, c.table)])
    {
      SubsWellFormed(t, k);
      assert c in more || Raw(sub, c);
      if k > 0 {
        BelowCore(sub, c);
      }
    }
  }

  /** The child's own computed values join the moved columns. */
  lemma LeavePositional(e: Engine, fine: bool, t: Tree, k: nat, needed: set<Column>, pMat: map<Column, PlanNode>,
                        s: set<PlanNode>)
    requires e.Sound() && WellFormed(t) && k < |t.subs| && WellFormed(t.subs[k]) && IsPositional(t.subs[k].op)
    requires Settled(e, s) && t.subs[k].node in s && (fine ==> Supplied(e, t.subs[k], s))
    requires Moving(e, fine, t, k, needed, {}, pMat, s)
    ensures |t.subs[k].outputs| > 0
    ensures var sub := t.subs[k];
            var pMat' := if sub.op.GroupOp? then pMat[ValueColumn(sub.op, sub.outputs) := sub.node] else pMat;
            Ready(e, fine, t, k + 1, needed, pMat', s)
  {
    var sub := t.subs[k];
    SubsWellFormed(t, k);
    OutputAt(sub, "");
    ChildLeft(e, fine, t, k, needed, pMat, s);
    if sub.op.GroupOp? {
      var c := ValueColumn(sub.op, sub.outputs);
      TableNames(sub);
      if sub.op.hasAgg && fine {
        SuppliedValues(e, sub, s);
        OriginBelow(sub, c);
      }
      WithGroup(e, fine, t, k, needed, pMat, s, c);
    }
  }

  /** All that is readable above the child, but for its own aggregate, has been moved or stays. */
  lemma ChildLeft(e: Engine, fine: bool, t: Tree, k: nat, needed: set<Column>, pMat: map<Column, PlanNode>,
                  s: set<PlanNode>)
    requires WellFormed(t) && k < |t.subs| && (Core(t.subs[k]) || Chain(t.subs[k])) && IsPositional(t.subs[k].op)
    requires Moving(e, fine, t, k, needed, {}, pMat, s)
    ensures Keys(t, First(t, k + 1), pMat, s) && Named(t, k + 1, pMat)
    ensures forall c {:trigger Below(t, c)} :: c in needed && Below(t, c) && Side(t, c.table) < k + 1 ==>
      || c in pMat || Raw(t, c)
      || (Side(t, c.table) == k && Computes(t.subs[k], c) && t.subs[k].op.GroupOp? && t.subs[k].op.hasAgg)
    ensures fine ==> forall c {:trigger Below(t, c)} ::
      c in needed && Below(t, c) && Side(t, c.table) < k + 1 && c in pMat ==>
      || Holds(e, pMat[c], c, t.subs[Side(t, c.table)])
      || (Side(t, c.table) == k && Computes(t.subs[k], c) && t.subs[k].op.GroupOp? && t.subs[k].op.hasAgg)
  {
    var sub := t.subs[k];
    forall c | c in needed && Below(t, c) && Side(t, c.table) == k && !Computes(sub, c)
      ensures c in pMat && (fine ==> Holds(e, pMat[c], c, sub))
    {
      OwnOrBelow(sub, c);
      assert Below(sub, c);
      if c.table !in Tables(sub) {
        StaysComputed(sub, c);
      }
    }
  }

  /** A computed column keeps its origin above an operator that does not compute it. */
  lemma StaysComputed(t: Tree, c: Column)
    requires (Core(t) || Chain(t)) && IsPositional(t.op) && Below(t, c) && c.table !in Tables(t) && !Computes(t, c)
    ensures Origin(t, c) == Origin(t.subs[0], c) && Side(t, c.table) == 0 && c.table !in Tables(t.subs[0])
  {
    BelowCore(t, c);
  }

  lemma WithGroup(e: Engine, fine: bool, t: Tree, k: nat, needed: set<Column>, pMat: map<Column, PlanNode>,
                  s: set<PlanNode>, c: Column)
    requires WellFormed(t) && k < |t.subs| && t.subs[k].op.GroupOp? && t.subs[k].node in s && Chain(t.subs[k])
             && !Core(t.subs[k])
    requires |t.subs[k].outputs| > 0 && c == ValueColumn(t.subs[k].op, t.subs[k].outputs)
    requires Keys(t, First(t, k + 1), pMat, s)
    requires forall x {:trigger Below(t, x)} :: x in needed && Below(t, x) && Side(t, x.table) < k + 1 ==>
      || x in pMat || Raw(t, x)
      || (Side(t, x.table) == k && Computes(t.subs[k], x) && t.subs[k].op.GroupOp? && t.subs[k].op.hasAgg)
    requires fine ==> forall x {:trigger Below(t, x)} ::
      x in needed && Below(t, x) && Side(t, x.table) < k + 1 && x in pMat ==>
      || Holds(e, pMat[x], x, t.subs[Side(t, x.table)])
      || (Side(t, x.table) == k && Computes(t.subs[k], x) && t.subs[k].op.GroupOp? && t.subs[k].op.hasAgg)
    requires t.subs[k].op.hasAgg && fine ==> Holds(e, t.subs[k].node, c, t.subs[k])
    ensures Ready(e, fine, t, k + 1, needed, pMat[c := t.subs[k].node], s)
  {
    SubsWellFormed(t, k);
    TableNames(t.subs[k]);
    assert |t.subs| == 1 && !Core(t);
  }

  /** A base table fetched directly. */
  lemma TakeScan(e: Engine, fine: bool, t: Tree, k: nat, needed: set<Column>, neededBelow: set<Column>,
                 pMat: map<Column, PlanNode>, more: map<Column, PlanNode>, s0: set<PlanNode>, s: set<PlanNode>)
    requires WellFormed(t) && k < |t.subs| && t.subs[k].IsScan() && WellFormed(t.subs[k])
    requires Ready(e, fine, t, k, needed, pMat, s0) && s0 <= s && (k == 0 ==> pMat == map[])
    requires Returned(e, t.subs[k], neededBelow, ColumnSet(t.inputs), more, s)
    ensures Ready(e, fine, t, k + 1, needed, MergeInto(pMat, more)[t.subs[k].node.outputs[0] := t.subs[k].node], s)
  {
    var sub, merged := t.subs[k], MergeInto(pMat, more);
    var pMat' := merged[sub.node.outputs[0] := sub.node];
    SubsWellFormed(t, k);
    Merged(t, k, pMat, more, s);
    TableOfChild(t, k, sub.inputs[0].table);
    Earlier(e, fine, t, k, needed, pMat, pMat', s0);
    ScanEntries(e, t, k, merged, more, s);
    ScanNamed(e, t, k, more, s);
    assert Keys(t, First(t, k + 1), pMat', s);
    assert Named(t, k + 1, pMat');
    assert Entered(t, k + 1, needed, pMat');
  }

  lemma ScanEntries(e: Engine, t: Tree, k: nat, merged: map<Column, PlanNode>, more: map<Column, PlanNode>,
                    s: set<PlanNode>)
    requires WellFormed(t) && k < |t.subs| && t.subs[k].IsScan() && Core(t.subs[k])
    requires ScanReady(e, t.subs[k], ColumnSet(t.inputs), more, s)
    requires forall c: Column :: c.table in Tables(t.subs[k]) && c in more ==> c in merged && merged[c] == more[c]
    requires forall c: Column :: c.table in Tables(t.subs[k]) && c in merged ==> c in more
    ensures var pMat := merged[t.subs[k].node.outputs[0] := t.subs[k].node];
            forall c {:trigger Below(t, c)} :: Below(t, c) && Side(t, c.table) == k ==>
              (c in pMat || Raw(t, c)) && (c in pMat ==> Holds(e, pMat[c], c, t.subs[k]))
  {
    var pMat := merged[t.subs[k].node.outputs[0] := t.subs[k].node];
    forall c | Below(t, c) && Side(t, c.table) == k
      ensures (c in pMat || Raw(t, c)) && (c in pMat ==> Holds(e, pMat[c], c, t.subs[k]))
    {
      ScanReadable(t, k, c);
      assert c in t.inputs ==> c in ColumnSet(t.inputs);
    }
  }

  lemma ScanReadable(t: Tree, k: nat, c: Column)
    requires WellFormed(t) && k < |t.subs| && t.subs[k].IsScan() && Below(t, c) && Side(t, c.table) == k
    ensures |t.subs[k].inputs| == 1
    ensures Tables(t.subs[k]) == {t.subs[k].inputs[0].table} && c.table == t.subs[k].inputs[0].table
  {
    SubsWellFormed(t, k);
    TableNames(t.subs[k]);
  }

  /** A Map directly over a base table has named all entries. */
  lemma ScanNamed(e: Engine, t: Tree, k: nat, more: map<Column, PlanNode>, s: set<PlanNode>)
    requires WellFormed(t) && k < |t.subs| && t.subs[k].IsScan() && Core(t.subs[k])
    requires ScanReady(e, t.subs[k], ColumnSet(t.inputs), more, s)
    ensures |t.subs| == 1 ==> Named(t, k + 1, more[t.subs[k].node.outputs[0] := t.subs[k].node])
  {
    if |t.subs| == 1 && t.op.MapOp? {
      InputsBelow(t, 0);
      ScanReadable(t, k, t.inputs[0]);
      assert t.inputs[0] in ColumnSet(t.inputs);
    }
  }

  /** A Map leaves the columns below it aligned and adds its own. */
  lemma TakeMap(e: Engine, fine: bool, t: Tree, needed: set<Column>, neededBelow: set<Column>,
                inputOfParent: set<Column>, more: map<Column, PlanNode>, s: set<PlanNode>)
    requires e.Sound() && WellFormed(t) && |t.subs| == 1 && t.subs[0].op.MapOp? && Chain(t.subs[0]) && !Core(t.subs[0])
    requires Settled(e, s) && t.subs[0].node in s && (fine ==> Supplied(e, t.subs[0], s)) && needed <= neededBelow
    requires Returned(e, t.subs[0], neededBelow, inputOfParent, more, s) && (fine ==> Fine(e, t.subs[0]))
    ensures Ready(e, fine, t, 1, needed, more[t.subs[0].outputs[0] := t.subs[0].node], s)
  {
    var sub := t.subs[0];
    var pMat' := more[sub.outputs[0] := sub.node];
    assert sub.subs != [] && Core(sub.subs[0]) && Tables(t) == Tables(sub) == Tables(sub.subs[0]) && !Core(t);
    TableNames(sub);
    TableNames(sub.subs[0]);
    if fine {
      SuppliedValues(e, sub, s);
    }
    MapKeepsRows(e, sub, "");
    forall c | c in needed && Below(t, c) && Side(t, c.table) < 1
      ensures c in pMat' || Raw(t, c)
      ensures fine && c in pMat' ==> Holds(e, pMat'[c], c, sub)
    {
      if c != sub.outputs[0] {
        assert Below(sub, c) && (c in more || Raw(sub, c));
      } else {
        OriginBelow(sub, c);
      }
    }
    assert Named(t, 1, pMat');
  }

  // -------------------------------------------------------------------------------------------
  // The pass
  // -------------------------------------------------------------------------------------------

  /** What a finished pass has established about subtree `t`; the heart of it is when it is `Correct`. */
  ghost predicate Reported(e: Engine, t: Tree, needed: set<Column>, inputOfParent: set<Column>,
                           pMat: map<Column, PlanNode>, s: set<PlanNode>)
    requires WellFormed(t)
    reads s, t.node, pMat.Values
  {
    && Settled(e, s) && Reaching(s) && t.node in s && t.node.op == t.op && Flagged(t) && Reached(t, s)
    && (t.subs != [] ==> Standing(t, s)) && (Correct(e, t, s) <==> Fine(e, t))
    && Returned(e, t, needed, inputOfParent, pMat, s)
  }

  method ProcessChild(ghost e: Engine, ghost t: Tree, ghost k: nat, columnsThisNode: set<Column>, needed: set<Column>,
                      child: PlanNode, pMat0: map<Column, PlanNode>, ghost s0: set<PlanNode>)
    returns (tablesBelowChild: set<string>, pMat: map<Column, PlanNode>, missing: seq<Column>, ghost s: set<PlanNode>)
    requires e.Sound() && WellFormed(t) && k < |t.subs| && child == t.subs[k].node
             && columnsThisNode == ColumnSet(t.inputs)
    requires Untouched(t.subs[k..], s0) && Passed(e, t, k, s0)
    requires Ready(e, FineBelow(e, t, k), t, k, needed, pMat0, s0) && (k == 0 ==> pMat0 == map[])
    modifies Nodes(t.subs[k])
    ensures Untouched(t.subs[k + 1..], s) && Passed(e, t, k + 1, s)
    ensures Ready(e, FineBelow(e, t, k + 1), t, k + 1, needed, pMat, s)
    ensures s0 <= s && (forall n :: n in s ==> n in s0 || n in Nodes(t.subs[k]) || fresh(n))
    ensures tablesBelowChild == Tables(t.subs[k]) && (missing == [] <==> MapReads(t.subs[k]))
    decreases t, 0, 0
  {
    SubsWellFormed(t, k);
    ghost var rest := t.subs[k + 1..];
    ghost var restNodes := NodesOf(rest);
    assert t.subs[k..][0] == t.subs[k] && t.subs[k..][1..] == rest;
    var more;
    ghost var s1;
    tablesBelowChild, more, missing, s1 := FillMaterializes(e, t.subs[k], child, needed, columnsThisNode, s0);
    assert Ready(e, FineBelow(e, t, k), t, k, needed, pMat0, s0) && Passed(e, t, k, s0);
    assert old(allocated(restNodes));
    assert Untouched(rest, s1);
    pMat, s := TakeOverDone(e, t, k, needed, columnsThisNode, child, tablesBelowChild, pMat0, more, s0, s1);
  }

  method TakeOverDone(ghost e: Engine, ghost t: Tree, ghost k: nat, needed: set<Column>,
                      ghost columnsThisNode: set<Column>, child: PlanNode, tablesBelowChild: set<string>,
                      pMat0: map<Column, PlanNode>, more: map<Column, PlanNode>, ghost s0: set<PlanNode>,
                      ghost s1: set<PlanNode>)
    returns (pMat: map<Column, PlanNode>, ghost s: set<PlanNode>)
    requires e.Sound() && WellFormed(t) && k < |t.subs| && child == t.subs[k].node
             && columnsThisNode == ColumnSet(t.inputs)
    requires Passed(e, t, k, s0) && Untouched(t.subs[k + 1..], s1) && Nodes(t.subs[k]) <= s1
    requires Ready(e, FineBelow(e, t, k), t, k, needed, pMat0, s0) && (k == 0 ==> pMat0 == map[]) && s0 <= s1
    requires tablesBelowChild == Tables(t.subs[k]) && WellFormed(t.subs[k])
    requires Reported(e, t.subs[k], needed + ColumnSet(t.subs[k].inputs), columnsThisNode, more, s1)
    ensures Untouched(t.subs[k + 1..], s) && Passed(e, t, k + 1, s)
    ensures Ready(e, FineBelow(e, t, k + 1), t, k + 1, needed, pMat, s)
    ensures s1 <= s && (forall n :: n in s ==> n in s1 || fresh(n))
  {
    assert old(allocated(NodesOf(t.subs[k + 1..])));
    pMat, s := TakeOver(e, FineBelow(e, t, k), t, k, needed, columnsThisNode, child, tablesBelowChild, pMat0, more, s0,
                        s1);
    PassedGrows(e, t, k, s0, s1, s);
    FineNext(e, t, k);
  }

  lemma FineNext(e: Engine, t: Tree, k: nat)
    requires k < |t.subs|
    ensures FineBelow(e, t, k + 1) <==> FineBelow(e, t, k) && Fine(e, t.subs[k])
  {
  }

  /** Merge what child k reports and move it past the child. */
  method TakeOver(ghost e: Engine, ghost fine: bool, ghost t: Tree, ghost k: nat, needed: set<Column>,
                  ghost columnsThisNode: set<Column>, child: PlanNode, tablesBelowChild: set<string>,
                  pMat0: map<Column, PlanNode>, more: map<Column, PlanNode>, ghost s0: set<PlanNode>,
                  ghost s1: set<PlanNode>)
    returns (pMat: map<Column, PlanNode>, ghost s: set<PlanNode>)
    requires e.Sound() && WellFormed(t) && k < |t.subs| && child == t.subs[k].node
             && columnsThisNode == ColumnSet(t.inputs)
    requires Ready(e, fine, t, k, needed, pMat0, s0) && (k == 0 ==> pMat0 == map[]) && s0 <= s1
    requires tablesBelowChild == Tables(t.subs[k]) && WellFormed(t.subs[k])
    requires Reported(e, t.subs[k], needed + ColumnSet(t.subs[k].inputs), columnsThisNode, more, s1)
    ensures Settled(e, s) && Reaching(s) && s1 <= s && (forall n :: n in s ==> n in s1 || fresh(n))
    ensures Ready(e, fine && Fine(e, t.subs[k]), t, k + 1, needed, pMat, s)
  {
    ghost var sub, now := t.subs[k], fine && Fine(e, t.subs[k]);
    ghost var neededBelow := needed + ColumnSet(sub.inputs);
    SubsWellFormed(t, k);
    pMat, s := MergeInto(pMat0, more), s1;
    if child.outputsPosList {
      TakePositional(e, fine, t, k, needed, neededBelow, columnsThisNode, pMat0, more, s0, s);
      pMat, s := MovePast(e, now, t, k, needed, child, tablesBelowChild, pMat, s);
    } else {
      TakeValues(e, now, t, k, needed, neededBelow, pMat0, more, s0, s);
    }
    if child.outputsMatVals {
      pMat := pMat[ValueColumn(child.op, child.outputs) := child];
    }
  }

  /** The moved columns, and the Group's own values if the child is one. */
  method MovePast(ghost e: Engine, ghost fine: bool, ghost t: Tree, ghost k: nat, needed: set<Column>, child: PlanNode,
                  tablesBelowChild: set<string>, pMat0: map<Column, PlanNode>, ghost s0: set<PlanNode>)
    returns (pMat: map<Column, PlanNode>, ghost s: set<PlanNode>)
    requires e.Sound() && WellFormed(t) && k < |t.subs| && child == t.subs[k].node && WellFormed(t.subs[k])
    requires IsPositional(t.subs[k].op) && tablesBelowChild == Tables(t.subs[k])
    requires Settled(e, s0) && Reaching(s0) && Standing(t.subs[k], s0) && Reached(t.subs[k], s0)
    requires fine ==> Supplied(e, t.subs[k], s0)
    requires Moving(e, fine, t, k, needed, needed, pMat0, s0)
    ensures Settled(e, s) && Reaching(s) && s0 <= s && (forall n :: n in s ==> n in s0 || fresh(n))
    ensures |t.subs[k].outputs| > 0
    ensures var sub := t.subs[k];
            Ready(e, fine, t, k + 1, needed, if sub.op.GroupOp?
                  then pMat[ValueColumn(sub.op, sub.outputs) := sub.node] else pMat, s)
  {
    pMat, s := MoveNeeded(e, fine, t, k, needed, child, tablesBelowChild, pMat0, s0);
    assert fine ==> Supplied(e, t.subs[k], s0);
    LeavePositional(e, fine, t, k, needed, pMat, s);
  }

  /** A child that outputs values: a base table or a Map. */
  lemma TakeValues(e: Engine, fine: bool, t: Tree, k: nat, needed: set<Column>, neededBelow: set<Column>,
                   pMat: map<Column, PlanNode>, more: map<Column, PlanNode>, s0: set<PlanNode>, s: set<PlanNode>)
    requires e.Sound() && WellFormed(t) && k < |t.subs| && !IsPositional(t.subs[k].op) && WellFormed(t.subs[k])
    requires Ready(e, fine, t, k, needed, pMat, s0) && s0 <= s && (k == 0 ==> pMat == map[]) && needed <= neededBelow
    requires Reported(e, t.subs[k], neededBelow, ColumnSet(t.inputs), more, s) && (fine ==> Fine(e, t.subs[k]))
    ensures |t.subs[k].node.outputs| > 0
    ensures Ready(e, fine, t, k + 1, needed,
                  MergeInto(pMat, more)[ValueColumn(t.subs[k].op, t.subs[k].node.outputs) := t.subs[k].node], s)
  {
    SubsWellFormed(t, k);
    if t.subs[k].IsScan() {
      TakeScan(e, fine, t, k, needed, neededBelow, pMat, more, s0, s);
    } else {
      assert MergeInto(pMat, more) == more;
      TakeMap(e, fine, t, needed, neededBelow, ColumnSet(t.inputs), more, s);
    }
  }

  method FillMaterializes(ghost e: Engine, ghost t: Tree, node: PlanNode, above: set<Column>,
                          inputOfParent: set<Column>, ghost s0: set<PlanNode>)
    returns (tablesBelow: set<string>, pMat: map<Column, PlanNode>, missing: seq<Column>, ghost s: set<PlanNode>)
    requires e.Sound() && WellFormed(t) && Unshared(t) && node == t.node && Shape(t)
    requires Settled(e, s0) && Reaching(s0) && Nodes(t) !! s0
    modifies Nodes(t)
    ensures s0 + Nodes(t) <= s && (forall n :: n in s ==> n in s0 || n in Nodes(t) || fresh(n))
    ensures tablesBelow == Tables(t) && (missing == [] <==> MapReads(t))
    ensures Correct(e, t, s) <==> MapReads(t) && Fresh(e, t)
    ensures Reported(e, t, above + ColumnSet(t.inputs), inputOfParent, pMat, s)
    decreases t, 1
  {
    var columnsThisNode := ColumnSet(node.inputs);
    var needed := above + columnsThisNode;
    tablesBelow, pMat, missing, s := ProcessChildren(e, t, node, columnsThisNode, needed, s0);
    assert t.subs[..|t.subs|] == t.subs;
    var here;
    tablesBelow, pMat, here, s := FinishNode(e, t, node, needed, inputOfParent, tablesBelow, pMat, s);
    missing := missing + here;
  }

  /** A leaf is named, an operator rewired. */
  method FinishNode(ghost e: Engine, ghost t: Tree, node: PlanNode, ghost needed: set<Column>,
                    inputOfParent: set<Column>, tablesBelow0: set<string>, pMat0: map<Column, PlanNode>,
                    ghost s0: set<PlanNode>)
    returns (tablesBelow: set<string>, pMat: map<Column, PlanNode>, missing: seq<Column>, ghost s: set<PlanNode>)
    requires e.Sound() && WellFormed(t) && node == t.node && node !in s0 && ColumnSet(t.inputs) <= needed
    requires node.op == t.op && node.inputs == t.inputs && node.outputs == t.outputs && Flagged(t)
             && |node.children| == |t.subs|
    requires Passed(e, t, |t.subs|, s0) && tablesBelow0 == First(t, |t.subs|)
    requires Ready(e, FineBelow(e, t, |t.subs|), t, |t.subs|, needed, pMat0, s0)
    modifies node
    ensures s0 + {node} <= s && (forall n :: n in s ==> n in s0 || n == node || fresh(n))
    ensures tablesBelow == Tables(t) && (missing == [] <==> MapReadsAt(t))
    ensures Reported(e, t, needed, inputOfParent, pMat, s)
  {
    Leaves(t);
    if node.op.FetchOp? {
      tablesBelow, pMat, s := FinishScan(e, t, node, inputOfParent, s0);
      missing := [];
      CoreIsFine(e, t);
    } else {
      tablesBelow, pMat := tablesBelow0, pMat0;
      missing, s := FinishOperator(e, t, node, needed, inputOfParent, pMat, s0);
    }
  }

  lemma Leaves(t: Tree)
    requires WellFormed(t)
    ensures t.op.FetchOp? <==> t.subs == []
    ensures t.op.FetchOp? ==> Core(t)
    ensures t.subs != [] ==> First(t, |t.subs|) == Tables(t)
  {
  }

  /** Generate materialize nodes bottom up. */
  method ProcessChildren(ghost e: Engine, ghost t: Tree, node: PlanNode, columnsThisNode: set<Column>,
                         needed: set<Column>, ghost s0: set<PlanNode>)
    returns (tablesBelow: set<string>, pMat: map<Column, PlanNode>, missing: seq<Column>, ghost s: set<PlanNode>)
    requires e.Sound() && WellFormed(t) && Unshared(t) && node == t.node && Shape(t)
             && columnsThisNode == ColumnSet(t.inputs)
    requires Settled(e, s0) && Reaching(s0) && Nodes(t) !! s0
    modifies NodesOf(t.subs)
    ensures Passed(e, t, |t.subs|, s) && node !in s
    ensures Ready(e, FineBelow(e, t, |t.subs|), t, |t.subs|, needed, pMat, s)
    ensures s0 <= s && (forall n :: n in s ==> n in s0 || n in NodesOf(t.subs) || fresh(n))
    ensures tablesBelow == First(t, |t.subs|)
    ensures missing == [] <==> forall k :: 0 <= k < |t.subs| ==> MapReads(t.subs[k])
    decreases t, 1, 0
  {
    var kids := node.children;
    tablesBelow, pMat, missing, s := {}, map[], [], s0;
    assert t.subs[0..] == t.subs && t.subs[..0] == [];
    for k := 0 to |kids|
      invariant node !in s && Untouched(t.subs[k..], s) && Passed(e, t, k, s)
      invariant Ready(e, FineBelow(e, t, k), t, k, needed, pMat, s) && (k == 0 ==> pMat == map[])
      invariant s0 <= s && (forall n :: n in s ==> n in s0 || n in NodesOf(t.subs) || fresh(n))
      invariant tablesBelow == First(t, k)
      invariant missing == [] <==> forall j :: 0 <= j < k ==> MapReads(t.subs[j])
    {
      tablesBelow, pMat, missing, s := ProcessNext(e, t, k, columnsThisNode, needed, kids[k], tablesBelow, pMat,
                                                   missing, s);
    }
  }

  method ProcessNext(ghost e: Engine, ghost t: Tree, ghost k: nat, columnsThisNode: set<Column>, needed: set<Column>,
                     child: PlanNode, tablesBelow0: set<string>, pMat0: map<Column, PlanNode>, missing0: seq<Column>,
                     ghost s0: set<PlanNode>)
    returns (tablesBelow: set<string>, pMat: map<Column, PlanNode>, missing: seq<Column>, ghost s: set<PlanNode>)
    requires e.Sound() && WellFormed(t) && k < |t.subs| && child == t.subs[k].node
             && columnsThisNode == ColumnSet(t.inputs)
    requires t.node !in s0 && t.node !in NodesOf(t.subs) && Untouched(t.subs[k..], s0) && Passed(e, t, k, s0)
    requires Ready(e, FineBelow(e, t, k), t, k, needed, pMat0, s0) && (k == 0 ==> pMat0 == map[])
    requires tablesBelow0 == First(t, k) && (missing0 == [] <==> forall j :: 0 <= j < k ==> MapReads(t.subs[j]))
    modifies Nodes(t.subs[k])
    ensures t.node !in s && Untouched(t.subs[k + 1..], s) && Passed(e, t, k + 1, s)
    ensures Ready(e, FineBelow(e, t, k + 1), t, k + 1, needed, pMat, s)
    ensures s0 <= s && (forall n :: n in s ==> n in s0 || n in NodesOf(t.subs) || fresh(n))
    ensures tablesBelow == First(t, k + 1) && (missing == [] <==> forall j :: 0 <= j < k + 1 ==> MapReads(t.subs[j]))
    decreases t, 0, 1
  {
    MemberNodes(t.subs, k);
    assert old(allocated(t.node));
    var below, reported;
    below, pMat, reported, s := ProcessChild(e, t, k, columnsThisNode, needed, child, pMat0, s0);
    tablesBelow := tablesBelow0 + below;
    missing := missing0 + reported;
    FirstNext(t, k);
  }

  lemma FirstNext(t: Tree, k: nat)
    requires WellFormed(t) && k < |t.subs|
    ensures First(t, k + 1) == First(t, k) + Tables(t.subs[k])
  {
    SubsWellFormed(t, k);
  }

  /** A base table is fetched under the columns its parent reads. */
  method FinishScan(ghost e: Engine, ghost t: Tree, node: PlanNode, inputOfParent: set<Column>, ghost s0: set<PlanNode>)
    returns (tablesBelow: set<string>, pMat: map<Column, PlanNode>, ghost s: set<PlanNode>)
    requires Core(t) && t.IsScan() && node == t.node && node !in s0
    requires node.op == t.op && node.inputs == t.inputs && node.outputs == t.outputs && Flagged(t)
             && node.children == []
    requires Settled(e, s0) && Reaching(s0)
    modifies node
    ensures Settled(e, s) && Reaching(s) && s0 + {node} <= s
            && (forall n :: n in s ==> n in s0 || n == node || fresh(n))
    ensures node.op == t.op && Flagged(t) && Reached(t, s)
    ensures tablesBelow == Tables(t) && ScanReady(e, t, inputOfParent, pMat, s)
  {
    tablesBelow, pMat, s := {}, map[], s0;
    if node.op.wasTableBaseNode {
      pMat, s := NameScan(e, t, node, inputOfParent, s0);
      tablesBelow := {node.inputs[0].table};
    }
    Account(e, node, s);
    FetchWorth(e, node, s);
    ScanColumn(e, t, node.outputs[0]);
    s := s + {node};
  }

  /** Give the base table the columns its parent reads, remembering a copy of the node per column. */
  method NameScan(ghost e: Engine, ghost t: Tree, node: PlanNode, inputOfParent: set<Column>, ghost s0: set<PlanNode>)
    returns (pMat: map<Column, PlanNode>, ghost s: set<PlanNode>)
    requires Core(t) && t.IsScan() && node == t.node && node !in s0
    requires node.inputs == t.inputs && node.outputs == t.outputs
    requires Settled(e, s0) && Reaching(s0)
    modifies node`inputs, node`outputs
    ensures Settled(e, s) && Reaching(s) && s0 <= s && node !in s && (forall n :: n in s ==> n in s0 || fresh(n))
    ensures Copies(e, t, inputOfParent, pMat, s) && NamedAfter(t, inputOfParent)
  {
    var table := node.inputs[0].table;
    pMat, s := map[], s0;
    var todo := inputOfParent;
    ghost var done: set<Column> := {};
    NothingNamed(e, t, s);
    while todo != {}
      invariant done + todo == inputOfParent && node !in s
      invariant Settled(e, s) && Reaching(s) && s0 <= s && (forall n :: n in s ==> n in s0 || fresh(n))
      invariant Copies(e, t, done, pMat, s) && NamedAfter(t, done)
      decreases todo
    {
      var fetchCol :| fetchCol in todo;
      pMat, s := NameNext(e, t, node, done, table, fetchCol, pMat, s);
      done := done + {fetchCol};
      todo := todo - {fetchCol};
    }
  }

  /** The base table's one column is of its table, and among `cols` if they have any. */
  ghost predicate NamedAfter(t: Tree, cols: set<Column>)
    requires t.IsScan() && Core(t)
    reads t.node
  {
    && |t.node.inputs| == 1 && t.node.outputs == t.node.inputs && t.node.inputs[0].table == t.inputs[0].table
    && forall c :: c in cols && c.table == t.inputs[0].table ==> t.node.outputs[0] in cols
  }

  method NameNext(ghost e: Engine, ghost t: Tree, node: PlanNode, ghost cols: set<Column>, table: string,
                  fetchCol: Column, pMat0: map<Column, PlanNode>, ghost s0: set<PlanNode>)
    returns (pMat: map<Column, PlanNode>, ghost s: set<PlanNode>)
    requires Core(t) && t.IsScan() && node == t.node && table == t.inputs[0].table && node !in s0
    requires Settled(e, s0) && Reaching(s0) && Copies(e, t, cols, pMat0, s0) && NamedAfter(t, cols)
    modifies node`inputs, node`outputs
    ensures Settled(e, s) && Reaching(s) && s0 <= s && node !in s && (forall n :: n in s ==> n in s0 || fresh(n))
    ensures Copies(e, t, cols + {fetchCol}, pMat, s) && NamedAfter(t, cols + {fetchCol})
  {
    pMat, s := pMat0, s0;
    if fetchCol.table == table {
      pMat, s := NameOne(e, t, node, cols, fetchCol, pMat, s);
    } else {
      NoCopy(e, t, cols, pMat, s, fetchCol);
    }
  }

  method NameOne(ghost e: Engine, ghost t: Tree, node: PlanNode, ghost cols: set<Column>, fetchCol: Column,
                 pMat0: map<Column, PlanNode>, ghost s0: set<PlanNode>)
    returns (pMat: map<Column, PlanNode>, ghost s: set<PlanNode>)
    requires Core(t) && t.IsScan() && node == t.node && fetchCol.table == t.inputs[0].table && node !in s0
    requires Settled(e, s0) && Reaching(s0) && Copies(e, t, cols, pMat0, s0)
    modifies node`inputs, node`outputs
    ensures Settled(e, s) && Reaching(s) && s0 <= s && node !in s && (forall n :: n in s ==> n in s0 || fresh(n))
    ensures Copies(e, t, cols + {fetchCol}, pMat, s) && NamedAfter(t, cols + {fetchCol})
  {
    var named := [Column(fetchCol.table, fetchCol.name)];
    node.inputs, node.outputs := named, named;
    var copy := NewFetch(e, fetchCol, true, s0);
    AddCopy(e, t, cols, pMat0, s0, fetchCol, copy);
    s := s0 + {copy};
    pMat := pMat0[fetchCol := copy];
    assert named[0] == fetchCol;
  }

  lemma NothingNamed(e: Engine, t: Tree, s: set<PlanNode>)
    requires Core(t) && t.IsScan() && t.node.inputs == t.inputs && t.node.outputs == t.outputs
    ensures Copies(e, t, {}, map[], s) && NamedAfter(t, {})
  {
  }

  lemma NoCopy(e: Engine, t: Tree, cols: set<Column>, pMat: map<Column, PlanNode>, s: set<PlanNode>, c: Column)
    requires Core(t) && t.IsScan() && c.table != t.inputs[0].table && Copies(e, t, cols, pMat, s)
    ensures Copies(e, t, cols + {c}, pMat, s)
  {
  }

  lemma AddCopy(e: Engine, t: Tree, cols: set<Column>, pMat: map<Column, PlanNode>, s: set<PlanNode>, c: Column,
                m: PlanNode)
    requires Core(t) && t.IsScan() && c.table == t.inputs[0].table && Copies(e, t, cols, pMat, s)
    requires Output(m, c) == e.BaseColumn(c) && m.worth.reach == {c.table}
    ensures Copies(e, t, cols + {c}, pMat[c := m], s + {m})
  {
    ScanColumn(e, t, c);
    NewCopy(e, t, cols, pMat, s, c, m);
  }

  lemma NewCopy(e: Engine, t: Tree, cols: set<Column>, pMat: map<Column, PlanNode>, s: set<PlanNode>, c: Column,
                m: PlanNode)
    requires Core(t) && t.IsScan() && c.table in Tables(t) && Copies(e, t, cols, pMat, s) && Provides(e, m, c, t)
    ensures Copies(e, t, cols + {c}, pMat[c := m], s + {m})
  {
    assert Keys(t, Tables(t), pMat[c := m], s + {m});
  }

  ghost predicate Copies(e: Engine, t: Tree, cols: set<Column>, pMat: map<Column, PlanNode>, s: set<PlanNode>)
    requires t.IsScan() && Core(t)
    reads s
  {
    && Keys(t, Tables(t), pMat, s)
    && (forall c {:trigger c in pMat} :: c in pMat ==> Provides(e, pMat[c], c, t) && c in cols)
    && (forall c :: c in cols && c.table == t.inputs[0].table ==> c in pMat)
  }

  /** Replace an operator's children by the latest materialization of each input column. */
  method FinishOperator(ghost e: Engine, ghost t: Tree, node: PlanNode, ghost needed: set<Column>,
                        ghost inputOfParent: set<Column>, pMat: map<Column, PlanNode>, ghost s0: set<PlanNode>)
    returns (missing: seq<Column>, ghost s: set<PlanNode>)
    requires e.Sound() && WellFormed(t) && t.subs != [] && node == t.node && node !in s0
    requires node.op == t.op && node.inputs == t.inputs && node.outputs == t.outputs && Flagged(t)
    requires ColumnSet(t.inputs) <= needed && Passed(e, t, |t.subs|, s0)
    requires Ready(e, FineBelow(e, t, |t.subs|), t, |t.subs|, needed, pMat, s0)
    modifies node`children, node`worth
    ensures (missing == [] <==> MapReadsAt(t)) && s == s0 + {node}
    ensures Reported(e, t, needed, inputOfParent, pMat, s)
  {
    var providers: seq<PlanNode>;
    providers, missing := Providers(t, node.inputs, needed, pMat, s0);
    assert node !in pMat.Values;
    Rewire(e, node, providers, s0);
    assert Ready(e, FineBelow(e, t, |t.subs|), t, |t.subs|, needed, pMat, s0) && Passed(e, t, |t.subs|, s0);
    s := s0 + {node};
    OperatorDone(e, t, needed, inputOfParent, pMat, missing, s0);
  }

  lemma OperatorDone(e: Engine, t: Tree, needed: set<Column>, inputOfParent: set<Column>, pMat: map<Column, PlanNode>,
                     missing: seq<Column>, s0: set<PlanNode>)
    requires WellFormed(t) && t.subs != [] && t.node !in s0 && Flagged(t)
    requires Settled(e, s0 + {t.node}) && Reaching(s0 + {t.node}) && Standing(t, s0 + {t.node})
    requires Passed(e, t, |t.subs|, s0) && (missing == [] <==> MapReadsAt(t))
    requires Found(t, pMat, t.node.children, missing) && ColumnSet(t.inputs) <= needed
    requires Ready(e, FineBelow(e, t, |t.subs|), t, |t.subs|, needed, pMat, s0)
    ensures Reported(e, t, needed, inputOfParent, pMat, s0 + {t.node})
  {
    Leaves(t);
    Rewired(e, t, needed, pMat, missing, s0);
    ReadyGrows(e, t, needed, pMat, s0, s0 + {t.node});
  }

  lemma ReadyGrows(e: Engine, t: Tree, needed: set<Column>, pMat: map<Column, PlanNode>, s: set<PlanNode>,
                   s': set<PlanNode>)
    requires Ready(e, FineBelow(e, t, |t.subs|), t, |t.subs|, needed, pMat, s) && s <= s'
    ensures Ready(e, Fine(e, t), t, |t.subs|, needed, pMat, s')
  {
    FineSplits(e, t);
  }

  /** The entry of an input column: the column itself exactly if it is fresh. */
  lemma Operand(e: Engine, t: Tree, needed: set<Column>, pMat: map<Column, PlanNode>, s: set<PlanNode>, c: Column)
    requires WellFormed(t) && t.subs != [] && c in t.inputs && c in needed && c in pMat
    requires Ready(e, true, t, |t.subs|, needed, pMat, s)
    ensures Side(t, c.table) < |t.subs|
    ensures var sub := t.subs[Side(t, c.table)];
            Provides(e, pMat[c], c, sub) <==>
              (c.table !in Tables(t) ==>
               ColumnOf(e, Rel(e, Origin(t.subs[0], c)), c) == ColumnOf(e, Rel(e, t.subs[0]), c))
    ensures c.table !in Tables(t) ==> Output(pMat[c], c) == ColumnOf(e, Rel(e, Origin(t.subs[0], c)), c) && !Core(t)
  {
    var i :| 0 <= i < |t.inputs| && t.inputs[i] == c;
    InputsBelow(t, i);
    if c.table in Tables(t) {
      TableOfSide(t, c.table);
    } else {
      InputsOrigin(t, c);
      TableNames(t.subs[0]);
    }
  }

  lemma TableOfSide(t: Tree, table: string)
    requires WellFormed(t) && t.subs != [] && table in Tables(t)
    ensures table in Tables(t.subs[Side(t, table)])
  {
    SubsWellFormed(t, 0);
  }

  /** The rewired operator is right exactly if all is found, fresh, and right below. */
  lemma Rewired(e: Engine, t: Tree, needed: set<Column>, pMat: map<Column, PlanNode>, missing: seq<Column>,
                s0: set<PlanNode>)
    requires WellFormed(t) && t.subs != [] && t.node !in s0
    requires Settled(e, s0 + {t.node}) && Reaching(s0 + {t.node}) && Standing(t, s0 + {t.node})
    requires Passed(e, t, |t.subs|, s0) && (missing == [] <==> MapReadsAt(t))
    requires Found(t, pMat, t.node.children, missing) && ColumnSet(t.inputs) <= needed
    requires Ready(e, FineBelow(e, t, |t.subs|), t, |t.subs|, needed, pMat, s0)
    ensures (Correct(e, t, s0 + {t.node}) <==> Fine(e, t)) && Reached(t, s0 + {t.node})
  {
    var s := s0 + {t.node};
    assert t.subs[..|t.subs|] == t.subs;
    FineSplits(e, t);
    forall k | 0 <= k < |t.subs| ensures Correct(e, t.subs[k], s) <==> Fine(e, t.subs[k]) {
      MemberNodes(t.subs, k);
      CorrectSame(e, t.subs[k], s0, s);
    }
    if Core(t) {
      CoreIsFine(e, t);
    }
    if FineBelow(e, t, |t.subs|) && missing == [] {
      SuppliedIfFresh(e, t, needed, pMat, missing, s0);
    }
  }

  lemma SuppliedIfFresh(e: Engine, t: Tree, needed: set<Column>, pMat: map<Column, PlanNode>, missing: seq<Column>,
                        s0: set<PlanNode>)
    requires WellFormed(t) && t.subs != [] && t.node !in s0
    requires Settled(e, s0 + {t.node}) && Reaching(s0 + {t.node}) && Standing(t, s0 + {t.node})
    requires Found(t, pMat, t.node.children, missing) && missing == [] && ColumnSet(t.inputs) <= needed
    requires Ready(e, true, t, |t.subs|, needed, pMat, s0)
    ensures Supplied(e, t, s0 + {t.node}) <==> FreshAt(e, t)
    ensures FreshAt(e, t) ==> Reached(t, s0 + {t.node})
  {
    var s := s0 + {t.node};
    assert Local(e, t.node, s) && LocalReach(t.node, s);
    forall i | 0 <= i < |t.inputs|
      ensures t.node.children[i] == pMat[t.inputs[i]] && t.inputs[i] in ColumnSet(t.inputs)
      ensures FreshAt(e, t) ==> Provides(e, t.node.children[i], t.inputs[i], t.subs[Side(t, t.inputs[i].table)])
    {
      assert t.inputs[i] in ColumnSet(t.inputs);
      Operand(e, t, needed, pMat, s0, t.inputs[i]);
    }
    if FreshAt(e, t) {
      Supply(e, t, s);
    } else {
      StaleOperand(e, t, needed, pMat, s0);
    }
  }

  /** An operand that is not fresh is wrong. */
  lemma StaleOperand(e: Engine, t: Tree, needed: set<Column>, pMat: map<Column, PlanNode>, s0: set<PlanNode>)
    requires WellFormed(t) && t.subs != [] && |t.node.children| == |t.inputs| && !FreshAt(e, t)
    requires forall i :: 0 <= i < |t.inputs| ==>
      t.inputs[i] in pMat && t.node.children[i] == pMat[t.inputs[i]] && t.inputs[i] in needed
    requires Ready(e, true, t, |t.subs|, needed, pMat, s0)
    ensures !Supplied(e, t, s0 + {t.node})
  {
    var c :| c in t.inputs && c.table !in Tables(t)
             && ColumnOf(e, Rel(e, Origin(t.subs[0], c)), c) != ColumnOf(e, Rel(e, t.subs[0]), c);
    var i :| 0 <= i < |t.inputs| && t.inputs[i] == c;
    Operand(e, t, needed, pMat, s0, c);
    InputsOrigin(t, c);
    assert Output(t.node.children[i], c) != ColumnOf(e, In(e, t, c.table), c);
  }

  /** The providers are the entries of the input columns that have one; the others are missing. */
  ghost predicate Found(t: Tree, pMat: map<Column, PlanNode>, providers: seq<PlanNode>, missing: seq<Column>) {
    && |providers| + |missing| == |t.inputs|
    && (missing == [] ==> forall i :: 0 <= i < |t.inputs| ==> t.inputs[i] in pMat && providers[i] == pMat[t.inputs[i]])
  }

  method Providers(ghost t: Tree, inputs: seq<Column>, ghost needed: set<Column>, pMat: map<Column, PlanNode>,
                   ghost s: set<PlanNode>)
    returns (providers: seq<PlanNode>, missing: seq<Column>)
    requires WellFormed(t) && t.subs != [] && inputs == t.inputs && ColumnSet(inputs) <= needed
    requires Keys(t, First(t, |t.subs|), pMat, s) && Entered(t, |t.subs|, needed, pMat) && Named(t, |t.subs|, pMat)
    ensures Found(t, pMat, providers, missing) && (missing == [] <==> MapReadsAt(t))
    ensures forall i :: 0 <= i < |providers| ==> providers[i] in s
  {
    providers, missing := [], [];
    for i := 0 to |inputs|
      invariant |providers| + |missing| == i
      invariant missing == [] <==> forall j :: 0 <= j < i ==> inputs[j] in pMat
      invariant missing == [] ==> forall j :: 0 <= j < i ==> inputs[j] in pMat && providers[j] == pMat[inputs[j]]
      invariant forall j :: 0 <= j < |providers| ==> providers[j] in s
    {
      var column := inputs[i];
      if column in pMat {
        providers := providers + [pMat[column]];
      } else {
        missing := missing + [column];
      }
    }
    AllEntered(t, needed, pMat);
  }

  /** Only above a Map over a base table can an input column be without an entry. */
  lemma AllEntered(t: Tree, needed: set<Column>, pMat: map<Column, PlanNode>)
    requires WellFormed(t) && t.subs != [] && ColumnSet(t.inputs) <= needed
    requires Entered(t, |t.subs|, needed, pMat) && Named(t, |t.subs|, pMat)
    ensures (forall i :: 0 <= i < |t.inputs| ==> t.inputs[i] in pMat) <==> MapReadsAt(t)
  {
    forall i | 0 <= i < |t.inputs|
      ensures t.inputs[i] in pMat
              || (OverMappedScan(t) && t.inputs[i].table in Tables(t) && t.inputs[i] !in t.subs[0].inputs)
    {
      var c := t.inputs[i];
      assert c in ColumnSet(t.inputs);
      InputsBelow(t, i);
      assert c in pMat || Raw(t, c);
      SubsWellFormed(t, Side(t, c.table));
      if Raw(t, c) {
        TableOfChild(t, Side(t, c.table), c.table);
      }
    }
    if OverMappedScan(t) {
      SubsWellFormed(t, 0);
    }
  }

  /**
   The pass on a whole plan: no column is missing exactly if the readers above a Map over a base table
   ask for the Map's own columns only, and every operator reads the right columns exactly if in addition
   no computed column is stale.
   */
  method FillPlan(ghost e: Engine, ghost t: Tree, root: PlanNode) returns (missing: seq<Column>, ghost s: set<PlanNode>)
    requires e.Sound() && WellFormed(t) && root == t.node && Shape(t) && Unshared(t)
    modifies Nodes(t)
    ensures Settled(e, s) && Reaching(s) && root in s && (forall n :: n in s ==> n in Nodes(t) || fresh(n))
    ensures missing == [] <==> MapReads(t)
    ensures Correct(e, t, s) <==> MapReads(t) && Fresh(e, t)
    ensures missing == [] && NoStale(t, {}) ==> Correct(e, t, s)
    ensures Core(t) || CorePlan(t) ==> missing == [] && Correct(e, t, s)
  {
    var tables, pMat;
    tables, pMat, missing, s := FillMaterializes(e, t, root, {}, {}, {});
    if NoStale(t, {}) {
      FreshUnlessStale(e, t, {});
    }
    if Core(t) || CorePlan(t) {
      CoreNeverStale(t, {});
      FreshUnlessStale(e, t, {});
      CoreFindsAll(e, t);
    }
  }
}
