/**
 `putLateMaterializationV2` and `putLateMaterializationHybrid`: position lists are carried upward
 per table and a column is fetched only where an operator reads it.  The two passes differ in one
 condition, which is the parameter `hybrid` here.
 */
module LateMaterialization {
  import opened Relational
  import opened PlanTree
  import opened PhysicalPlan
  import opened Rewiring
  import opened LatePlans

  /** What a finished subtree hands to its parent: latest position list per table, latest values per column. */
  datatype LateData = LateData(pos: map<string, PlanNode>, mat: map<Column, PlanNode>)

  /** A column the pass looks for and does not find, or a position list that is looked up in a node without one. */
  datatype Error = Missing(column: Column) | FailedLookup(column: Column)

  /** What a node and those above it need, and what becomes of each table in the node. */
  datatype View = View(needed: set<Column>, st: map<string, Status>)

  function ViewOf(hybrid: bool, t: Tree, needed: set<Column>): View {
    View(needed, Statuses(hybrid, t, needed))
  }

  predicate Mentioned(needed: set<Column>, table: string) {
    exists c :: c in needed && c.table == table
  }

  // -------------------------------------------------------------------------------------------
  // What the maps of a node with k finished children mean
  // -------------------------------------------------------------------------------------------

  /** Besides `c` the node outputs no column of the tables. */
  ghost predicate Clean(m: PlanNode, c: Column, tables: set<string>)
    reads m
  {
    forall i :: 0 <= i < |m.outputs| ==> m.outputs[i] == c || m.outputs[i].table !in tables
  }

  /** Of a table with a position list only what the node reads has values. */
  predicate HasValues(t: Tree, v: View, c: Column) {
    c.table in v.st ==>
      match v.st[c.table]
      case OnScan => true
      case Listed => c in t.inputs
      case Valued => c in v.needed
      case _ => false
  }

  ghost predicate MatOk(e: Engine, t: Tree, k: nat, v: View, mat: map<Column, PlanNode>, s: set<PlanNode>)
    reads s
  {
    forall c {:trigger c in mat} :: c in mat ==>
      && mat[c] in s && Below(t, c) && Side(t, c.table) < k
      && Provides(e, mat[c], c, t.subs[Side(t, c.table)]) && Clean(mat[c], c, Tables(t))
      && HasValues(t, v, c)
  }

  /** The node's output for `table` is the list of base rows under the relation of `sub`. */
  ghost predicate PosList(e: Engine, m: PlanNode, table: string, sub: Tree)
    reads m
  {
    && IndexOfTable(m.outputs, table) < |m.outputs|
    && Output(m, m.outputs[IndexOfTable(m.outputs, table)]) == BaseRows(Rel(e, sub), table)
    && (m.op.MatOp? ==> m.outputsPosList && |m.outputs| == 1)
    && (Core(sub) ==> m.worth.reach == Tables(sub))
  }

  /** The node outputs no column of the table, so looking for its position list fails. */
  predicate NoList(m: PlanNode, table: string)
    reads m
  {
    IndexOfTable(m.outputs, table) == |m.outputs|
  }

  ghost predicate Entry(e: Engine, status: Status, m: PlanNode, table: string, sub: Tree)
    reads m
  {
    if status.Listed? then PosList(e, m, table, sub) else NoList(m, table)
  }

  ghost predicate PosOk(e: Engine, t: Tree, k: nat, v: View, pos: map<string, PlanNode>, s: set<PlanNode>)
    reads s
  {
    forall table {:trigger table in pos} :: table in pos ==>
      && t.subs != [] && table in Tables(t) && table in v.st && Side(t, table) < k
      && !t.subs[Side(t, table)].IsScan()
      && pos[table] in s
      && (Mentioned(v.needed, table) ==> Entry(e, v.st[table], pos[table], table, t.subs[Side(t, table)]))
  }

  /** A scanned child is known under its one named column only. */
  ghost predicate ScanOk(t: Tree, k: nat, mat: map<Column, PlanNode>, s: set<PlanNode>)
    reads s
  {
    forall j {:trigger t.subs[j]} :: 0 <= j < k && j < |t.subs| && t.subs[j].IsScan() ==>
      && t.subs[j].node in s && |t.subs[j].node.outputs| == 1
      && t.subs[j].node.outputs[0] in mat && t.subs[j].node.outputs[0].table in Tables(t.subs[j])
      && (forall c :: c in t.inputs && c.table in Tables(t.subs[j]) ==> t.subs[j].node.outputs[0] in t.inputs)
      && (forall c {:trigger c in mat} :: c in mat && c.table in Tables(t.subs[j]) ==> c == t.subs[j].node.outputs[0])
  }

  /** A needed column of a table that travels as values, or a computed one, has values. */
  predicate ValuesOk(v: View, c: Column, d: LateData) {
    (c.table in v.st ==> v.st[c.table].Valued?) ==> c in d.mat
  }

  predicate ListOk(v: View, c: Column, d: LateData) {
    c.table in v.st ==> (c.table in d.pos <==> v.st[c.table].Entered())
  }

  ghost predicate NeedsOk(t: Tree, k: nat, v: View, d: LateData) {
    forall c {:trigger Below(t, c)} :: c in v.needed && Below(t, c) && Side(t, c.table) < k ==>
      ValuesOk(v, c, d) && ListOk(v, c, d)
  }

  ghost predicate Carried(e: Engine, t: Tree, k: nat, v: View, d: LateData, s: set<PlanNode>)
    reads s
  {
    && v.st.Keys == Tables(t)
    && MatOk(e, t, k, v, d.mat, s) && PosOk(e, t, k, v, d.pos, s) && ScanOk(t, k, d.mat, s) && NeedsOk(t, k, v, d)
  }

  lemma CarriedGrows(e: Engine, t: Tree, k: nat, v: View, d: LateData, s: set<PlanNode>, s': set<PlanNode>)
    requires Carried(e, t, k, v, d, s) && s <= s'
    ensures Carried(e, t, k, v, d, s')
  {
  }

  // -------------------------------------------------------------------------------------------
  // The layering that the grandchildren rewrite relies on
  // -------------------------------------------------------------------------------------------

  /** Every column of `table` among the values `f` reads is the base column gathered by `p`. */
  ghost predicate ReadsBy(e: Engine, f: PlanNode, table: string, p: seq<int>, s: set<PlanNode>)
    reads s, f
  {
    forall i :: 0 <= i < |f.children| ==>
      && f.children[i] in s
      && (f.children[i].outputsMatVals ==> forall c :: c in f.children[i].outputs && c.table == table ==>
            Output(f.children[i], c) == Gather(e.BaseColumn(c), p))
  }

  /**
   A position list is composed with the list of an operator whose own inputs were aligned by the
   same list, and values are gathered through such a list only from a base column.
   */
  ghost predicate Layer(e: Engine, n: PlanNode, s: set<PlanNode>)
    reads s, n
  {
    n.op.MatOp? ==>
      && |n.children| == 2 && |n.inputs| == 2 && |n.outputs| == 1 && n.children[0] in s && n.children[1] in s
      && n.outputsMatVals == !n.outputsPosList
      && (n.outputsPosList ==>
            !n.children[1].op.MatOp?
              && InRange(Output(n.children[1], n.inputs[1]), |Output(n.children[0], n.inputs[0])|)
            && ReadsBy(e, n.children[1], n.outputs[0].table, Output(n.children[0], n.inputs[0]), s))
      && (n.outputsMatVals && n.children[1].op.MatOp? ==>
            && n.children[1].outputsPosList
            && n.children[0].op.FetchOp? && n.children[0].inputs == n.children[0].outputs == [n.inputs[0]]
            && n.outputs == [n.inputs[0]] && n.children[1].outputs == [n.inputs[1]]
            && n.inputs[0].table == n.children[1].outputs[0].table)
  }

  ghost predicate Layered(e: Engine, s: set<PlanNode>)
    reads s
  {
    forall n {:trigger Layer(e, n, s)} :: n in s ==> Layer(e, n, s)
  }

  lemma LayeredWith(e: Engine, n: PlanNode, s: set<PlanNode>)
    requires Layered(e, s) && Layer(e, n, s)
    ensures Layered(e, s + {n})
  {
    forall m | m in s + {n} ensures Layer(e, m, s + {n}) {
      assert m in s ==> Layer(e, m, s);
    }
  }

  ghost predicate CleanInputs(t: Tree, s: set<PlanNode>)
    reads s
  {
    && t.node in s && |t.node.children| == |t.inputs|
    && (forall i :: 0 <= i < |t.inputs| ==>
          t.node.children[i] in s && Clean(t.node.children[i], t.inputs[i], Tables(t)))
  }

  /** The values a finished operator reads are aligned with the position list of their table. */
  lemma ReadsAligned(e: Engine, t: Tree, table: string, p: seq<int>, s: set<PlanNode>)
    requires e.Sound() && (Core(t) || Chain(t)) && t.subs != [] && table in Tables(t)
    requires Supplied(e, t, s) && CleanInputs(t, s)
    requires p == BaseRows(In(e, t, table), table)
    ensures ReadsBy(e, t.node, table, p, s)
  {
    SubsWellFormed(t, Side(t, table));
    forall i, c | 0 <= i < |t.node.children| && c in t.node.children[i].outputs && c.table == table
      ensures Output(t.node.children[i], c) == Gather(e.BaseColumn(c), p)
    {
      assert c == t.inputs[i];
      ColumnFromRows(e, t.subs[Side(t, table)], c);
    }
  }

  // -------------------------------------------------------------------------------------------
  // The three kinds of Materialize the passes create
  // -------------------------------------------------------------------------------------------

  ghost predicate Plan(e: Engine, s: set<PlanNode>)
    reads s
  {
    Settled(e, s) && Reaching(s) && Layered(e, s)
  }

  /** A finished child that outputs positions. */
  ghost predicate Ascended(e: Engine, t: Tree, s: set<PlanNode>)
    reads s
  {
    && (Core(t) || Chain(t)) && IsPositional(t.op)
    && Supplied(e, t, s) && Reached(t, s) && CleanInputs(t, s)
  }

  /** Update values by the child's position list. */
  method MoveValues(ghost e: Engine, ghost t: Tree, c: Column, src: PlanNode, child: PlanNode, ghost s: set<PlanNode>)
    returns (m: PlanNode)
    requires e.Sound() && Plan(e, s) && Ascended(e, t, s) && child == t.node
    requires Below(t, c) && src in s && Provides(e, src, c, t.subs[Side(t, c.table)])
    ensures fresh(m) && Provides(e, m, c, t) && m.outputs == [c]
    ensures Plan(e, s + {m})
  {
    m := MoveColumn(e, t, c, src, child, s);
    LayeredWith(e, m, s);
  }

  /** Update a position list by the child's position list. */
  method MovePositions(ghost e: Engine, ghost t: Tree, c: Column, prev: PlanNode, child: PlanNode,
                       ghost s: set<PlanNode>)
    returns (m: PlanNode)
    requires e.Sound() && Plan(e, s) && Ascended(e, t, s) && child == t.node
    requires c.table in Tables(t) && prev in s && PosList(e, prev, c.table, t.subs[Side(t, c.table)])
    ensures fresh(m) && PosList(e, m, c.table, t)
    ensures Plan(e, s + {m})
  {
    var prevCol := prev.outputs[IndexOfTable(prev.outputs, c.table)];
    var filterCol := FilterColumn(e, t, c.table, child, s);
    m := NewMaterialize(e, prevCol, filterCol, c, true, prev, child, s);
    assert Ascended(e, t, s) && Layered(e, s);
    ListMoved(e, t, c, prev, m);
    ListLayer(e, t, c, prev, m, s);
    LayeredWith(e, m, s);
  }

  lemma ListMoved(e: Engine, t: Tree, c: Column, prev: PlanNode, m: PlanNode)
    requires e.Sound() && (Core(t) || Chain(t)) && IsPositional(t.op) && c.table in Tables(t)
    requires m.op.MatOp? && m.outputs == [c] && m.outputsPosList
    requires PosList(e, prev, c.table, t.subs[Side(t, c.table)])
    requires |Lists(e, t)| > Side(t, c.table)
    requires Output(m, c) == Gather(BaseRows(In(e, t, c.table), c.table), Lists(e, t)[Side(t, c.table)])
    requires Core(t) ==> m.worth.reach == {c.table} + prev.worth.reach + Tables(t)
    ensures PosList(e, m, c.table, t)
  {
    AdvanceRows(e, t, c.table);
    SubTablesWithin(t, c.table);
  }

  lemma SubTablesWithin(t: Tree, table: string)
    requires (Core(t) || Chain(t)) && t.subs != [] && table in Tables(t)
    ensures Tables(t.subs[Side(t, table)]) <= Tables(t) && (Core(t) ==> Core(t.subs[Side(t, table)]))
  {
    SubsWellFormed(t, Side(t, table));
  }

  lemma ListLayer(e: Engine, t: Tree, c: Column, prev: PlanNode, m: PlanNode, s: set<PlanNode>)
    requires e.Sound() && Ascended(e, t, s) && c.table in Tables(t) && prev in s
    requires m.op.MatOp? && m.children == [prev, t.node] && |m.inputs| == 2 && m.outputs == [c] && m.outputsPosList
             && !m.outputsMatVals
    requires Output(prev, m.inputs[0]) == BaseRows(In(e, t, c.table), c.table)
    requires |Lists(e, t)| > Side(t, c.table) && Output(t.node, m.inputs[1]) == Lists(e, t)[Side(t, c.table)]
    ensures Layer(e, m, s)
  {
    ListsInRange(e, t, c.table);
    ReadsAligned(e, t, c.table, Output(prev, m.inputs[0]), s);
    assert !t.node.op.MatOp?;
  }

  /** Fetch a column through a position list. */
  method FetchThrough(ghost e: Engine, ghost t: Tree, c: Column, pos: PlanNode, ghost s0: set<PlanNode>)
    returns (m: PlanNode, ghost s: set<PlanNode>)
    requires e.Sound() && Plan(e, s0) && (Core(t) || Chain(t))
    requires c.table in Tables(t) && pos in s0 && PosList(e, pos, c.table, t)
    ensures fresh(m) && Provides(e, m, c, t) && m.outputs == [c]
    ensures Plan(e, s) && m in s && s0 <= s && (forall n :: n in s ==> n in s0 || fresh(n))
  {
    var fetch := NewFetch(e, c, false, s0);
    LayeredWith(e, fetch, s0);
    ghost var s1 := s0 + {fetch};
    var prevCol := pos.outputs[IndexOfTable(pos.outputs, c.table)];
    m := NewMaterialize(e, c, prevCol, c, false, fetch, pos, s1);
    LayeredWith(e, m, s1);
    s := s1 + {m};
    ColumnFromRows(e, t, c);
  }

  // -------------------------------------------------------------------------------------------
  // Taking a child's maps past the child
  // -------------------------------------------------------------------------------------------

  /** The maps while child k's needed columns are processed: those in `todo` are still to do. */
  ghost predicate Mid(e: Engine, t: Tree, k: nat, v: View, todo: set<Column>, d: LateData, s: set<PlanNode>)
    reads s
  {
    && k < |t.subs| && v.st.Keys == Tables(t)
    && MatOk(e, t, k + 1, v, d.mat, s) && PosOk(e, t, k + 1, v, d.pos, s)
    && ScanOk(t, k, d.mat, s) && NeedsOk(t, k, v, d)
    && (forall c {:trigger Below(t.subs[k], c)} :: c in v.needed && c !in todo && Below(t.subs[k], c) ==>
          ValuesOk(v, c, d))
    && Listing(t.subs[k], v, todo, d.pos)
  }

  /** A table of the child, unless it travels as values, has an entry once one of its needed columns is processed. */
  ghost predicate Listing(sub: Tree, v: View, todo: set<Column>, pos: map<string, PlanNode>) {
    forall table :: table in Tables(sub) && table in v.st ==>
      (table in pos <==> v.st[table].Entered() && Mentioned(v.needed - todo, table))
  }

  /** The status of a table above child `sub` follows from that below. */
  ghost predicate Steps(hybrid: bool, sub: Tree, below: View, v: View) {
    && below == ViewOf(hybrid, sub, v.needed + ColumnSet(sub.inputs))
    && below.st.Keys == Tables(sub) && below.st.Keys <= v.st.Keys
    && forall table :: table in below.st ==>
         v.st[table] == StatusAbove(hybrid, sub, below.st[table], v.needed, table)
  }

  ghost predicate StepsOrScan(hybrid: bool, sub: Tree, below: View, v: View) {
    if sub.IsScan() then forall table :: table in Tables(sub) ==> table in v.st && v.st[table].OnScan?
    else Steps(hybrid, sub, below, v)
  }

  lemma ViewSteps(hybrid: bool, t: Tree, k: nat, needed: set<Column>)
    requires WellFormed(t) && k < |t.subs|
    ensures var v, sub := ViewOf(hybrid, t, needed), t.subs[k];
            StepsOrScan(hybrid, sub, ViewOf(hybrid, sub, needed + ColumnSet(sub.inputs)), v)
  {
    forall table | table in Tables(t.subs[k]) {
      StatusStep(hybrid, t, k, needed, table);
    }
  }

  /** What child `sub` reports values of: the columns it reads, and a column that travels as values. */
  ghost predicate Reports(sub: Tree, below: View, mat: map<Column, PlanNode>) {
    forall c {:trigger c in mat} :: c in below.needed && Below(sub, c) ==>
      if c.table in below.st then c in mat <==> below.st[c.table].Valued? || c in sub.inputs
      else c in mat
  }

  /** The first operator above a scan is the table's first position list. */
  lemma FirstPositions(e: Engine, t: Tree, table: string, s: set<PlanNode>)
    requires e.Sound() && Plan(e, s) && Ascended(e, t, s) && table in Tables(t) && t.subs[Side(t, table)].IsScan()
    requires Core(t)
    ensures PosList(e, t.node, table, t)
  {
    SuppliedLists(e, t, s, table);
    FirstRows(e, t, table);
    assert t.outputs[Side(t, table)].table == table;
    assert Side(t, table) == 1 ==> t.outputs[0].table != table;
  }

  /** Above an operator over a scan the operator reads the scanned table, so the scan is known by what is read. */
  lemma ScanRead(t: Tree, k: nat)
    requires (Core(t) || Chain(t)) && k < |t.subs| && t.subs[k].IsScan()
    ensures exists c :: c in t.inputs && c.table in Tables(t.subs[k])
  {
    if Core(t) {
      CoreScanRead(t, k);
    } else {
      ChainSubs(t, k);
      TableNames(t.subs[k]);
      assert t.inputs[0] in t.inputs;
    }
  }

  lemma CoreScanRead(t: Tree, k: nat)
    requires Core(t) && k < |t.subs|
    ensures exists c :: c in t.inputs && c.table in Tables(t.subs[k])
  {
    if t.op.JoinOp? {
      assert k == 0 || k == 1;
      assert t.inputs[k] in t.inputs;
    } else {
      assert t.inputs[0] in t.inputs;
    }
  }

  /** A table stands on its scan only where its child is that scan. */
  predicate ScansFound(t: Tree, v: View) {
    if t.subs == [] then NoneLost(t, v) else ScansSide(t, v)
  }

  predicate ScansSide(t: Tree, v: View) {
    t.subs != [] && forall table :: table in v.st && v.st[table].OnScan? ==> t.subs[Side(t, table)].IsScan()
  }

  lemma ViewScans(hybrid: bool, t: Tree, needed: set<Column>)
    ensures ScansFound(t, ViewOf(hybrid, t, needed))
  {
  }

  /** The maps of a finished subtree say exactly which needed columns have values. */
  lemma FinishedReports(e: Engine, t: Tree, v: View, d: LateData, s: set<PlanNode>)
    requires (Core(t) || Chain(t)) && ScansSide(t, v) && Carried(e, t, |t.subs|, v, d, s)
    requires forall c :: c in t.inputs ==> c in d.mat
    ensures Reports(t, v, d.mat)
  {
    forall c | c in v.needed && Below(t, c)
      ensures if c.table in v.st then c in d.mat <==> v.st[c.table].Valued? || c in t.inputs else c in d.mat
    {
      SideBelow(t, c.table);
      assert ValuesOk(v, c, d);
      if c.table in v.st && v.st[c.table].OnScan? && c in d.mat {
        ScanReported(t, d.mat, c, s);
      }
    }
  }

  lemma ScanReported(t: Tree, mat: map<Column, PlanNode>, c: Column, s: set<PlanNode>)
    requires (Core(t) || Chain(t)) && t.subs != [] && ScanOk(t, |t.subs|, mat, s) && c in mat && c.table in Tables(t)
    requires t.subs[Side(t, c.table)].IsScan()
    ensures c in t.inputs
  {
    var k := Side(t, c.table);
    SideHas(t, c.table);
    ScanRead(t, k);
    assert c == t.subs[k].node.outputs[0];
  }

  lemma SideBelow(t: Tree, table: string)
    requires t.subs != []
    ensures Side(t, table) < |t.subs|
  {
  }

  /** One column needed at the node or above; composing with a list the child has not got fails. */
  method TakeColumn(ghost e: Engine, hybrid: bool, ghost t: Tree, ghost k: nat, needed: set<Column>, ghost v: View,
                    ghost below: View, tablesBelowChild: set<string>, prev: LateData, laterCol: Column,
                    child: PlanNode, ghost todo: set<Column>, d0: LateData, ghost s0: set<PlanNode>)
    returns (d: LateData, errors: seq<Error>, ghost s: set<PlanNode>)
    requires e.Sound() && WellFormed(t) && k < |t.subs| && child == t.subs[k].node && needed == v.needed
    requires Plan(e, s0) && Ascended(e, t.subs[k], s0) && tablesBelowChild == Tables(t.subs[k])
    requires Routed(e, t.subs[k], below, v, prev, laterCol,
                    laterCol in prev.mat && UsesData(hybrid, needed, laterCol), s0)
    requires laterCol in todo && todo <= needed
    requires Mid(e, t, k, v, todo, d0, s0) && Composed(t.subs[k], below, needed - todo)
    ensures errors == [] <==> Composed(t.subs[k], below, {laterCol})
    ensures errors == [] ==>
      && Plan(e, s) && s0 <= s && (forall n :: n in s ==> n in s0 || fresh(n))
      && Mid(e, t, k, v, todo - {laterCol}, d, s)
  {
    d, errors, s := d0, [], s0;
    if laterCol in prev.mat && UsesData(hybrid, needed, laterCol) {
      d, s := TakeData(e, t, k, v, prev.mat[laterCol], laterCol, child, todo, d0, s0);
    } else if laterCol.table in tablesBelowChild && laterCol.table !in d0.pos {
      d, errors, s := TakeList(e, t, k, v, below.st[laterCol.table], prev.pos, laterCol, child, todo, d0, s0);
    } else {
      Skipped(e, t, k, v, below, todo, laterCol, d0, s0);
    }
  }

  /** The child has real lists of the tables it has entries for. */
  ghost predicate Composed(sub: Tree, below: View, cols: set<Column>) {
    forall c :: c in cols && c.table in Tables(sub) && c.table in below.st ==> !below.st[c.table].Useless?
  }

  /** How a column goes past child `sub`: as values, through a list, or not at all. */
  ghost predicate Routed(e: Engine, sub: Tree, below: View, v: View, prev: LateData, c: Column, data: bool,
                         s: set<PlanNode>)
    reads s
  {
    if data then
      && Below(sub, c) && c in prev.mat && prev.mat[c] in s
      && Provides(e, prev.mat[c], c, sub.subs[Side(sub, c.table)])
      && (c.table in v.st ==> v.st[c.table].Valued?) && Composed(sub, below, {c})
    else
      && (Below(sub, c) ==> c.table in Tables(sub))
      && (c.table in Tables(sub) ==>
            && c.table in below.st && c.table in v.st
            && Sourced(e, sub, below.st[c.table], prev.pos, c.table, s)
            && v.st[c.table] == ListStatus(sub, below.st[c.table]))
  }

  /**
   Every needed column gets past the child as the status of its table says: the test on the child's data tells
   those that travel as values, whose dropped lists nobody asks for, from those that go through a list.
   */
  lemma NeedsBelow(e: Engine, hybrid: bool, t: Tree, k: nat, below: View, v: View, prev: LateData, c: Column,
                 s: set<PlanNode>)
    requires WellFormed(t) && k < |t.subs| && IsPositional(t.subs[k].op) && v.st.Keys == Tables(t) && c in v.needed
    requires Steps(hybrid, t.subs[k], below, v) && Reports(t.subs[k], below, prev.mat)
    requires Carried(e, t.subs[k], |t.subs[k].subs|, below, prev, s)
    ensures Routed(e, t.subs[k], below, v, prev, c, c in prev.mat && UsesData(hybrid, v.needed, c), s)
  {
    var sub := t.subs[k];
    SubsWellFormed(t, k);
    if Below(sub, c) {
      BelowChild(t, k, c);
    }
    if c.table in Tables(sub) {
      TableRouted(e, hybrid, sub, below, v, prev, c, s);
    } else {
      VirtualRouted(e, hybrid, sub, below, v, prev, c, s);
    }
  }

  /** A computed column travels as values. */
  lemma VirtualRouted(e: Engine, hybrid: bool, sub: Tree, below: View, v: View, prev: LateData, c: Column,
                      s: set<PlanNode>)
    requires (Core(sub) || Chain(sub)) && c.table !in Tables(sub) && c in below.needed
    requires c.table in v.st ==> c.table in Tables(sub) || !Below(sub, c)
    requires below.st.Keys == Tables(sub) && Reports(sub, below, prev.mat)
    requires MatOk(e, sub, |sub.subs|, below, prev.mat, s)
    ensures Routed(e, sub, below, v, prev, c, c in prev.mat && UsesData(hybrid, v.needed, c), s)
  {
    if Below(sub, c) {
      VirtualIsData(sub, c);
    }
  }

  lemma TableRouted(e: Engine, hybrid: bool, sub: Tree, below: View, v: View, prev: LateData, c: Column,
                    s: set<PlanNode>)
    requires (Core(sub) || Chain(sub)) && IsPositional(sub.op) && sub.subs != []
    requires c.table in Tables(sub) && c in v.needed
    requires Steps(hybrid, sub, below, v) && Reports(sub, below, prev.mat)
    requires Carried(e, sub, |sub.subs|, below, prev, s)
    ensures Routed(e, sub, below, v, prev, c, c in prev.mat && UsesData(hybrid, v.needed, c), s)
  {
    TableIsBelow(sub, c);
    TableNames(sub);
    TableStatus(hybrid, sub, below, v, prev.mat, c);
    if c in prev.mat && UsesData(hybrid, v.needed, c) {
      assert HasValues(sub, below, c);
    } else {
      ListSource(e, sub, below, prev, c, s);
    }
  }

  lemma TableStatus(hybrid: bool, sub: Tree, below: View, v: View, mat: map<Column, PlanNode>, c: Column)
    requires IsPositional(sub.op) && sub.subs != [] && c.table in Tables(sub) && c in v.needed && Below(sub, c)
    requires Steps(hybrid, sub, below, v) && Reports(sub, below, mat) && c.table != AGG && c.table != MAP
    ensures if c in mat && UsesData(hybrid, v.needed, c) then v.st[c.table].Valued?
            else FirstOk(sub, below.st[c.table], c.table) && v.st[c.table] == ListStatus(sub, below.st[c.table])
  {
    HandedIff(sub, below.st[c.table], v.needed, c);
    FirstStatus(hybrid, sub, below, c);
  }

  /** Where there is no entry, the table stands on its scan or has been lost outside the core. */
  predicate FirstOk(t: Tree, status: Status, table: string) {
    t.subs != [] && !status.Valued? && (status.OnScan? ==> t.subs[Side(t, table)].IsScan())
    && (Core(t) ==> !status.Lost())
  }

  lemma FirstStatus(hybrid: bool, t: Tree, v: View, c: Column)
    requires t.subs != [] && v == ViewOf(hybrid, t, v.needed) && c.table in Tables(t) && c in v.needed
    ensures v.st[c.table].Valued? ==> hybrid && Only(v.needed, c)
    ensures !v.st[c.table].Valued? ==> FirstOk(t, v.st[c.table], c.table)
  {
    ViewScans(hybrid, t, v.needed);
    if v.st[c.table].Valued? {
      ValuedIsOnly(hybrid, t, v.needed, c);
    }
    if Core(t) {
      CoreStatus(hybrid, t, v.needed, c);
    }
  }

  lemma TableIsBelow(t: Tree, c: Column)
    requires (Core(t) || Chain(t)) && t.subs != [] && c.table in Tables(t)
    ensures Below(t, c)
  {
    SideHas(t, c.table);
  }

  /** What is readable and no base column is an aggregate or a Map's result. */
  lemma VirtualIsData(t: Tree, c: Column)
    requires (Core(t) || Chain(t)) && Below(t, c)
    ensures c.table in Tables(t) || c.table == AGG || c.table == MAP
  {
    SubsWellFormed(t, Side(t, c.table));
    SideBelow(t, c.table);
    TableNames(t.subs[Side(t, c.table)]);
  }

  /** Nothing is to be done for a column that is not readable here or whose table has been moved. */
  lemma Skipped(e: Engine, t: Tree, k: nat, v: View, below: View, todo: set<Column>, c: Column, d: LateData,
                s: set<PlanNode>)
    requires Mid(e, t, k, v, todo, d, s) && c in v.needed && Composed(t.subs[k], below, v.needed - todo)
    requires Below(t.subs[k], c) ==> c.table in Tables(t.subs[k]) && c.table in v.st && !v.st[c.table].Valued?
    requires c.table in Tables(t.subs[k]) ==> c.table in d.pos && c.table in v.st
    ensures Mid(e, t, k, v, todo - {c}, d, s) && Composed(t.subs[k], below, {c})
  {
    if c.table in Tables(t.subs[k]) {
      var x :| x in v.needed - todo && x.table == c.table;
      assert c.table in below.st ==> !below.st[x.table].Useless?;
    }
    MentionedMore(v.needed, todo, c);
  }

  /** Processing one more column mentions its table and no other. */
  lemma MentionedMore(needed: set<Column>, todo: set<Column>, c: Column)
    requires c in needed
    ensures forall table ::
              Mentioned(needed - (todo - {c}), table) <==> Mentioned(needed - todo, table) || table == c.table
  {
    forall table
      ensures Mentioned(needed - (todo - {c}), table) <==> Mentioned(needed - todo, table) || table == c.table
    {
      assert c in needed - (todo - {c});
      if Mentioned(needed - todo, table) {
        var x :| x in needed - todo && x.table == table;
        assert x in needed - (todo - {c});
      }
    }
  }

  method TakeData(ghost e: Engine, ghost t: Tree, ghost k: nat, ghost v: View, src: PlanNode, laterCol: Column,
                  child: PlanNode, ghost todo: set<Column>, d0: LateData, ghost s0: set<PlanNode>)
    returns (d: LateData, ghost s: set<PlanNode>)
    requires e.Sound() && WellFormed(t) && k < |t.subs| && child == t.subs[k].node
    requires Plan(e, s0) && Ascended(e, t.subs[k], s0) && laterCol in v.needed
    requires src in s0 && Below(t.subs[k], laterCol)
             && Provides(e, src, laterCol, t.subs[k].subs[Side(t.subs[k], laterCol.table)])
    requires laterCol.table in v.st ==> v.st[laterCol.table].Valued?
    requires Mid(e, t, k, v, todo, d0, s0)
    ensures Plan(e, s) && s0 <= s && (forall n :: n in s ==> n in s0 || fresh(n))
    ensures Mid(e, t, k, v, todo - {laterCol}, d, s)
  {
    var m := MoveValues(e, t.subs[k], laterCol, src, child, s0);
    assert Mid(e, t, k, v, todo, d0, s0);
    s := s0 + {m};
    d := d0.(mat := d0.mat[laterCol := m]);
    MidMat(e, t, k, v, todo, laterCol, d0, s0, m, s);
  }

  /** The table's position list: composed with the one from below, or the child itself if it is the first. */
  method TakeList(ghost e: Engine, ghost t: Tree, ghost k: nat, ghost v: View, ghost status: Status,
                  prevPos: map<string, PlanNode>, laterCol: Column, child: PlanNode, ghost todo: set<Column>,
                  d0: LateData, ghost s0: set<PlanNode>)
    returns (d: LateData, errors: seq<Error>, ghost s: set<PlanNode>)
    requires e.Sound() && WellFormed(t) && k < |t.subs| && child == t.subs[k].node
    requires Plan(e, s0) && Ascended(e, t.subs[k], s0) && laterCol.table in Tables(t.subs[k])
    requires Sourced(e, t.subs[k], status, prevPos, laterCol.table, s0)
    requires laterCol in v.needed && laterCol.table in v.st && v.st[laterCol.table] == ListStatus(t.subs[k], status)
    requires Mid(e, t, k, v, todo, d0, s0)
    ensures errors == [] <==> !status.Useless?
    ensures errors == [] ==>
      && Plan(e, s) && s0 <= s && (forall n :: n in s ==> n in s0 || fresh(n))
      && Mid(e, t, k, v, todo - {laterCol}, d, s)
  {
    var m;
    d, errors, s := d0, [], s0;
    if laterCol.table in prevPos {
      var prevList := prevPos[laterCol.table];
      if IndexOfTable(prevList.outputs, laterCol.table) == |prevList.outputs| {
        errors := [FailedLookup(laterCol)];
        return;
      }
      m := MovePositions(e, t.subs[k], laterCol, prevList, child, s0);
      assert Mid(e, t, k, v, todo, d0, s0);
      s := s0 + {m};
    } else {
      m := child;
      FirstEntry(e, t.subs[k], status, laterCol, s0);
    }
    d := d0.(pos := d0.pos[laterCol.table := m]);
    MidPos(e, t, k, v, todo, laterCol, d0, s0, m, s);
  }

  /** What becomes of a table that does not travel as values. */
  function ListStatus(sub: Tree, status: Status): Status {
    if status.Listed? || (status.OnScan? && Core(sub)) then Listed else Useless
  }

  /** The entry a child has for a table is what the table's status says. */
  ghost predicate Sourced(e: Engine, t: Tree, status: Status, pos: map<string, PlanNode>, table: string,
                          s: set<PlanNode>)
    reads s
  {
    && FirstOk(t, status, table) && (table in pos <==> status.Entered())
    && (table in pos ==> pos[table] in s && Entry(e, status, pos[table], table, t.subs[Side(t, table)]))
  }

  lemma ListSource(e: Engine, t: Tree, v: View, d: LateData, c: Column, s: set<PlanNode>)
    requires Carried(e, t, |t.subs|, v, d, s) && t.subs != [] && c in v.needed && Below(t, c) && c.table in Tables(t)
    requires FirstOk(t, v.st[c.table], c.table)
    ensures Sourced(e, t, v.st[c.table], d.pos, c.table, s)
  {
    SideBelow(t, c.table);
    assert ListOk(v, c, d);
    assert Mentioned(v.needed, c.table);
  }

  /** The first entry of a table: a real position list above a scan in a core, a useless one elsewhere. */
  lemma FirstEntry(e: Engine, t: Tree, status: Status, c: Column, s: set<PlanNode>)
    requires e.Sound() && Plan(e, s) && Ascended(e, t, s) && c.table in Tables(t) && !status.Entered()
    requires FirstOk(t, status, c.table)
    ensures Entry(e, ListStatus(t, status), t.node, c.table, t)
  {
    if Core(t) {
      FirstPositions(e, t, c.table, s);
    } else {
      ChainSubs(t, 0);
    }
  }

  /** What is readable at an operator's input is readable above it. */
  lemma StaysAvailable(t: Tree, c: Column)
    requires (Core(t) || Chain(t)) && Below(t, c)
    ensures Available(t, c) && (Core(t) ==> c.table in Tables(t))
    ensures c.table == AGG || c.table == MAP ==> c.table !in Tables(t)
  {
    var i := Side(t, c.table);
    TableNames(t);
    if Core(t) {
      TableNames(t.subs[i]);
    }
  }

  /** A column of child k, seen from the parent. */
  lemma BelowChild(t: Tree, k: nat, c: Column)
    requires WellFormed(t) && k < |t.subs| && Below(t.subs[k], c)
    ensures Below(t, c) && Side(t, c.table) == k
    ensures c.table == AGG || c.table == MAP ==> c.table !in Tables(t)
    ensures c.table in Tables(t) <==> c.table in Tables(t.subs[k])
  {
    SubsWellFormed(t, k);
    StaysAvailable(t.subs[k], c);
    SeenFromParent(t, k, c);
  }

  lemma MidMat(e: Engine, t: Tree, k: nat, v: View, todo: set<Column>, c: Column, d: LateData, s: set<PlanNode>,
               m: PlanNode, s': set<PlanNode>)
    requires WellFormed(t) && Mid(e, t, k, v, todo, d, s) && s <= s' && m in s'
    requires Below(t.subs[k], c) && c in v.needed && (c.table in v.st ==> v.st[c.table].Valued?)
    requires Provides(e, m, c, t.subs[k]) && m.outputs == [c]
    ensures Mid(e, t, k, v, todo - {c}, d.(mat := d.mat[c := m]), s')
  {
    BelowChild(t, k, c);
    SubsWellFormed(t, k);
    MidMatAt(e, t, k, v, todo, c, d, s, m, s');
  }

  lemma MidMatAt(e: Engine, t: Tree, k: nat, v: View, todo: set<Column>, c: Column, d: LateData, s: set<PlanNode>,
                 m: PlanNode, s': set<PlanNode>)
    requires Mid(e, t, k, v, todo, d, s) && s <= s' && m in s'
    requires Below(t, c) && Side(t, c.table) == k && c in v.needed && (c.table in v.st ==> v.st[c.table].Valued?)
    requires |t.subs| == 1 || (|t.subs| == 2 && Tables(t.subs[0]) !! Tables(t.subs[1]))
    requires Provides(e, m, c, t.subs[k]) && m.outputs == [c]
    ensures Mid(e, t, k, v, todo - {c}, d.(mat := d.mat[c := m]), s')
  {
    MatWith(e, t, k + 1, v, d.mat, s, c, m, s');
    PosGrows(e, t, k + 1, v, d.pos, s, s');
    ScansKeepBefore(t, k, d.mat, s, c, m, s');
    NeedsStay(v, d, c, m);
    ListingStays(t.subs[k], v, todo, d.pos, c);
  }

  /** A column that travels as values, or a computed one, changes no list. */
  lemma ListingStays(sub: Tree, v: View, todo: set<Column>, pos: map<string, PlanNode>, c: Column)
    requires Listing(sub, v, todo, pos) && c in v.needed && (c.table in v.st ==> v.st[c.table].Valued?)
    ensures Listing(sub, v, todo - {c}, pos)
  {
    MentionedMore(v.needed, todo, c);
  }

  lemma NeedsStay(v: View, d: LateData, c: Column, m: PlanNode)
    ensures forall x :: ValuesOk(v, x, d) ==> ValuesOk(v, x, d.(mat := d.mat[c := m]))
    ensures forall x :: ListOk(v, x, d) ==> ListOk(v, x, d.(mat := d.mat[c := m]))
  {
  }

  lemma MatWith(e: Engine, t: Tree, k: nat, v: View, mat: map<Column, PlanNode>, s: set<PlanNode>, c: Column,
                m: PlanNode, s': set<PlanNode>)
    requires MatOk(e, t, k, v, mat, s) && s <= s' && m in s' && HasValues(t, v, c)
    requires Below(t, c) && Side(t, c.table) < k && Provides(e, m, c, t.subs[Side(t, c.table)])
    requires Clean(m, c, Tables(t))
    ensures MatOk(e, t, k, v, mat[c := m], s')
  {
  }

  lemma PosGrows(e: Engine, t: Tree, k: nat, v: View, pos: map<string, PlanNode>, s: set<PlanNode>, s': set<PlanNode>)
    requires PosOk(e, t, k, v, pos, s) && s <= s'
    ensures PosOk(e, t, k, v, pos, s')
  {
  }

  lemma PosWith(e: Engine, t: Tree, k: nat, v: View, pos: map<string, PlanNode>, s: set<PlanNode>, table: string,
                m: PlanNode, s': set<PlanNode>)
    requires PosOk(e, t, k, v, pos, s) && s <= s' && m in s' && t.subs != [] && table in Tables(t) && Side(t, table) < k
    requires !t.subs[Side(t, table)].IsScan() && table in v.st
             && Entry(e, v.st[table], m, table, t.subs[Side(t, table)])
    ensures PosOk(e, t, k, v, pos[table := m], s')
  {
  }

  lemma MatGrows(e: Engine, t: Tree, k: nat, v: View, mat: map<Column, PlanNode>, s: set<PlanNode>, s': set<PlanNode>)
    requires MatOk(e, t, k, v, mat, s) && s <= s'
    ensures MatOk(e, t, k, v, mat, s')
  {
  }

  lemma ScansGrow(t: Tree, k: nat, mat: map<Column, PlanNode>, s: set<PlanNode>, s': set<PlanNode>)
    requires ScanOk(t, k, mat, s) && s <= s'
    ensures ScanOk(t, k, mat, s')
  {
  }

  /** Values added for child k leave the scans before it alone. */
  lemma ScansKeepBefore(t: Tree, k: nat, mat: map<Column, PlanNode>, s: set<PlanNode>, c: Column, m: PlanNode,
                        s': set<PlanNode>)
    requires ScanOk(t, k, mat, s) && s <= s' && Side(t, c.table) == k
    requires |t.subs| == 1 || (|t.subs| == 2 && Tables(t.subs[0]) !! Tables(t.subs[1]))
    ensures ScanOk(t, k, mat[c := m], s')
  {
    assert k == 1 ==> c.table !in Tables(t.subs[0]);
  }

  lemma MidPos(e: Engine, t: Tree, k: nat, v: View, todo: set<Column>, c: Column, d: LateData, s: set<PlanNode>,
               m: PlanNode, s': set<PlanNode>)
    requires WellFormed(t) && Mid(e, t, k, v, todo, d, s) && s <= s' && m in s'
    requires c in v.needed && c.table in Tables(t.subs[k]) && !t.subs[k].IsScan()
    requires c.table in v.st && v.st[c.table].Entered() && Entry(e, v.st[c.table], m, c.table, t.subs[k])
    ensures Mid(e, t, k, v, todo - {c}, d.(pos := d.pos[c.table := m]), s')
  {
    SubsWellFormed(t, k);
    TableOfChild(t, k, c.table);
    MidPosAt(e, t, k, v, todo, c, d, s, m, s');
  }

  lemma MidPosAt(e: Engine, t: Tree, k: nat, v: View, todo: set<Column>, c: Column, d: LateData, s: set<PlanNode>,
                 m: PlanNode, s': set<PlanNode>)
    requires Mid(e, t, k, v, todo, d, s) && s <= s' && m in s'
    requires c in v.needed && c.table in Tables(t) && Side(t, c.table) == k && !t.subs[k].IsScan()
    requires c.table in v.st && v.st[c.table].Entered() && Entry(e, v.st[c.table], m, c.table, t.subs[k])
    ensures Mid(e, t, k, v, todo - {c}, d.(pos := d.pos[c.table := m]), s')
  {
    var d' := d.(pos := d.pos[c.table := m]);
    MatGrows(e, t, k + 1, v, d.mat, s, s');
    PosWith(e, t, k + 1, v, d.pos, s, c.table, m, s');
    ScansGrow(t, k, d.mat, s, s');
    assert forall x: Column :: ValuesOk(v, x, d) ==> ValuesOk(v, x, d');
    assert forall x: Column :: x.table != c.table && ListOk(v, x, d) ==> ListOk(v, x, d');
    MentionedMore(v.needed, todo, c);
    assert Listing(t.subs[k], v, todo - {c}, d'.pos);
  }

  /** The inner loop over the columns needed at the node or above. */
  method TakeNeeded(ghost e: Engine, hybrid: bool, ghost t: Tree, ghost k: nat, needed: set<Column>, ghost v: View,
                    ghost below: View, tablesBelowChild: set<string>, prev: LateData, child: PlanNode,
                    d0: LateData, ghost s0: set<PlanNode>)
    returns (d: LateData, errors: seq<Error>, ghost s: set<PlanNode>)
    requires e.Sound() && WellFormed(t) && k < |t.subs| && child == t.subs[k].node && needed == v.needed
    requires Plan(e, s0) && Ascended(e, t.subs[k], s0) && tablesBelowChild == Tables(t.subs[k])
    requires Carried(e, t.subs[k], |t.subs[k].subs|, below, prev, s0) && Reports(t.subs[k], below, prev.mat)
    requires Steps(hybrid, t.subs[k], below, v) && Mid(e, t, k, v, needed, d0, s0)
    ensures errors == [] <==> Composed(t.subs[k], below, needed)
    ensures errors == [] ==>
      && Plan(e, s) && s0 <= s && (forall n :: n in s ==> n in s0 || fresh(n))
      && Mid(e, t, k, v, {}, d, s)
  {
    d, errors, s := d0, [], s0;
    var todo := needed;
    while todo != {}
      invariant todo <= needed && errors == []
      invariant Plan(e, s) && s0 <= s && (forall n :: n in s ==> n in s0 || fresh(n))
      invariant Mid(e, t, k, v, todo, d, s) && Composed(t.subs[k], below, needed - todo)
      decreases todo
    {
      var laterCol :| laterCol in todo;
      NextRouted(e, hybrid, t, k, below, v, prev, laterCol, s0, s);
      ComposedMore(t.subs[k], below, needed, todo, laterCol);
      d, errors, s := TakeColumn(e, hybrid, t, k, needed, v, below, tablesBelowChild, prev, laterCol, child, todo, d,
                                 s);
      if errors != [] {
        return;
      }
      todo := todo - {laterCol};
    }
  }

  lemma ComposedMore(sub: Tree, below: View, needed: set<Column>, todo: set<Column>, c: Column)
    requires c in todo && todo <= needed && Composed(sub, below, needed - todo)
    ensures Composed(sub, below, needed - (todo - {c})) <==> Composed(sub, below, {c})
    ensures Composed(sub, below, needed) ==> Composed(sub, below, {c})
  {
  }

  lemma NextRouted(e: Engine, hybrid: bool, t: Tree, k: nat, below: View, v: View, prev: LateData, c: Column,
                   s: set<PlanNode>, s': set<PlanNode>)
    requires WellFormed(t) && k < |t.subs| && Ascended(e, t.subs[k], s) && v.st.Keys == Tables(t) && c in v.needed
    requires Steps(hybrid, t.subs[k], below, v) && Reports(t.subs[k], below, prev.mat)
    requires Carried(e, t.subs[k], |t.subs[k].subs|, below, prev, s) && s <= s'
    ensures Routed(e, t.subs[k], below, v, prev, c, c in prev.mat && UsesData(hybrid, v.needed, c), s')
    ensures Ascended(e, t.subs[k], s')
  {
    CarriedGrows(e, t.subs[k], |t.subs[k].subs|, below, prev, s, s');
    NeedsBelow(e, hybrid, t, k, below, v, prev, c, s');
  }

  lemma AscendedGrows(e: Engine, t: Tree, s: set<PlanNode>, s': set<PlanNode>)
    requires Ascended(e, t, s) && s <= s'
    ensures Ascended(e, t, s')
  {
  }

  /** What the recursive call has established about subtree `t`. */
  ghost predicate Delivered(e: Engine, t: Tree, v: View, inputOfParent: seq<Column>, d: LateData, s: set<PlanNode>)
    reads s
  {
    if t.IsScan() then
      && t.node in s && |t.node.outputs| == 1 && t.node.outputs[0].table in Tables(t)
      && Provides(e, t.node, t.node.outputs[0], t)
      && (forall c :: c in inputOfParent && c.table in Tables(t) ==> t.node.outputs[0] in inputOfParent)
      && d == LateData(map[], map[])
    else
      && Carried(e, t, |t.subs|, v, d, s) && Supplied(e, t, s) && CleanInputs(t, s)
      && (Core(t) || Chain(t) ==> Reports(t, v, d.mat))
  }

  lemma Enter(e: Engine, t: Tree, k: nat, v: View, d: LateData, s0: set<PlanNode>, s: set<PlanNode>)
    requires WellFormed(t) && Carried(e, t, k, v, d, s0) && s0 <= s && k < |t.subs|
    requires k == 0 ==> d == LateData(map[], map[])
    ensures Mid(e, t, k, v, v.needed, d, s)
  {
    forall table | table in Tables(t.subs[k]) ensures table !in d.pos {
      StatusStep(false, t, k, v.needed, table);
    }
    assert v.needed - v.needed == {};
  }

  lemma LeavePositional(e: Engine, t: Tree, k: nat, v: View, d: LateData, s: set<PlanNode>)
    requires e.Sound() && WellFormed(t) && k < |t.subs| && Plan(e, s) && Ascended(e, t.subs[k], s)
    requires Mid(e, t, k, v, {}, d, s)
    ensures |t.subs[k].outputs| > 0
    ensures var sub := t.subs[k];
            var d' := if sub.op.GroupOp? && sub.op.hasAgg
              then d.(mat := d.mat[ValueColumn(sub.op, sub.outputs) := sub.node]) else d;
            Carried(e, t, k + 1, v, d', s)
  {
    var sub := t.subs[k];
    SubsWellFormed(t, k);
    if sub.op.GroupOp? && sub.op.hasAgg {
      SuppliedValues(e, sub, s);
      GroupColumn(sub);
      assert Tables(t) == Tables(sub);
      LeaveGroup(e, t, k, v, d, s);
    } else {
      LeavePlain(e, t, k, v, d, s);
    }
  }

  /** A Group's fourth output is its aggregate, a column no table holds. */
  lemma GroupColumn(t: Tree)
    requires (Core(t) || Chain(t)) && t.op.GroupOp? && t.op.hasAgg
    ensures |t.outputs| == 4 && ValueColumn(t.op, t.outputs) == t.outputs[3] && t.outputs[3].table == AGG
    ensures t.outputs[3] in Computed(t) && AGG !in Tables(t) && |t.subs| == 1
    ensures forall i :: 0 <= i < 3 ==> t.outputs[i].table !in Tables(t)
  {
    TableNames(t);
  }

  /** Once all needed columns have been processed, those of base tables are accounted for. */
  lemma AllListed(e: Engine, t: Tree, k: nat, v: View, d: LateData, s: set<PlanNode>, c: Column)
    requires Mid(e, t, k, v, {}, d, s) && c in v.needed && Below(t, c) && Side(t, c.table) == k
    ensures ListOk(v, c, d)
  {
    if c.table in v.st {
      SideOf(t, k, c.table);
      assert c in v.needed - {};
      assert Mentioned(v.needed - {}, c.table);
    }
  }

  lemma SideOf(t: Tree, k: nat, table: string)
    requires k < |t.subs| && table in Tables(t) && Side(t, table) == k
    ensures table in Tables(t.subs[k])
  {
  }

  lemma LeavePlain(e: Engine, t: Tree, k: nat, v: View, d: LateData, s: set<PlanNode>)
    requires k < |t.subs| && (Core(t.subs[k]) || Chain(t.subs[k])) && IsPositional(t.subs[k].op)
    requires !(t.subs[k].op.GroupOp? && t.subs[k].op.hasAgg) && Mid(e, t, k, v, {}, d, s)
    ensures |t.subs[k].outputs| > 0 && Carried(e, t, k + 1, v, d, s)
  {
    forall c | c in v.needed && Below(t, c) && Side(t, c.table) == k
      ensures ValuesOk(v, c, d) && ListOk(v, c, d) {
      OwnOrBelow(t.subs[k], c);
      AllListed(e, t, k, v, d, s, c);
    }
  }

  /** The Group provides its aggregate. */
  lemma GroupValues(e: Engine, t: Tree, k: nat, v: View, mat: map<Column, PlanNode>, s: set<PlanNode>, c: Column)
    requires k < |t.subs| == 1 && Tables(t) == Tables(t.subs[k]) == v.st.Keys && MatOk(e, t, k + 1, v, mat, s)
    requires var sub := t.subs[k];
             && |sub.outputs| == 4 && c == sub.outputs[3] && c.table == AGG && c in Computed(sub) && AGG !in Tables(sub)
             && (forall i :: 0 <= i < 3 ==> sub.outputs[i].table !in Tables(sub))
             && sub.node in s && sub.node.outputs == sub.outputs && Provides(e, sub.node, c, sub)
    ensures MatOk(e, t, k + 1, v, mat[c := t.subs[k].node], s)
  {
    assert Clean(t.subs[k].node, c, Tables(t));
    MatWith(e, t, k + 1, v, mat, s, c, t.subs[k].node, s);
  }

  lemma LeaveGroup(e: Engine, t: Tree, k: nat, v: View, d: LateData, s: set<PlanNode>)
    requires k < |t.subs| == 1 && (Core(t.subs[k]) || Chain(t.subs[k])) && Tables(t) == Tables(t.subs[k])
    requires t.subs[k].op.GroupOp? && t.subs[k].op.hasAgg && Mid(e, t, k, v, {}, d, s)
    requires var sub := t.subs[k];
             && |sub.outputs| == 4 && sub.outputs[3].table == AGG && sub.outputs[3] in Computed(sub)
                && AGG !in Tables(sub)
             && (forall i :: 0 <= i < 3 ==> sub.outputs[i].table !in Tables(sub))
             && sub.node in s && sub.node.outputs == sub.outputs && Provides(e, sub.node, sub.outputs[3], sub)
    ensures var sub := t.subs[k]; Carried(e, t, k + 1, v, d.(mat := d.mat[sub.outputs[3] := sub.node]), s)
  {
    var sub := t.subs[k];
    var d' := d.(mat := d.mat[sub.outputs[3] := sub.node]);
    GroupValues(e, t, k, v, d.mat, s, sub.outputs[3]);
    forall c | c in v.needed && Below(t, c) && Side(t, c.table) == k
      ensures ValuesOk(v, c, d') && ListOk(v, c, d') {
      OwnOrBelow(sub, c);
      AllListed(e, t, k, v, d, s, c);
      if Below(sub, c) {
        assert ValuesOk(v, c, d);
      }
    }
  }

  /** A base table fetched directly. */
  lemma TakeScan(e: Engine, t: Tree, k: nat, v: View, below: View, d: LateData, s0: set<PlanNode>, s: set<PlanNode>)
    requires WellFormed(t) && k < |t.subs| && t.subs[k].IsScan() && Carried(e, t, k, v, d, s0) && s0 <= s
    requires forall table :: table in Tables(t.subs[k]) ==> table in v.st && v.st[table].OnScan?
    requires Delivered(e, t.subs[k], below, t.inputs, LateData(map[], map[]), s)
    ensures Carried(e, t, k + 1, v, d.(mat := d.mat[t.subs[k].node.outputs[0] := t.subs[k].node]), s)
  {
    var sub := t.subs[k];
    var c := sub.node.outputs[0];
    SubsWellFormed(t, k);
    SeenFromParent(t, k, c);
    assert MatOk(e, t, k + 1, v, d.mat, s0) && PosOk(e, t, k + 1, v, d.pos, s0);
    MatWith(e, t, k + 1, v, d.mat, s0, c, sub.node, s);
    PosGrows(e, t, k + 1, v, d.pos, s0, s);
    NoneYet(e, t, k, v, d.mat, s0);
    ScanAdded(t, k, d.mat, s0, s);
    ScanNeeds(e, t, k, v, d, c, sub.node, s0);
  }

  /** Nothing is asked of a column whose table no operator has moved. */
  lemma ScanNeeds(e: Engine, t: Tree, k: nat, v: View, d: LateData, c: Column, m: PlanNode, s: set<PlanNode>)
    requires WellFormed(t) && k < |t.subs| && t.subs[k].IsScan() && NeedsOk(t, k, v, d) && PosOk(e, t, k, v, d.pos, s)
    requires forall table :: table in Tables(t.subs[k]) ==> table in v.st && v.st[table].OnScan?
    ensures NeedsOk(t, k + 1, v, d.(mat := d.mat[c := m]))
  {
    NeedsStay(v, d, c, m);
    forall x | x in v.needed && Below(t, x) && Side(t, x.table) == k ensures ValuesOk(v, x, d) && ListOk(v, x, d) {
      InputSide(t, x);
    }
  }

  /** A scanned child is known under its one named column. */
  lemma ScanAdded(t: Tree, k: nat, mat: map<Column, PlanNode>, s0: set<PlanNode>, s: set<PlanNode>)
    requires k < |t.subs| && t.subs[k].IsScan() && ScanOk(t, k, mat, s0) && s0 <= s
    requires |t.subs| == 1 || (|t.subs| == 2 && Tables(t.subs[0]) !! Tables(t.subs[1]))
    requires var sub := t.subs[k];
             && sub.node in s && |sub.node.outputs| == 1 && sub.node.outputs[0].table in Tables(sub)
             && (forall c :: c in t.inputs && c.table in Tables(sub) ==> sub.node.outputs[0] in t.inputs)
             && (forall c :: c in mat ==> c.table !in Tables(sub))
    ensures ScanOk(t, k + 1, mat[t.subs[k].node.outputs[0] := t.subs[k].node], s)
  {
  }

  /** No value is known yet for the tables of child k. */
  lemma NoneYet(e: Engine, t: Tree, k: nat, v: View, mat: map<Column, PlanNode>, s: set<PlanNode>)
    requires WellFormed(t) && k < |t.subs| && MatOk(e, t, k, v, mat, s)
    ensures forall x :: x in mat ==> x.table !in Tables(t.subs[k])
  {
    SubsWellFormed(t, k);
    forall x | x in mat ensures x.table !in Tables(t.subs[k]) {
      assert Below(t, x) && Side(t, x.table) < k;
      TableNames(t.subs[0]);
    }
  }

  /** Past a Map only the position lists and the Map's own column are kept. */
  lemma TakeMap(e: Engine, hybrid: bool, t: Tree, v: View, below: View, prev: LateData, s: set<PlanNode>)
    requires e.Sound() && MapBelow(t) && Settled(e, s) && Supplied(e, t.subs[0], s)
    requires PosOk(e, t.subs[0], 1, below, prev.pos, s) && NeedsOk(t.subs[0], 1, below, prev)
    requires Steps(hybrid, t.subs[0], below, v) && v.st.Keys == Tables(t)
    ensures Carried(e, t, 1, v, LateData(prev.pos, map[t.subs[0].outputs[0] := t.subs[0].node]), s)
  {
    MapValues(e, t, v, s);
    NoScan(t, map[t.subs[0].outputs[0] := t.subs[0].node], s);
    MapLists(e, hybrid, t, v, below, prev, s);
    MapNeeds(hybrid, t, v, below, prev, LateData(prev.pos, map[t.subs[0].outputs[0] := t.subs[0].node]));
  }

  /** The only child is a Map. */
  predicate MapBelow(t: Tree) {
    |t.subs| == 1 && t.subs[0].op.MapOp? && Chain(t.subs[0]) && |t.subs[0].outputs| == 1
  }

  /** A Map's result is aligned with its rows. */
  lemma MapValues(e: Engine, t: Tree, v: View, s: set<PlanNode>)
    requires e.Sound() && MapBelow(t) && Settled(e, s) && Supplied(e, t.subs[0], s) && v.st.Keys == Tables(t)
    ensures MatOk(e, t, 1, v, map[t.subs[0].outputs[0] := t.subs[0].node], s)
  {
    var c := t.subs[0].outputs[0];
    MapShape(t.subs[0]);
    SuppliedValues(e, t.subs[0], s);
    assert c in Computed(t.subs[0]) && t.subs[0].node.outputs == [c];
    OneValue(e, t, v, c, t.subs[0].node, s);
  }

  lemma OneValue(e: Engine, t: Tree, v: View, c: Column, m: PlanNode, s: set<PlanNode>)
    requires |t.subs| == 1 && Available(t.subs[0], c) && c.table !in v.st
    requires m in s && m.outputs == [c] && Provides(e, m, c, t.subs[0])
    ensures MatOk(e, t, 1, v, map[c := m], s)
  {
    assert Clean(m, c, Tables(t));
  }

  lemma NoScan(t: Tree, mat: map<Column, PlanNode>, s: set<PlanNode>)
    requires |t.subs| == 1 && !t.subs[0].IsScan()
    ensures ScanOk(t, 1, mat, s)
  {
  }

  /** What is needed above a Map is its result or was needed below it. */
  lemma MapNeeds(hybrid: bool, t: Tree, v: View, below: View, prev: LateData, d: LateData)
    requires MapBelow(t) && NeedsOk(t.subs[0], 1, below, prev) && Steps(hybrid, t.subs[0], below, v)
    requires v.st.Keys == Tables(t) && d.pos == prev.pos && t.subs[0].outputs[0] in d.mat
    ensures NeedsOk(t, 1, v, d)
  {
    var sub := t.subs[0];
    MapShape(sub);
    TableNames(sub.subs[0]);
    forall c | c in v.needed && Below(t, c) ensures ValuesOk(v, c, d) && ListOk(v, c, d) {
      assert Below(sub, c) || c == sub.outputs[0];
      if Below(sub, c) {
        assert ListOk(below, c, prev);
      }
    }
  }

  /** A Map leaves the position lists of its child valid. */
  lemma MapLists(e: Engine, hybrid: bool, t: Tree, v: View, below: View, prev: LateData, s: set<PlanNode>)
    requires e.Sound() && MapBelow(t)
    requires PosOk(e, t.subs[0], 1, below, prev.pos, s) && NeedsOk(t.subs[0], 1, below, prev)
    requires Steps(hybrid, t.subs[0], below, v) && v.st.Keys == Tables(t)
    ensures PosOk(e, t, 1, v, prev.pos, s)
  {
    var sub := t.subs[0];
    MapShape(sub);
    forall table | table in prev.pos && Mentioned(v.needed, table)
      ensures Entry(e, v.st[table], prev.pos[table], table, sub)
    {
      var c :| c in v.needed && c.table == table;
      assert c in below.needed && Mentioned(below.needed, table);
      TableIsBelow(sub, c);
      assert ListOk(below, c, prev);
      MapKeepsRows(e, sub, table);
    }
  }

  lemma MapShape(t: Tree)
    requires Chain(t) && t.op.MapOp?
    ensures |t.subs| == 1 && Core(t.subs[0]) && !t.IsScan() && !Core(t)
    ensures |t.outputs| == 1 && t.outputs[0].table == MAP && MAP !in Tables(t)
    ensures Computed(t) == {t.outputs[0]} && Tables(t) == Tables(t.subs[0])
  {
    TableNames(t);
    TableNames(t.subs[0]);
  }

  // -------------------------------------------------------------------------------------------
  // The pass
  // -------------------------------------------------------------------------------------------

  /** Move what child k reports past the child. */
  method TakeOver(ghost e: Engine, hybrid: bool, ghost t: Tree, ghost k: nat, needed: set<Column>, ghost v: View,
                  child: PlanNode, tablesBelowChild: set<string>, d0: LateData, prev: LateData, ghost s0: set<PlanNode>,
                  ghost s1: set<PlanNode>)
    returns (d: LateData, errors: seq<Error>, ghost s: set<PlanNode>)
    requires e.Sound() && WellFormed(t) && v == ViewOf(hybrid, t, needed) && k < |t.subs| && child == t.subs[k].node
    requires Carried(e, t, k, v, d0, s0) && (k == 0 ==> d0 == LateData(map[], map[]))
    requires s0 <= s1 && tablesBelowChild == Tables(t.subs[k])
    requires PassDone(e, t.subs[k], ViewOf(hybrid, t.subs[k], needed + ColumnSet(t.subs[k].inputs)), t.inputs, prev, s1)
    ensures errors == [] <==> Composes(hybrid, t.subs[k], needed)
    ensures errors == [] ==>
      && Plan(e, s) && s1 <= s && (forall n :: n in s ==> n in s1 || fresh(n))
      && Carried(e, t, k + 1, v, d, s)
  {
    ghost var below := ViewOf(hybrid, t.subs[k], needed + ColumnSet(t.subs[k].inputs));
    SubsWellFormed(t, k);
    ViewSteps(hybrid, t, k, needed);
    if child.outputsPosList {
      d, errors, s := TakePositional(e, hybrid, t, k, needed, v, below, child, tablesBelowChild, d0, prev, s0,
                                     s1);
      ComposedIff(hybrid, t.subs[k], needed);
    } else {
      d := TakeValues(e, hybrid, t, k, v, below, child, d0, prev, s0, s1);
      errors, s := [], s1;
    }
  }

  lemma ComposedIff(hybrid: bool, sub: Tree, needed: set<Column>)
    requires IsPositional(sub.op)
    ensures Composed(sub, ViewOf(hybrid, sub, needed + ColumnSet(sub.inputs)), needed)
            <==> Composes(hybrid, sub, needed)
  {
  }

  /** A child that leaves rows alone: its position lists are kept, its values are remembered. */
  method TakeValues(ghost e: Engine, ghost hybrid: bool, ghost t: Tree, ghost k: nat, ghost v: View, ghost below: View,
                    child: PlanNode, d0: LateData, prev: LateData, ghost s0: set<PlanNode>, ghost s1: set<PlanNode>)
    returns (d: LateData)
    requires e.Sound() && WellFormed(t) && k < |t.subs| && child == t.subs[k].node && child.op == t.subs[k].op
    requires t.subs[k].IsScan() || (t.subs[k].op.MapOp? && Chain(t.subs[k]) && |t.subs| == 1)
    requires Carried(e, t, k, v, d0, s0) && (k == 0 ==> d0 == LateData(map[], map[]))
    requires Plan(e, s1) && s0 <= s1 && StepsOrScan(hybrid, t.subs[k], below, v)
             && Delivered(e, t.subs[k], below, t.inputs, prev, s1)
    requires child.outputs == t.subs[k].outputs || t.subs[k].IsScan()
    ensures Carried(e, t, k + 1, v, d, s1)
  {
    var column := ValueColumn(child.op, child.outputs);
    d := LateData(prev.pos + d0.pos, d0.mat[column := child]);
    if t.subs[k].IsScan() {
      ScanTaken(e, t, k, v, below, d0, prev, s0, s1);
    } else {
      MapTaken(e, hybrid, t, v, below, d0, prev, s1);
    }
  }

  lemma ScanTaken(e: Engine, t: Tree, k: nat, v: View, below: View, d: LateData, prev: LateData, s0: set<PlanNode>,
                  s: set<PlanNode>)
    requires WellFormed(t) && k < |t.subs| && t.subs[k].IsScan() && Carried(e, t, k, v, d, s0) && s0 <= s
    requires forall table :: table in Tables(t.subs[k]) ==> table in v.st && v.st[table].OnScan?
    requires Delivered(e, t.subs[k], below, t.inputs, prev, s)
    ensures var scan := t.subs[k].node;
            Carried(e, t, k + 1, v, LateData(prev.pos + d.pos, d.mat[scan.outputs[0] := scan]), s)
  {
    TakeScan(e, t, k, v, below, d, s0, s);
    assert prev.pos + d.pos == d.pos;
  }

  lemma MapTaken(e: Engine, hybrid: bool, t: Tree, v: View, below: View, d: LateData, prev: LateData, s: set<PlanNode>)
    requires e.Sound() && |t.subs| == 1 && t.subs[0].op.MapOp? && Chain(t.subs[0]) && v.st.Keys == Tables(t)
    requires Plan(e, s) && Steps(hybrid, t.subs[0], below, v) && d == LateData(map[], map[])
    requires Delivered(e, t.subs[0], below, t.inputs, prev, s)
    ensures |t.subs[0].outputs| == 1
    ensures var mapped := t.subs[0];
            Carried(e, t, 1, v, LateData(prev.pos + d.pos, d.mat[mapped.outputs[0] := mapped.node]), s)
  {
    MapShape(t.subs[0]);
    TakeMap(e, hybrid, t, v, below, prev, s);
    assert prev.pos + d.pos == prev.pos;
    assert d.mat[t.subs[0].outputs[0] := t.subs[0].node] == map[t.subs[0].outputs[0] := t.subs[0].node];
  }

  /** A child that outputs positions; a Group may output an aggregate as well. */
  method TakePositional(ghost e: Engine, hybrid: bool, ghost t: Tree, ghost k: nat, needed: set<Column>, ghost v: View,
                        ghost below: View, child: PlanNode, tablesBelowChild: set<string>, d0: LateData, prev: LateData,
                        ghost s0: set<PlanNode>, ghost s1: set<PlanNode>)
    returns (d: LateData, errors: seq<Error>, ghost s: set<PlanNode>)
    requires e.Sound() && WellFormed(t) && k < |t.subs| && child == t.subs[k].node && needed == v.needed
    requires Carried(e, t, k, v, d0, s0) && s0 <= s1 && (k == 0 ==> d0 == LateData(map[], map[]))
    requires Plan(e, s1) && Ascended(e, t.subs[k], s1) && Flagged(t.subs[k]) && tablesBelowChild == Tables(t.subs[k])
    requires Carried(e, t.subs[k], |t.subs[k].subs|, below, prev, s1) && Reports(t.subs[k], below, prev.mat)
    requires Steps(hybrid, t.subs[k], below, v)
    ensures errors == [] <==> Composed(t.subs[k], below, needed)
    ensures errors == [] ==>
      && Plan(e, s) && s1 <= s && (forall n :: n in s ==> n in s1 || fresh(n))
      && Carried(e, t, k + 1, v, d, s)
  {
    Enter(e, t, k, v, d0, s0, s1);
    d, errors, s := TakeNeeded(e, hybrid, t, k, needed, v, below, tablesBelowChild, prev, child, d0, s1);
    if errors == [] {
      AscendedGrows(e, t.subs[k], s1, s);
      LeavePositional(e, t, k, v, d, s);
      if child.outputsMatVals && child.op.hasAgg {
        d := d.(mat := d.mat[ValueColumn(child.op, child.outputs) := child]);
      }
    }
  }

  method TakeOverDone(ghost e: Engine, hybrid: bool, ghost t: Tree, ghost k: nat, needed: set<Column>, ghost v: View,
                      child: PlanNode, tablesBelowChild: set<string>, d0: LateData, prev: LateData,
                      ghost s0: set<PlanNode>, ghost s1: set<PlanNode>)
    returns (d: LateData, errors: seq<Error>, ghost s: set<PlanNode>)
    requires e.Sound() && WellFormed(t) && v == ViewOf(hybrid, t, needed) && k < |t.subs| && child == t.subs[k].node
    requires Carried(e, t, k, v, d0, s0) && (k == 0 ==> d0 == LateData(map[], map[])) && Done(e, t, k, s0)
    requires s0 <= s1 && Nodes(t.subs[k]) <= s1 && tablesBelowChild == Tables(t.subs[k])
             && Untouched(t.subs[k + 1..], s1)
    requires PassDone(e, t.subs[k], ViewOf(hybrid, t.subs[k], needed + ColumnSet(t.subs[k].inputs)), t.inputs, prev, s1)
    ensures errors == [] <==> Composes(hybrid, t.subs[k], needed)
    ensures errors == [] ==>
      && Plan(e, s) && s1 <= s && (forall n :: n in s ==> n in s1 || fresh(n))
      && Carried(e, t, k + 1, v, d, s) && Done(e, t, k + 1, s) && Untouched(t.subs[k + 1..], s)
  {
    assert old(allocated(NodesOf(t.subs[k + 1..])));
    d, errors, s := TakeOver(e, hybrid, t, k, needed, v, child, tablesBelowChild, d0, prev, s0, s1);
    if errors == [] {
      assert Done(e, t, k, s0);
      DoneGrows(e, t, k, s0, s1, s);
    }
  }

  method ProcessChild(ghost e: Engine, hybrid: bool, ghost t: Tree, ghost k: nat, needed: set<Column>, ghost v: View,
                      inputs: seq<Column>, child: PlanNode, d0: LateData, ghost s0: set<PlanNode>)
    returns (tablesBelowChild: set<string>, d: LateData, errors: seq<Error>, ghost s: set<PlanNode>)
    requires e.Sound() && WellFormed(t) && v == ViewOf(hybrid, t, needed)
    requires k < |t.subs| && child == t.subs[k].node && inputs == t.inputs
    requires Untouched(t.subs[k..], s0) && Done(e, t, k, s0) && Layered(e, s0)
    requires Carried(e, t, k, v, d0, s0) && (k == 0 ==> d0 == LateData(map[], map[]))
    modifies Nodes(t.subs[k])
    ensures errors == [] <==> Passes(hybrid, t.subs[k], needed) && Composes(hybrid, t.subs[k], needed)
    ensures errors == [] ==>
      && Untouched(t.subs[k + 1..], s) && Done(e, t, k + 1, s) && Layered(e, s)
      && Carried(e, t, k + 1, v, d, s)
      && s0 <= s && (forall n :: n in s ==> n in s0 || n in Nodes(t.subs[k]) || fresh(n))
      && tablesBelowChild == Tables(t.subs[k])
    decreases t, 0, 0
  {
    SubsWellFormed(t, k);
    ghost var rest := t.subs[k + 1..];
    ghost var below := ViewOf(hybrid, t.subs[k], needed + ColumnSet(t.subs[k].inputs));
    assert t.subs[k..][0] == t.subs[k] && t.subs[k..][1..] == rest;
    var prev;
    ghost var s1;
    tablesBelowChild, prev, errors, s1 := PassChild(e, hybrid, t.subs[k], child, needed, below, inputs, rest, s0);
    d, s := d0, s0;
    if errors == [] {
      assert Carried(e, t, k, v, d0, s0) && Done(e, t, k, s0);
      d, errors, s := TakeOverDone(e, hybrid, t, k, needed, v, child, tablesBelowChild, d0, prev, s0, s1);
    }
  }

  /** One child; the others stay as they are. */
  method PassChild(ghost e: Engine, hybrid: bool, ghost t: Tree, node: PlanNode, above: set<Column>, ghost v: View,
                   inputOfParent: seq<Column>, ghost rest: seq<Tree>, ghost s0: set<PlanNode>)
    returns (tablesBelow: set<string>, d: LateData, errors: seq<Error>, ghost s: set<PlanNode>)
    requires e.Sound() && WellFormed(t) && Unshared(t) && node == t.node && Shape(t)
    requires v == ViewOf(hybrid, t, above + ColumnSet(t.inputs)) && Plan(e, s0) && Nodes(t) !! s0
    requires Untouched(rest, s0) && NodesOf(rest) !! Nodes(t)
    modifies Nodes(t)
    ensures errors == [] <==> Passes(hybrid, t, above)
    ensures errors == [] ==>
      && PassDone(e, t, v, inputOfParent, d, s) && tablesBelow == Tables(t) && Untouched(rest, s)
      && s0 + Nodes(t) <= s && (forall n :: n in s ==> n in s0 || n in Nodes(t) || fresh(n))
    decreases t, 2
  {
    ghost var restNodes := NodesOf(rest);
    tablesBelow, d, errors, s := PutLateMaterialization(e, hybrid, t, node, above, inputOfParent, s0);
    assert old(allocated(restNodes));
  }

  /** The pass gets through the first k children. */
  predicate PassesBelow(hybrid: bool, t: Tree, k: nat, needed: set<Column>) {
    forall j :: 0 <= j < k && j < |t.subs| ==> Passes(hybrid, t.subs[j], needed) && Composes(hybrid, t.subs[j], needed)
  }

  lemma Begin(e: Engine, t: Tree, v: View, s: set<PlanNode>)
    requires v.st.Keys == Tables(t) && Unshared(t) && Shape(t) && Plan(e, s) && Nodes(t) !! s
    ensures Untouched(t.subs[0..], s) && Done(e, t, 0, s) && t.node !in NodesOf(t.subs)
    ensures Carried(e, t, 0, v, LateData(map[], map[]), s)
  {
    assert t.subs[0..] == t.subs && t.subs[..0] == [];
  }

  method ProcessChildren(ghost e: Engine, hybrid: bool, ghost t: Tree, node: PlanNode, needed: set<Column>,
                         ghost v: View, ghost s0: set<PlanNode>)
    returns (tablesBelow: set<string>, d: LateData, errors: seq<Error>, ghost s: set<PlanNode>)
    requires e.Sound() && WellFormed(t) && v == ViewOf(hybrid, t, needed) && Unshared(t) && node == t.node && Shape(t)
    requires Plan(e, s0) && Nodes(t) !! s0
    modifies NodesOf(t.subs)
    ensures errors == [] <==> PassesBelow(hybrid, t, |t.subs|, needed)
    ensures errors == [] ==>
      && Done(e, t, |t.subs|, s) && Layered(e, s) && node !in s
      && Carried(e, t, |t.subs|, v, d, s) && (t.subs == [] ==> d == LateData(map[], map[]))
      && s0 <= s && (forall n :: n in s ==> n in s0 || n in NodesOf(t.subs) || fresh(n))
      && tablesBelow == First(t, |t.subs|)
    decreases t, 1, 0
  {
    Begin(e, t, v, s0);
    tablesBelow, d, errors, s := ProcessAll(e, hybrid, t, node.children, node.inputs, needed, v, s0);
  }

  /** The loop over the children. */
  method ProcessAll(ghost e: Engine, hybrid: bool, ghost t: Tree, kids: seq<PlanNode>, inputs: seq<Column>,
                    needed: set<Column>, ghost v: View, ghost s0: set<PlanNode>)
    returns (tablesBelow: set<string>, d: LateData, errors: seq<Error>, ghost s: set<PlanNode>)
    requires e.Sound() && WellFormed(t) && v == ViewOf(hybrid, t, needed) && inputs == t.inputs
    requires |kids| == |t.subs| && forall k :: 0 <= k < |kids| ==> kids[k] == t.subs[k].node
    requires t.node !in s0 && t.node !in NodesOf(t.subs)
    requires Untouched(t.subs[0..], s0) && Done(e, t, 0, s0) && Layered(e, s0)
    requires Carried(e, t, 0, v, LateData(map[], map[]), s0)
    modifies NodesOf(t.subs)
    ensures errors == [] <==> PassesBelow(hybrid, t, |t.subs|, needed)
    ensures errors == [] ==>
      && Done(e, t, |t.subs|, s) && Layered(e, s) && t.node !in s
      && Carried(e, t, |t.subs|, v, d, s) && (t.subs == [] ==> d == LateData(map[], map[]))
      && s0 <= s && (forall n :: n in s ==> n in s0 || n in NodesOf(t.subs) || fresh(n))
      && tablesBelow == First(t, |t.subs|)
    decreases t, 0, 2
  {
    tablesBelow, d, errors, s := {}, LateData(map[], map[]), [], s0;
    var k := 0;
    while k < |kids|
      invariant k <= |kids| && errors == [] && PassesBelow(hybrid, t, k, needed)
      invariant t.node !in s && Untouched(t.subs[k..], s) && Done(e, t, k, s) && Layered(e, s)
      invariant Carried(e, t, k, v, d, s) && (k == 0 ==> d == LateData(map[], map[]))
      invariant s0 <= s && (forall n :: n in s ==> n in s0 || n in NodesOf(t.subs) || fresh(n))
      invariant tablesBelow == First(t, k)
    {
      MemberNodes(t.subs, k);
      tablesBelow, d, errors, s := ProcessNext(e, hybrid, t, k, needed, v, inputs, kids[k], tablesBelow, d, s);
      if errors != [] {
        return;
      }
      k := k + 1;
    }
  }

  method ProcessNext(ghost e: Engine, hybrid: bool, ghost t: Tree, ghost k: nat, needed: set<Column>, ghost v: View,
                     inputs: seq<Column>, child: PlanNode, tablesBelow0: set<string>, d0: LateData,
                     ghost s0: set<PlanNode>)
    returns (tablesBelow: set<string>, d: LateData, errors: seq<Error>, ghost s: set<PlanNode>)
    requires e.Sound() && WellFormed(t) && v == ViewOf(hybrid, t, needed)
    requires k < |t.subs| && child == t.subs[k].node && inputs == t.inputs
    requires t.node !in s0 && t.node !in NodesOf(t.subs)
    requires PassesBelow(hybrid, t, k, needed) && tablesBelow0 == First(t, k)
    requires Untouched(t.subs[k..], s0) && Done(e, t, k, s0) && Layered(e, s0)
    requires Carried(e, t, k, v, d0, s0) && (k == 0 ==> d0 == LateData(map[], map[]))
    modifies Nodes(t.subs[k])
    ensures errors == [] <==> PassesBelow(hybrid, t, k + 1, needed)
    ensures errors != [] ==> !PassesBelow(hybrid, t, |t.subs|, needed)
    ensures errors == [] ==>
      && t.node !in s && Untouched(t.subs[k + 1..], s) && Done(e, t, k + 1, s) && Layered(e, s)
      && Carried(e, t, k + 1, v, d, s) && tablesBelow == First(t, k + 1)
      && s0 <= s && (forall n :: n in s ==> n in s0 || n in NodesOf(t.subs) || fresh(n))
    decreases t, 0, 1
  {
    MemberNodes(t.subs, k);
    assert old(allocated(t.node));
    var below;
    below, d, errors, s := ProcessChild(e, hybrid, t, k, needed, v, inputs, child, d0, s0);
    tablesBelow := tablesBelow0 + below;
    PassesNext(hybrid, t, k, needed);
  }

  lemma PassesNext(hybrid: bool, t: Tree, k: nat, needed: set<Column>)
    requires k < |t.subs| && PassesBelow(hybrid, t, k, needed)
    ensures PassesBelow(hybrid, t, k + 1, needed)
            <==> Passes(hybrid, t.subs[k], needed) && Composes(hybrid, t.subs[k], needed)
    ensures PassesBelow(hybrid, t, |t.subs|, needed) ==> PassesBelow(hybrid, t, k + 1, needed)
  {
  }

  /** Everything a finished pass has established about subtree `t`; the heart of it is `Correct`. */
  ghost predicate PassDone(e: Engine, t: Tree, v: View, inputOfParent: seq<Column>, d: LateData, s: set<PlanNode>)
    reads s, t.node
  {
    && Plan(e, s) && Correct(e, t, s)
    && t.node.op == t.op && Flagged(t) && Reached(t, s)
    && Delivered(e, t, v, inputOfParent, d, s)
  }

  method PutLateMaterialization(ghost e: Engine, hybrid: bool, ghost t: Tree, node: PlanNode, above: set<Column>,
                                inputOfParent: seq<Column>, ghost s0: set<PlanNode>)
    returns (tablesBelow: set<string>, d: LateData, errors: seq<Error>, ghost s: set<PlanNode>)
    requires e.Sound() && WellFormed(t) && Unshared(t) && node == t.node && Shape(t)
    requires Plan(e, s0) && Nodes(t) !! s0
    modifies Nodes(t)
    ensures errors == [] <==> Passes(hybrid, t, above)
    ensures errors == [] ==>
      && PassDone(e, t, ViewOf(hybrid, t, above + ColumnSet(t.inputs)), inputOfParent, d, s) && tablesBelow == Tables(t)
      && s0 + Nodes(t) <= s && (forall n :: n in s ==> n in s0 || n in Nodes(t) || fresh(n))
    decreases t, 1
  {
    var needed := above + ColumnSet(node.inputs);
    PassesParts(hybrid, t, above, needed);
    ViewScans(hybrid, t, needed);
    tablesBelow, d, errors, s := ProcessNode(e, hybrid, t, node, needed, ViewOf(hybrid, t, needed), inputOfParent, s0);
  }

  /** The children first, then the node itself. */
  method ProcessNode(ghost e: Engine, hybrid: bool, ghost t: Tree, node: PlanNode, needed: set<Column>, ghost v: View,
                     inputOfParent: seq<Column>, ghost s0: set<PlanNode>)
    returns (tablesBelow: set<string>, d: LateData, errors: seq<Error>, ghost s: set<PlanNode>)
    requires e.Sound() && WellFormed(t) && v == ViewOf(hybrid, t, needed) && Unshared(t) && node == t.node && Shape(t)
    requires ColumnSet(t.inputs) <= needed && ScansFound(t, v)
    requires Plan(e, s0) && Nodes(t) !! s0
    modifies Nodes(t)
    ensures errors == [] <==> OneColumnAt(t) && NoneLost(t, v) && PassesBelow(hybrid, t, |t.subs|, needed)
    ensures errors == [] ==>
      && PassDone(e, t, v, inputOfParent, d, s) && tablesBelow == Tables(t)
      && s0 + Nodes(t) <= s && (forall n :: n in s ==> n in s0 || n in Nodes(t) || fresh(n))
    decreases t, 1, 1
  {
    assert Nodes(t) == {node} + NodesOf(t.subs);
    tablesBelow, d, errors, s := ProcessChildren(e, hybrid, t, node, needed, v, s0);
    assert t.subs[..|t.subs|] == t.subs;
    if errors == [] {
      tablesBelow, d, errors, s := Finish(e, t, node, v, inputOfParent, tablesBelow, d, s);
    }
  }

  /** No base column the operator reads is lost. */
  predicate NoneLost(t: Tree, v: View) {
    forall c :: c in t.inputs && c.table in v.st ==> !v.st[c.table].Lost()
  }

  lemma PassesParts(hybrid: bool, t: Tree, above: set<Column>, needed: set<Column>)
    requires needed == above + ColumnSet(t.inputs)
    ensures Passes(hybrid, t, above)
            <==> OneColumnAt(t) && NoneLost(t, ViewOf(hybrid, t, needed)) && PassesBelow(hybrid, t, |t.subs|, needed)
  {
    assert InputsKept(hybrid, t, needed) <==> NoneLost(t, ViewOf(hybrid, t, needed));
  }

  /** Name a scan, or rewire an operator. */
  method Finish(ghost e: Engine, ghost t: Tree, node: PlanNode, ghost v: View,
                inputOfParent: seq<Column>, tablesBelow0: set<string>, d0: LateData, ghost s0: set<PlanNode>)
    returns (tablesBelow: set<string>, d: LateData, errors: seq<Error>, ghost s: set<PlanNode>)
    requires e.Sound() && WellFormed(t) && node == t.node && node !in s0
    requires node.op == t.op && node.inputs == t.inputs && node.outputs == t.outputs && Flagged(t)
    requires t.subs == [] ==> node.children == [] && d0 == LateData(map[], map[])
    requires ColumnSet(t.inputs) <= v.needed && ScansFound(t, v) && tablesBelow0 == First(t, |t.subs|)
    requires Plan(e, s0) && Done(e, t, |t.subs|, s0) && Carried(e, t, |t.subs|, v, d0, s0)
    modifies node
    ensures errors == [] <==> OneColumnAt(t) && NoneLost(t, v)
    ensures errors == [] ==>
      && PassDone(e, t, v, inputOfParent, d, s) && tablesBelow == Tables(t)
      && s0 + {node} <= s && (forall n :: n in s ==> n in s0 || n == node || fresh(n))
  {
    RootShape(t);
    tablesBelow, d, errors, s := tablesBelow0, d0, [], s0;
    if node.op.FetchOp? {
      tablesBelow, s := FinishScan(e, t, node, v, inputOfParent, d, s);
    } else {
      d, errors, s := FinishOperator(e, t, node, v, inputOfParent, d, s);
    }
  }

  lemma RootShape(t: Tree)
    requires WellFormed(t)
    ensures WellFormed(t) && !t.op.MatOp? && |t.subs| <= 2
    ensures t.op.FetchOp? ==> Core(t) && t.subs == []
    ensures !t.op.FetchOp? ==> t.subs != [] && First(t, |t.subs|) == Tables(t)
  {
  }

  /** The base table gets the name of the last column its parent reads from it. */
  method FinishScan(ghost e: Engine, ghost t: Tree, node: PlanNode, ghost v: View,
                    inputOfParent: seq<Column>, ghost d: LateData, ghost s0: set<PlanNode>)
    returns (tablesBelow: set<string>, ghost s: set<PlanNode>)
    requires Core(t) && t.IsScan() && node == t.node && node !in s0
    requires node.op == t.op && node.inputs == t.inputs && node.outputs == t.outputs && Flagged(t)
             && node.children == []
    requires Plan(e, s0) && d == LateData(map[], map[])
    modifies node
    ensures PassDone(e, t, v, inputOfParent, d, s) && s == s0 + {node}
    ensures tablesBelow == Tables(t)
  {
    tablesBelow := {};
    if node.op.wasTableBaseNode {
      NameScan(node, inputOfParent);
      tablesBelow := {node.inputs[0].table};
    }
    Account(e, node, s0);
    FetchWorth(e, node, s0);
    ScanColumn(e, t, node.outputs[0]);
    LayeredWith(e, node, s0);
    s := s0 + {node};
  }

  method NameScan(node: PlanNode, inputOfParent: seq<Column>)
    requires |node.inputs| == 1 && node.outputs == node.inputs
    modifies node`inputs, node`outputs
    ensures |node.inputs| == 1 && node.outputs == node.inputs && node.inputs[0].table == old(node.inputs[0].table)
    ensures forall c :: c in inputOfParent && c.table == node.inputs[0].table ==> node.outputs[0] in inputOfParent
  {
    for i := 0 to |inputOfParent|
      invariant |node.inputs| == 1 && node.outputs == node.inputs && node.inputs[0].table == old(node.inputs[0].table)
      invariant forall j :: 0 <= j < i && inputOfParent[j].table == node.inputs[0].table ==>
                  node.outputs[0] in inputOfParent
    {
      if inputOfParent[i].table == node.inputs[0].table {
        var named := [Column(node.inputs[0].table, inputOfParent[i].name)];
        node.inputs, node.outputs := named, named;
        assert named[0] == inputOfParent[i];
      }
    }
  }

  /** A column can be provided: its child is a scan named after it, or its table is not lost. */
  predicate Known(t: Tree, v: View, mat: map<Column, PlanNode>, c: Column) {
    && t.subs != [] && (t.subs[Side(t, c.table)].IsScan() ==> c in mat)
    && (c.table in v.st ==> !v.st[c.table].Lost())
  }

  ghost predicate SameScans(t: Tree, v: View, mat: map<Column, PlanNode>, mat': map<Column, PlanNode>) {
    mat.Keys <= mat'.Keys && forall c {:trigger Known(t, v, mat', c)} :: Known(t, v, mat, c) <==> Known(t, v, mat', c)
  }

  /** Provide every input column, through the maps or by a Fetch through the table's position list. */
  method Providers(ghost e: Engine, ghost t: Tree, inputs: seq<Column>, ghost v: View,
                   d0: LateData, ghost s0: set<PlanNode>)
    returns (providers: seq<PlanNode>, d: LateData, errors: seq<Error>, ghost s: set<PlanNode>)
    requires e.Sound() && WellFormed(t) && ScansSide(t, v) && inputs == t.inputs && ColumnSet(inputs) <= v.needed
    requires Plan(e, s0) && Carried(e, t, |t.subs|, v, d0, s0)
    ensures Plan(e, s) && Carried(e, t, |t.subs|, v, d, s)
    ensures s0 <= s && (forall n :: n in s ==> n in s0 || fresh(n))
    ensures errors == [] <==> forall c :: c in inputs ==> Known(t, v, d0.mat, c)
    ensures errors == [] ==> |providers| == |inputs| && ProvidersOk(e, t, providers, s)
    ensures errors == [] ==> forall c :: c in inputs ==> c in d.mat
    ensures forall i :: 0 <= i < |providers| ==> providers[i] in s
  {
    providers, d, errors, s := [], d0, [], s0;
    for i := 0 to |inputs|
      invariant Plan(e, s) && Carried(e, t, |t.subs|, v, d, s) && SameScans(t, v, d0.mat, d.mat)
      invariant s0 <= s && (forall n :: n in s ==> n in s0 || fresh(n))
      invariant Gathered(e, t, v, i, d0.mat, d.mat, providers, errors, s)
    {
      ghost var s1 := s;
      var m;
      var error;
      ghost var d1 := d;
      m, error, d, s := Provider(e, t, i, inputs[i], v, d, s);
      GatherStep(e, t, v, i, d0.mat, d1.mat, d.mat, providers, errors, s1, m, error, s);
      if m != null {
        providers := providers + [m];
      } else {
        errors := errors + [error];
      }
    }
  }

  /** The first i input columns have been looked up. */
  ghost predicate Gathered(e: Engine, t: Tree, v: View, i: nat, mat: map<Column, PlanNode>,
                           now: map<Column, PlanNode>, providers: seq<PlanNode>, errors: seq<Error>, s: set<PlanNode>)
    reads s
  {
    && t.subs != [] && i <= |t.inputs|
    && (errors == [] <==> forall j :: 0 <= j < i ==> Known(t, v, mat, t.inputs[j]))
    && (errors == [] ==> |providers| == i && ProvidersOk(e, t, providers, s)
                         && forall j :: 0 <= j < i ==> t.inputs[j] in now)
    && (forall j :: 0 <= j < |providers| ==> providers[j] in s)
  }

  lemma GatherStep(e: Engine, t: Tree, v: View, i: nat, mat: map<Column, PlanNode>, now: map<Column, PlanNode>,
                   now': map<Column, PlanNode>, providers: seq<PlanNode>, errors: seq<Error>, s: set<PlanNode>,
                   m: PlanNode?, error: Error, s': set<PlanNode>)
    requires Gathered(e, t, v, i, mat, now, providers, errors, s) && i < |t.inputs| && s <= s' && now.Keys <= now'.Keys
    requires m != null <==> Known(t, v, mat, t.inputs[i])
    requires m != null ==> ProviderOk(e, t, m, t.inputs[i], s') && t.inputs[i] in now'
    ensures m != null ==> Gathered(e, t, v, i + 1, mat, now', providers + [m], errors, s')
    ensures m == null ==> Gathered(e, t, v, i + 1, mat, now', providers, errors + [error], s')
  {
    if m != null && errors == [] {
      ProvidersGrow(e, t, providers, s, s', m);
    }
  }

  ghost predicate ProviderOk(e: Engine, t: Tree, m: PlanNode, c: Column, s: set<PlanNode>)
    requires t.subs != []
    reads s
  {
    m in s && Provides(e, m, c, t.subs[Side(t, c.table)]) && Clean(m, c, Tables(t))
  }

  ghost predicate ProvidersOk(e: Engine, t: Tree, providers: seq<PlanNode>, s: set<PlanNode>)
    requires t.subs != []
    reads s
  {
    |providers| <= |t.inputs| && forall i :: 0 <= i < |providers| ==> ProviderOk(e, t, providers[i], t.inputs[i], s)
  }

  lemma ProvidersGrow(e: Engine, t: Tree, providers: seq<PlanNode>, s: set<PlanNode>, s': set<PlanNode>, m: PlanNode)
    requires t.subs != [] && ProvidersOk(e, t, providers, s) && s <= s'
    requires |providers| < |t.inputs| && ProviderOk(e, t, m, t.inputs[|providers|], s')
    ensures ProvidersOk(e, t, providers + [m], s')
  {
    forall i | 0 <= i < |providers| ensures ProviderOk(e, t, providers[i], t.inputs[i], s') {
      assert ProviderOk(e, t, providers[i], t.inputs[i], s);
    }
  }

  method Provider(ghost e: Engine, ghost t: Tree, ghost i: nat, idxCol: Column, ghost v: View, d0: LateData,
                  ghost s0: set<PlanNode>)
    returns (m: PlanNode?, error: Error, d: LateData, ghost s: set<PlanNode>)
    requires e.Sound() && WellFormed(t) && ScansSide(t, v)
    requires i < |t.inputs| && idxCol == t.inputs[i] && idxCol in v.needed
    requires Plan(e, s0) && Carried(e, t, |t.subs|, v, d0, s0)
    ensures Plan(e, s) && Carried(e, t, |t.subs|, v, d, s)
    ensures s0 <= s && (forall n :: n in s ==> n in s0 || fresh(n))
    ensures m != null <==> Known(t, v, d0.mat, idxCol)
    ensures SameScans(t, v, d0.mat, d.mat)
    ensures m != null ==> ProviderOk(e, t, m, idxCol, s) && idxCol in d.mat
  {
    d, s := d0, s0;
    SubsWellFormed(t, Side(t, idxCol.table));
    InputsBelow(t, i);
    InputSide(t, idxCol);
    m, error := null, Missing(idxCol);
    WhenKnown(e, t, v, d0, idxCol, s0);
    if idxCol in d.mat {
      m := d.mat[idxCol];
    } else if idxCol.table in d.pos {
      m, error, d, s := ThroughList(e, t, idxCol, v, d0, s0);
    }
  }

  /** A column is known if it has values or its table has a position list. */
  lemma WhenKnown(e: Engine, t: Tree, v: View, d: LateData, c: Column, s: set<PlanNode>)
    requires ScansSide(t, v) && Carried(e, t, |t.subs|, v, d, s) && c in v.needed && Below(t, c)
    ensures ListOk(v, c, d)
    ensures Known(t, v, d.mat, c)
            <==> c in d.mat || (c.table in d.pos && c.table in v.st && v.st[c.table].Listed?)
    ensures c in d.mat ==> ProviderOk(e, t, d.mat[c], c, s)
  {
    SideBelow(t, c.table);
    assert ValuesOk(v, c, d) && ListOk(v, c, d);
    if c in d.mat {
      assert HasValues(t, v, c);
    }
  }

  /** Fetch through the table's position list, if the node it is looked up in has one. */
  method ThroughList(ghost e: Engine, ghost t: Tree, idxCol: Column, ghost v: View,
                     d0: LateData, ghost s0: set<PlanNode>)
    returns (m: PlanNode?, error: Error, d: LateData, ghost s: set<PlanNode>)
    requires e.Sound() && t.subs != [] && Below(t, idxCol) && idxCol.table in d0.pos && idxCol in v.needed
             && idxCol in t.inputs && ListOk(v, idxCol, d0)
    requires |t.subs| == 1 || (|t.subs| == 2 && Tables(t.subs[0]) !! Tables(t.subs[1]))
    requires idxCol.table in Tables(t) ==> idxCol.table in Tables(t.subs[Side(t, idxCol.table)])
    requires Core(t.subs[Side(t, idxCol.table)]) || Chain(t.subs[Side(t, idxCol.table)])
    requires Plan(e, s0) && Carried(e, t, |t.subs|, v, d0, s0)
    ensures Plan(e, s) && Carried(e, t, |t.subs|, v, d, s)
    ensures s0 <= s && (forall n :: n in s ==> n in s0 || fresh(n))
    ensures m != null <==> idxCol.table in v.st && v.st[idxCol.table].Listed?
    ensures SameScans(t, v, d0.mat, d.mat)
    ensures m != null ==> ProviderOk(e, t, m, idxCol, s) && idxCol in d.mat
  {
    m, error, d, s := null, FailedLookup(idxCol), d0, s0;
    var list := d0.pos[idxCol.table];
    if IndexOfTable(list.outputs, idxCol.table) < |list.outputs| {
      var fetched;
      fetched, s := FetchThrough(e, t.subs[Side(t, idxCol.table)], idxCol, list, s0);
      d := d0.(mat := d0.mat[idxCol := fetched]);
      Fetched(e, t, v, d0, s0, idxCol, fetched, s);
      m := fetched;
    }
  }

  /** A readable column of a base table comes from the child that has the table. */
  lemma InputSide(t: Tree, c: Column)
    requires WellFormed(t) && Below(t, c)
    ensures var sub := t.subs[Side(t, c.table)];
            && (c.table in Tables(t) ==> c.table in Tables(sub))
            && (sub.IsScan() ==> c.table in Tables(sub))
  {
    SubsWellFormed(t, Side(t, c.table));
    TableNames(t.subs[Side(t, c.table)]);
  }

  lemma Fetched(e: Engine, t: Tree, v: View, d: LateData, s: set<PlanNode>, c: Column, m: PlanNode, s': set<PlanNode>)
    requires |t.subs| == 1 || (|t.subs| == 2 && Tables(t.subs[0]) !! Tables(t.subs[1]))
    requires c.table in Tables(t) ==> c.table in Tables(t.subs[Side(t, c.table)])
    requires Carried(e, t, |t.subs|, v, d, s) && s <= s' && m in s'
    requires Below(t, c) && c.table in d.pos && m.outputs == [c] && Provides(e, m, c, t.subs[Side(t, c.table)])
    requires c.table in v.st && v.st[c.table].Listed? && c in t.inputs
    ensures Carried(e, t, |t.subs|, v, d.(mat := d.mat[c := m]), s')
    ensures SameScans(t, v, d.mat, d.mat[c := m])
  {
    assert !t.subs[Side(t, c.table)].IsScan();
    MatWith(e, t, |t.subs|, v, d.mat, s, c, m, s');
    PosGrows(e, t, |t.subs|, v, d.pos, s, s');
    ScansKeep(t, v, d.mat, s, c, m, s');
    NeedsStay(v, d, c, m);
  }

  lemma ScansKeep(t: Tree, v: View, mat: map<Column, PlanNode>, s: set<PlanNode>, c: Column, m: PlanNode,
                  s': set<PlanNode>)
    requires ScanOk(t, |t.subs|, mat, s) && s <= s'
    requires |t.subs| == 1 || (|t.subs| == 2 && Tables(t.subs[0]) !! Tables(t.subs[1]))
    requires c.table in Tables(t.subs[Side(t, c.table)]) && !t.subs[Side(t, c.table)].IsScan()
    ensures ScanOk(t, |t.subs|, mat[c := m], s') && SameScans(t, v, mat, mat[c := m])
  {
    var i := Side(t, c.table);
    forall x: Column ensures Known(t, v, mat, x) <==> Known(t, v, mat[c := m], x) {
      if x != c {
        assert x in mat <==> x in mat[c := m];
      }
    }
    assert |t.subs| == 2 ==> c.table !in Tables(t.subs[1 - i]);
  }

  /** All inputs are known exactly when every scanned child is read through one column and no lost table is read. */
  lemma KnownIffOneColumn(t: Tree, v: View, mat: map<Column, PlanNode>, s: set<PlanNode>)
    requires WellFormed(t) && t.subs != [] && ScanOk(t, |t.subs|, mat, s)
    ensures (forall c :: c in t.inputs ==> Known(t, v, mat, c))
            <==> OneColumnAt(t) && NoneLost(t, v)
  {
    ScansNamed(t, mat, s);
  }

  lemma ScansNamed(t: Tree, mat: map<Column, PlanNode>, s: set<PlanNode>)
    requires WellFormed(t) && t.subs != [] && ScanOk(t, |t.subs|, mat, s)
    ensures (forall c :: c in t.inputs && t.subs[Side(t, c.table)].IsScan() ==> c in mat) <==> OneColumnAt(t)
  {
    if forall c :: c in t.inputs && t.subs[Side(t, c.table)].IsScan() ==> c in mat {
      NamedMeansOne(t, mat, s);
    }
    if OneColumnAt(t) {
      forall c | c in t.inputs && t.subs[Side(t, c.table)].IsScan() ensures c in mat {
        OneMeansNamed(t, mat, c, s);
      }
    }
  }

  lemma NamedMeansOne(t: Tree, mat: map<Column, PlanNode>, s: set<PlanNode>)
    requires WellFormed(t) && t.subs != [] && ScanOk(t, |t.subs|, mat, s)
    requires forall c :: c in t.inputs && t.subs[Side(t, c.table)].IsScan() ==> c in mat
    ensures OneColumnAt(t)
  {
    forall c, x, k | c in t.inputs && x in t.inputs && 0 <= k < |t.subs| && t.subs[k].IsScan()
      && c.table in Tables(t.subs[k]) && x.table in Tables(t.subs[k])
      ensures c == x
    {
      SubsWellFormed(t, k);
      SeenFromParent(t, k, c);
      SeenFromParent(t, k, x);
    }
  }

  lemma OneMeansNamed(t: Tree, mat: map<Column, PlanNode>, c: Column, s: set<PlanNode>)
    requires WellFormed(t) && t.subs != [] && ScanOk(t, |t.subs|, mat, s) && OneColumnAt(t)
    requires c in t.inputs && t.subs[Side(t, c.table)].IsScan()
    ensures c in mat
  {
    var i :| 0 <= i < |t.inputs| && t.inputs[i] == c;
    InputsBelow(t, i);
    InputSide(t, c);
    SideBelow(t, c.table);
    assert t.subs[Side(t, c.table)].node.outputs[0] in t.inputs;
  }

  method FinishOperator(ghost e: Engine, ghost t: Tree, node: PlanNode, ghost v: View,
                        ghost inputOfParent: seq<Column>, d0: LateData, ghost s0: set<PlanNode>)
    returns (d: LateData, errors: seq<Error>, ghost s: set<PlanNode>)
    requires e.Sound() && WellFormed(t) && t.subs != [] && node == t.node && node !in s0
    requires node.op == t.op && !node.op.MatOp? && !node.op.FetchOp? && node.inputs == t.inputs
             && node.outputs == t.outputs && Flagged(t)
    requires ColumnSet(t.inputs) <= v.needed && ScansSide(t, v)
    requires Plan(e, s0) && Done(e, t, |t.subs|, s0) && Carried(e, t, |t.subs|, v, d0, s0)
    modifies node`children, node`worth
    ensures errors == [] <==> OneColumnAt(t) && NoneLost(t, v)
    ensures errors == [] ==>
      && PassDone(e, t, v, inputOfParent, d, s)
      && s0 + {node} <= s && (forall n :: n in s ==> n in s0 || n == node || fresh(n))
  {
    var providers;
    ghost var s1;
    providers, d, errors, s1 := Operands(e, t, node.inputs, v, d0, s0);
    assert node !in s1 by { assert old(allocated(node)); }
    s := RewireOperator(e, t, node, v, inputOfParent, providers, d, errors, s0, s1);
  }

  /** Nothing is missing exactly if every scanned child is read through one column and no lost table is read. */
  method Operands(ghost e: Engine, ghost t: Tree, inputs: seq<Column>, ghost v: View, d0: LateData,
                  ghost s0: set<PlanNode>)
    returns (providers: seq<PlanNode>, d: LateData, errors: seq<Error>, ghost s: set<PlanNode>)
    requires e.Sound() && WellFormed(t) && ScansSide(t, v) && inputs == t.inputs && ColumnSet(inputs) <= v.needed
    requires Plan(e, s0) && Done(e, t, |t.subs|, s0) && Carried(e, t, |t.subs|, v, d0, s0)
    ensures Plan(e, s) && s0 <= s && (forall n :: n in s ==> n in s0 || fresh(n))
    ensures forall i :: 0 <= i < |providers| ==> providers[i] in s
    ensures errors == [] <==> OneColumnAt(t) && NoneLost(t, v)
    ensures errors == [] ==> Supplies(e, t, v, providers, d, s0, s)
  {
    KnownIffOneColumn(t, v, d0.mat, s0);
    providers, d, errors, s := Providers(e, t, inputs, v, d0, s0);
    assert Done(e, t, |t.subs|, s0);
  }

  /** All providers have been found. */
  ghost predicate Supplies(e: Engine, t: Tree, v: View, providers: seq<PlanNode>, d: LateData,
                           s0: set<PlanNode>, s1: set<PlanNode>)
    requires t.subs != []
    reads s0, s1
  {
    && |providers| == |t.inputs| && ProvidersOk(e, t, providers, s1)
    && (forall c :: c in t.inputs ==> c in d.mat)
    && Done(e, t, |t.subs|, s0) && Carried(e, t, |t.subs|, v, d, s1)
  }

  method RewireOperator(ghost e: Engine, ghost t: Tree, node: PlanNode, ghost v: View,
                        ghost inputOfParent: seq<Column>, providers: seq<PlanNode>, ghost d: LateData,
                        ghost errors: seq<Error>, ghost s0: set<PlanNode>, ghost s1: set<PlanNode>)
    returns (ghost s: set<PlanNode>)
    requires WellFormed(t) && ScansSide(t, v) && node == t.node && node !in s1 && s0 <= s1
    requires node.op == t.op && !node.op.MatOp? && !node.op.FetchOp? && node.inputs == t.inputs
             && node.outputs == t.outputs && Flagged(t)
    requires Plan(e, s1) && (forall i :: 0 <= i < |providers| ==> providers[i] in s1)
    requires errors == [] ==> Supplies(e, t, v, providers, d, s0, s1)
    modifies node`children, node`worth
    ensures s == s1 + {node}
    ensures errors == [] ==> PassDone(e, t, v, inputOfParent, d, s)
  {
    ghost var found := errors == [];
    RewireSupplied(e, t, node, v, providers, d, found, s0, s1);
    s := s1 + {node};
    if found {
      Finished(e, t, v, inputOfParent, d, s0, s1);
    }
  }

  /** The node is overwritten and what it reads stays. */
  method RewireSupplied(ghost e: Engine, ghost t: Tree, node: PlanNode, ghost v: View, providers: seq<PlanNode>,
                        ghost d: LateData, ghost found: bool, ghost s0: set<PlanNode>, ghost s1: set<PlanNode>)
    requires t.subs != [] && node !in s1 && s0 <= s1 && !node.op.MatOp?
    requires Plan(e, s1) && (forall i :: 0 <= i < |providers| ==> providers[i] in s1)
    requires found ==> Supplies(e, t, v, providers, d, s0, s1)
    modifies node`children, node`worth
    ensures Plan(e, s1 + {node}) && node.children == providers
    ensures found ==> Supplies(e, t, v, providers, d, s0, s1)
  {
    Rewire(e, node, providers, s1);
    assert Layered(e, s1);
    LayeredWith(e, node, s1);
  }

  lemma Finished(e: Engine, t: Tree, v: View, inputOfParent: seq<Column>, d: LateData,
                 s0: set<PlanNode>, s1: set<PlanNode>)
    requires WellFormed(t) && ScansSide(t, v) && t.node !in s1 && s0 <= s1
    requires t.node.op == t.op && t.node.inputs == t.inputs && t.node.outputs == t.outputs && !t.op.FetchOp?
             && Flagged(t)
    requires Plan(e, s1 + {t.node}) && Supplies(e, t, v, t.node.children, d, s0, s1)
    ensures PassDone(e, t, v, inputOfParent, d, s1 + {t.node})
  {
    var s := s1 + {t.node};
    assert LocalReach(t.node, s);
    forall i | 0 <= i < |t.inputs|
      ensures Provides(e, t.node.children[i], t.inputs[i], t.subs[Side(t, t.inputs[i].table)])
      ensures t.node.children[i] in s && Clean(t.node.children[i], t.inputs[i], Tables(t))
    {
      assert ProviderOk(e, t, t.node.children[i], t.inputs[i], s1);
    }
    Supply(e, t, s);
    forall k | 0 <= k < |t.subs| ensures Correct(e, t.subs[k], s) {
      CorrectGrows(e, t.subs[k], s0, s);
    }
    CarriedGrows(e, t, |t.subs|, v, d, s1, s);
    if Core(t) || Chain(t) {
      FinishedReports(e, t, v, d, s);
    }
  }
}
