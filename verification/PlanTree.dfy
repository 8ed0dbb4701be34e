/**
 Plan nodes as the passes find them (mutable objects that may be shared) and the logical tree
 they stand for before a materialization pass runs.

 A logical relation is a sequence of rows; a row maps every base table below the node to a row
 number of that table and carries the values computed by Map and folded aggregates.
 */
module PlanTree {
  import opened Relational

  /**
   The account kept of a node: the values read from its children, the values of its outputs, a
   height that decreases towards the leaves, and the tables that occur in the outputs of the
   nodes reachable from each child and from the node itself.
   */
  datatype Worth = Worth(slots: seq<seq<int>>, den: seq<seq<int>>, rank: nat, below: seq<set<string>>,
                         reach: set<string>)

  class PlanNode {
    var op: Op
    var inputs: seq<Column>
    var outputs: seq<Column>
    var outputsPosList: bool
    var outputsMatVals: bool
    var children: seq<PlanNode>

    // What the node is worth; `Settled` in module PhysicalPlan ties it to the real fields.
    ghost var worth: Worth

    constructor (op: Op, inputs: seq<Column>, outputs: seq<Column>, posList: bool, children: seq<PlanNode>)
      ensures this.op == op && this.inputs == inputs && this.outputs == outputs
      ensures this.outputsPosList == posList && this.outputsMatVals == !posList
      ensures this.children == children
    {
      this.op, this.inputs, this.outputs, this.children := op, inputs, outputs, children;
      this.outputsPosList, this.outputsMatVals := posList, !posList;
    }
  }

  datatype Row = Row(base: map<string, nat>, computed: map<Column, int>)

  /** A logical plan over the nodes that hold it. */
  datatype Tree = Tree(node: PlanNode, op: Op, inputs: seq<Column>, outputs: seq<Column>, subs: seq<Tree>)
  {
    predicate IsScan() { op.FetchOp? }
  }

  // -------------------------------------------------------------------------------------------
  // Rows and columns of a logical relation
  // -------------------------------------------------------------------------------------------

  function RowNumber(row: Row, table: string): nat {
    if table in row.base then row.base[table] else 0
  }

  ghost function Cell(e: Engine, row: Row, c: Column): int {
    if c in row.computed then row.computed[c] else e.Cell(c, RowNumber(row, c.table))
  }

  ghost function ColumnOf(e: Engine, rel: seq<Row>, c: Column): (r: seq<int>)
    ensures |r| == |rel|
    ensures forall i :: 0 <= i < |r| ==> r[i] == Cell(e, rel[i], c)
  {
    seq(|rel|, i requires 0 <= i < |rel| => Cell(e, rel[i], c))
  }

  /** The rows of base table `table` that a relation's rows stand on. */
  function BaseRows(rel: seq<Row>, table: string): (r: seq<int>)
    ensures |r| == |rel|
    ensures forall i :: 0 <= i < |r| ==> r[i] == RowNumber(rel[i], table)
  {
    seq(|rel|, i requires 0 <= i < |rel| => RowNumber(rel[i], table))
  }

  function RowAt(rel: seq<Row>, i: int): Row {
    if 0 <= i < |rel| then rel[i] else Row(map[], map[])
  }

  function Pick(rel: seq<Row>, p: seq<int>): (r: seq<Row>)
    ensures |r| == |p|
    ensures forall i :: 0 <= i < |p| ==> r[i] == RowAt(rel, p[i])
  {
    seq(|p|, i requires 0 <= i < |p| => RowAt(rel, p[i]))
  }

  function Merge(l: Row, r: Row): Row {
    Row(l.base + r.base, l.computed + r.computed)
  }

  function Pair(left: seq<Row>, right: seq<Row>, p: seq<int>, q: seq<int>): (r: seq<Row>)
    requires |p| == |q|
    ensures |r| == |p|
    ensures forall i :: 0 <= i < |p| ==> r[i] == Merge(RowAt(left, p[i]), RowAt(right, q[i]))
  {
    seq(|p|, i requires 0 <= i < |p| => Merge(RowAt(left, p[i]), RowAt(right, q[i])))
  }

  function Extend(rel: seq<Row>, c: Column, vals: seq<int>): (r: seq<Row>)
    requires |vals| == |rel|
    ensures |r| == |rel|
    ensures forall i :: 0 <= i < |rel| ==> r[i] == Row(rel[i].base, rel[i].computed[c := vals[i]])
  {
    seq(|rel|, i requires 0 <= i < |rel| => Row(rel[i].base, rel[i].computed[c := vals[i]]))
  }

  function Scan(n: nat, table: string): (r: seq<Row>)
    ensures |r| == n
    ensures forall i :: 0 <= i < n ==> r[i] == Row(map[table := i], map[])
  {
    seq(n, i requires 0 <= i < n => Row(map[table := i], map[]))
  }

  // -------------------------------------------------------------------------------------------
  // Meaning of a logical tree
  // -------------------------------------------------------------------------------------------

  function Tables(t: Tree): set<string> {
    if |t.subs| == 0 then if |t.inputs| == 0 then {} else {t.inputs[0].table}
    else if |t.subs| == 1 then Tables(t.subs[0])
    else Tables(t.subs[0]) + Tables(t.subs[1])
  }

  /** The columns computed by the Maps and aggregates of `t`. */
  function Computed(t: Tree): set<Column> {
    if |t.subs| == 1 then
      Computed(t.subs[0])
      + (if t.op.MapOp? && |t.outputs| == 1 then {t.outputs[0]}
         else if t.op.GroupOp? && t.op.hasAgg && |t.outputs| == 4 then {t.outputs[3]}
         else {})
    else {}
  }

  /** The child through which a column of `table` reaches the node: 0, or 1 for a join's right side. */
  function Side(t: Tree, table: string): nat {
    if |t.subs| > 1 && table in Tables(t.subs[1]) then 1 else 0
  }

  /** The rows after applying one operator to its input relations. */
  ghost function Apply(e: Engine, t: Tree, left: seq<Row>, right: seq<Row>, cols: seq<seq<int>>): seq<Row> {
    match t.op
    case FetchOp(_) => if |t.inputs| == 0 then [] else Scan(e.Rows(t.inputs[0].table), t.inputs[0].table)
    case JoinOp(_) =>
      var p := e.Positions(t.op, cols);
      if |p| == 2 && |p[0]| == |p[1]| then Pair(left, right, p[0], p[1]) else []
    case MapOp(_) =>
      var v := e.Compute(t.op, cols);
      if |v| == |left| && |t.outputs| == 1 then Extend(left, t.outputs[0], v) else []
    case GroupOp(_, hasAgg) =>
      var p := e.Positions(t.op, cols);
      if |p| == 0 then []
      else if !hasAgg then Pick(left, p[0])
      else
        var v := e.Compute(t.op, cols);
        if |v| == |p[0]| && |t.outputs| == 4 then Extend(Pick(left, p[0]), t.outputs[3], v) else []
    case SelectOp => left
    case _ =>
      var p := e.Positions(t.op, cols);
      if |p| == 0 then [] else Pick(left, p[0])
  }

  /** The relation a tree denotes. */
  ghost function Rel(e: Engine, t: Tree): seq<Row> {
    var left := if |t.subs| > 0 then Rel(e, t.subs[0]) else [];
    var right := if |t.subs| > 1 then Rel(e, t.subs[1]) else [];
    var cols := seq(|t.inputs|, i requires 0 <= i < |t.inputs| =>
      ColumnOf(e, if Side(t, t.inputs[i].table) == 1 then right else left, t.inputs[i]));
    Apply(e, t, left, right, cols)
  }

  /** The input relation of `t` that holds the columns of `table`. */
  ghost function In(e: Engine, t: Tree, table: string): seq<Row>
    requires t.subs != []
  {
    Rel(e, t.subs[Side(t, table)])
  }

  /** The values of the node's input columns. */
  ghost function InputColumns(e: Engine, t: Tree): (cols: seq<seq<int>>)
    requires t.subs != []
    ensures |cols| == |t.inputs|
    ensures forall i :: 0 <= i < |cols| ==> cols[i] == ColumnOf(e, In(e, t, t.inputs[i].table), t.inputs[i])
  {
    seq(|t.inputs|, i requires 0 <= i < |t.inputs| => ColumnOf(e, In(e, t, t.inputs[i].table), t.inputs[i]))
  }

  lemma RelUnfold(e: Engine, t: Tree)
    requires t.subs != []
    ensures Rel(e, t)
            == Apply(e, t, Rel(e, t.subs[0]), if |t.subs| > 1 then Rel(e, t.subs[1]) else [], InputColumns(e, t))
  {
    var left := Rel(e, t.subs[0]);
    var right := if |t.subs| > 1 then Rel(e, t.subs[1]) else [];
    assert InputColumns(e, t) == seq(|t.inputs|, i requires 0 <= i < |t.inputs| =>
      ColumnOf(e, if Side(t, t.inputs[i].table) == 1 then right else left, t.inputs[i]));
  }

  // -------------------------------------------------------------------------------------------
  // Well-formed plans
  // -------------------------------------------------------------------------------------------

  const MAP := "MAP"
  const AGG := "AGG"

  /** A tree of Filters and inner Joins over base tables, no table used twice. */
  predicate Core(t: Tree) {
    match t.op
    case FetchOp(base) =>
      base && t.subs == [] && |t.inputs| == 1 && t.outputs == t.inputs
      && t.inputs[0].table != MAP && t.inputs[0].table != AGG && t.inputs[0].table != ""
    case FilterOp(_, _) =>
      && |t.subs| == 1 && Core(t.subs[0])
      && |t.inputs| > 0 && (forall c :: c in t.inputs ==> c.table in Tables(t.subs[0]))
      && |t.outputs| == 1 && t.outputs[0].table in Tables(t.subs[0])
    case JoinOp(_) =>
      && |t.subs| == 2 && Core(t.subs[0]) && Core(t.subs[1])
      && Tables(t.subs[0]) !! Tables(t.subs[1])
      && |t.inputs| == 2 && t.outputs == t.inputs
      && t.inputs[0].table in Tables(t.subs[0]) && t.inputs[1].table in Tables(t.subs[1])
    case _ => false
  }

  /** A column that can be read above `t`. */
  predicate Available(t: Tree, c: Column) {
    c.table in Tables(t) || c in Computed(t)
  }

  /** A chain of Maps, Groups and Sorts over a core, which may be a bare scan. */
  predicate Chain(t: Tree) {
    if Core(t) then true else
      && |t.subs| == 1
      && |t.inputs| > 0 && (forall c :: c in t.inputs ==> Available(t.subs[0], c))
      && match t.op
         case MapOp(_) =>
           // a Map reads base columns only
           Core(t.subs[0]) && |t.outputs| == 1 && t.outputs[0].table == MAP
         case SortOp(_) =>
           Chain(t.subs[0]) && |t.outputs| == 1 && t.outputs[0].table !in Tables(t.subs[0])
         case GroupOp(_, hasAgg) =>
           && Chain(t.subs[0])
           && |t.outputs| == (if hasAgg then 4 else 3)
           && (forall c :: c in t.outputs ==> c.table !in Tables(t.subs[0]))
           && (hasAgg ==>
                 && t.outputs[3].table == AGG && t.outputs[3] !in Computed(t.subs[0])
                 && IndexOf(t.outputs, t.outputs[3]) == 3)
         case _ => false
  }

  /** No Filter or Join moves the table: a scan, or Maps, Groups and Sorts over one. */
  predicate Bare(t: Tree) {
    t.IsScan() || (|t.subs| == 1 && !Core(t) && Bare(t.subs[0]))
  }

  /** The consumer on top of a plan: the Select, or the Map that feeds an ungrouped aggregate. */
  predicate Consumer(t: Tree) {
    && |t.subs| == 1
       && (t.op.SelectOp? || (t.op.MapOp? && |t.inputs| > 0 && |t.outputs| == 1 && t.outputs[0].table == MAP))
    && (forall c :: c in t.inputs ==> Available(t.subs[0], c))
  }

  /** Consumer over the Filter/Join core. */
  predicate CorePlan(t: Tree) {
    Consumer(t) && Core(t.subs[0])
  }

  /** Consumer over a chain of Map, Group and Sort. */
  predicate ChainPlan(t: Tree) {
    Consumer(t) && t.op.SelectOp? && Chain(t.subs[0])
  }

  predicate WellFormed(t: Tree) {
    Core(t) || Chain(t) || CorePlan(t) || ChainPlan(t)
  }

  lemma ScanIsLeaf(t: Tree)
    requires Core(t) || Chain(t)
    ensures t.IsScan() <==> t.subs == []
    ensures t.IsScan() ==> Core(t)
  {
  }

  lemma CoreSubs(t: Tree, k: nat)
    requires Core(t) && k < |t.subs|
    ensures Core(t.subs[k]) && (|t.subs| == 1 || (|t.subs| == 2 && Tables(t.subs[0]) !! Tables(t.subs[1])))
  {
    if t.op.JoinOp? {
      assert Core(t.subs[0]) && Core(t.subs[1]);
      assert k == 0 || k == 1;
    } else {
      assert |t.subs| == 1 && Core(t.subs[0]);
    }
  }

  lemma CoreKinds(t: Tree)
    requires Core(t)
    ensures IsPositional(t.op) || t.IsScan()
  {
  }

  lemma ChainSubs(t: Tree, k: nat)
    requires Chain(t) && !Core(t) && k < |t.subs|
    ensures |t.subs| == 1 && (Core(t.subs[k]) || Chain(t.subs[k]))
  {
  }

  lemma ChainKinds(t: Tree)
    requires Chain(t)
    ensures IsPositional(t.op) || t.IsScan() || t.op.MapOp?
  {
    if Core(t) { CoreKinds(t); }
  }

  lemma SubsWellFormed(t: Tree, k: nat)
    requires WellFormed(t) && k < |t.subs|
    ensures Core(t.subs[k]) || Chain(t.subs[k])
    ensures |t.subs| == 1 || (|t.subs| == 2 && Core(t) && Tables(t.subs[0]) !! Tables(t.subs[1]))
    ensures Core(t) ==> Core(t.subs[k])
    ensures IsPositional(t.subs[k].op) || t.subs[k].IsScan() || (t.subs[k].op.MapOp? && |t.subs| == 1 && !Core(t))
    ensures t.subs[k].IsScan() <==> t.subs[k].subs == []
  {
    var sub := t.subs[k];
    if Core(t) {
      CoreSubs(t, k);
      CoreKinds(sub);
    } else {
      if Chain(t) { ChainSubs(t, k); }
      assert |t.subs| == 1 && k == 0;
      if Core(sub) { CoreKinds(sub); } else { ChainKinds(sub); }
    }
    ScanIsLeaf(sub);
  }

  /** Virtual columns carry the virtual tables' names, base tables never do. */
  lemma {:induction false} TableNames(t: Tree)
    requires Core(t) || Chain(t)
    ensures MAP !in Tables(t) && AGG !in Tables(t) && "" !in Tables(t)
    ensures forall c :: c in Computed(t) ==> c.table == MAP || c.table == AGG
    ensures Core(t) ==> Computed(t) == {}
    ensures Tables(t) != {}
  {
    for k := 0 to |t.subs|
      invariant forall j :: 0 <= j < k ==>
        && MAP !in Tables(t.subs[j]) && AGG !in Tables(t.subs[j]) && "" !in Tables(t.subs[j])
        && (forall c :: c in Computed(t.subs[j]) ==> c.table == MAP || c.table == AGG)
        && (Core(t.subs[j]) ==> Computed(t.subs[j]) == {})
        && Tables(t.subs[j]) != {}
    {
      TableNames(t.subs[k]);
    }
  }

  // -------------------------------------------------------------------------------------------
  // Rows of a well-formed relation
  // -------------------------------------------------------------------------------------------

  ghost predicate RowsOver(rel: seq<Row>, tables: set<string>, computed: set<Column>) {
    forall i :: 0 <= i < |rel| ==> rel[i].base.Keys == tables && rel[i].computed.Keys == computed
  }

  /** Engine soundness, instantiated at a node of the plan. */
  lemma SoundAt(e: Engine, t: Tree)
    requires e.Sound() && t.subs != []
    ensures e.SoundOn(t.op, InputColumns(e, t))
    ensures |t.subs| == 1 ==> SameLength(InputColumns(e, t))
  {
  }

  lemma PickKeepsRows(rel: seq<Row>, p: seq<int>, tables: set<string>, computed: set<Column>)
    requires RowsOver(rel, tables, computed) && InRange(p, |rel|)
    ensures RowsOver(Pick(rel, p), tables, computed)
  {
  }

  lemma PairKeepsRows(l: seq<Row>, r: seq<Row>, p: seq<int>, q: seq<int>, lt: set<string>, rt: set<string>)
    requires RowsOver(l, lt, {}) && RowsOver(r, rt, {})
    requires |p| == |q| && InRange(p, |l|) && InRange(q, |r|)
    ensures RowsOver(Pair(l, r, p, q), lt + rt, {})
  {
  }

  lemma ExtendKeepsRows(rel: seq<Row>, c: Column, v: seq<int>, tables: set<string>, computed: set<Column>)
    requires RowsOver(rel, tables, computed) && |v| == |rel|
    ensures RowsOver(Extend(rel, c, v), tables, computed + {c})
  {
  }

  /** Every row binds exactly the tables and computed columns below the node. */
  lemma {:induction false} RowsAreComplete(e: Engine, t: Tree)
    requires e.Sound() && (Core(t) || Chain(t))
    ensures RowsOver(Rel(e, t), Tables(t), Computed(t))
  {
    if t.subs != [] {
      var left, cols := Rel(e, t.subs[0]), InputColumns(e, t);
      RelUnfold(e, t);
      SoundAt(e, t);
      RowsAreComplete(e, t.subs[0]);
      if t.op.JoinOp? {
        var right := Rel(e, t.subs[1]);
        var p := e.Positions(t.op, cols);
        RowsAreComplete(e, t.subs[1]);
        TableNames(t.subs[0]);
        TableNames(t.subs[1]);
        PairKeepsRows(left, right, p[0], p[1], Tables(t.subs[0]), Tables(t.subs[1]));
      } else if t.op.MapOp? {
        ExtendKeepsRows(left, t.outputs[0], e.Compute(t.op, cols), Tables(t), Computed(t.subs[0]));
      } else {
        var p := e.Positions(t.op, cols);
        PickKeepsRows(left, p[0], Tables(t), Computed(t.subs[0]));
        if t.op.GroupOp? && t.op.hasAgg {
          ExtendKeepsRows(Pick(left, p[0]), t.outputs[3], e.Compute(t.op, cols), Tables(t), Computed(t.subs[0]));
        }
      }
    }
  }

  // -------------------------------------------------------------------------------------------
  // One operator moves columns and base rows by its position list
  // -------------------------------------------------------------------------------------------

  /** The column is readable at the node's input. */
  predicate Below(t: Tree, c: Column) {
    t.subs != [] && Available(t.subs[Side(t, c.table)], c)
  }

  /** Every input column of an operator is readable at its input. */
  lemma InputsBelow(t: Tree, i: nat)
    requires WellFormed(t) && t.subs != [] && i < |t.inputs|
    ensures Below(t, t.inputs[i]) && Side(t, t.inputs[i].table) < |t.subs|
  {
  }

  /** What is readable above a positional operator was readable below it, or is its aggregate. */
  lemma OwnOrBelow(t: Tree, c: Column)
    requires (Core(t) || Chain(t)) && IsPositional(t.op) && Available(t, c)
    ensures Below(t, c) || (t.op.GroupOp? && t.op.hasAgg && |t.outputs| == 4 && c == t.outputs[3])
  {
  }

  /** A column of a child, seen from the parent. */
  lemma SeenFromParent(t: Tree, k: nat, c: Column)
    requires k < |t.subs| && Available(t.subs[k], c)
    requires |t.subs| == 1 || (|t.subs| == 2 && c.table in Tables(t.subs[k]) && Tables(t.subs[0]) !! Tables(t.subs[1]))
    ensures Below(t, c) && Side(t, c.table) == k
    ensures c.table in Tables(t) <==> c.table in Tables(t.subs[k])
  {
    if |t.subs| == 1 {
      assert Side(t, c.table) == k;
    } else if k == 0 {
      assert c.table !in Tables(t.subs[1]) && Side(t, c.table) == 0;
    } else {
      assert c.table in Tables(t.subs[1]) && Side(t, c.table) == 1;
    }
  }

  lemma TableOfChild(t: Tree, k: nat, table: string)
    requires k < |t.subs| && table in Tables(t.subs[k])
    requires |t.subs| == 1 || (|t.subs| == 2 && Tables(t.subs[0]) !! Tables(t.subs[1]))
    ensures table in Tables(t) && Side(t, table) == k
  {
  }

  /** The position lists of a Filter, Join, Sort or Group node. */
  ghost function Lists(e: Engine, t: Tree): seq<seq<int>>
    requires t.subs != []
  {
    e.Positions(t.op, InputColumns(e, t))
  }

  /** A positional operator: one list per side, pointing into that side's relation. */
  lemma ListsInRange(e: Engine, t: Tree, table: string)
    requires e.Sound() && (Core(t) || Chain(t)) && IsPositional(t.op)
    ensures |Lists(e, t)| > Side(t, table)
    ensures InRange(Lists(e, t)[Side(t, table)], |In(e, t, table)|)
  {
    SoundAt(e, t);
  }

  lemma PickMoves(e: Engine, rel: seq<Row>, p: seq<int>)
    requires InRange(p, |rel|)
    ensures forall c :: ColumnOf(e, Pick(rel, p), c) == Gather(ColumnOf(e, rel, c), p)
    ensures forall table :: BaseRows(Pick(rel, p), table) == Gather(BaseRows(rel, table), p)
  {
  }

  /** A pair of rows shows a column of either side's table with that side's value. */
  lemma PairMoves(e: Engine, l: seq<Row>, r: seq<Row>, p: seq<int>, q: seq<int>, lt: set<string>, rt: set<string>,
                  c: Column)
    requires RowsOver(l, lt, {}) && RowsOver(r, rt, {}) && lt !! rt
    requires |p| == |q| && InRange(p, |l|) && InRange(q, |r|)
    ensures c.table in lt ==>
      && ColumnOf(e, Pair(l, r, p, q), c) == Gather(ColumnOf(e, l, c), p)
      && BaseRows(Pair(l, r, p, q), c.table) == Gather(BaseRows(l, c.table), p)
    ensures c.table in rt ==>
      && ColumnOf(e, Pair(l, r, p, q), c) == Gather(ColumnOf(e, r, c), q)
      && BaseRows(Pair(l, r, p, q), c.table) == Gather(BaseRows(r, c.table), q)
  {
  }

  lemma ExtendKeeps(e: Engine, rel: seq<Row>, x: Column, v: seq<int>)
    requires |v| == |rel|
    ensures ColumnOf(e, Extend(rel, x, v), x) == v
    ensures forall c :: c != x ==> ColumnOf(e, Extend(rel, x, v), c) == ColumnOf(e, rel, c)
    ensures forall table :: BaseRows(Extend(rel, x, v), table) == BaseRows(rel, table)
  {
  }

  /** What one positional operator does to every column and to every table's base rows. */
  lemma Advance(e: Engine, t: Tree, c: Column)
    requires e.Sound() && (Core(t) || Chain(t)) && IsPositional(t.op) && Below(t, c)
    ensures |Lists(e, t)| > Side(t, c.table)
    ensures ColumnOf(e, Rel(e, t), c) == Gather(ColumnOf(e, In(e, t, c.table), c), Lists(e, t)[Side(t, c.table)])
    ensures c.table in Tables(t) ==>
      BaseRows(Rel(e, t), c.table) == Gather(BaseRows(In(e, t, c.table), c.table), Lists(e, t)[Side(t, c.table)])
  {
    var left, p := Rel(e, t.subs[0]), Lists(e, t);
    ListsInRange(e, t, c.table);
    RelUnfold(e, t);
    SoundAt(e, t);
    TableNames(t.subs[0]);
    if t.op.JoinOp? {
      RowsAreComplete(e, t.subs[0]);
      RowsAreComplete(e, t.subs[1]);
      TableNames(t.subs[1]);
      PairMoves(e, left, Rel(e, t.subs[1]), p[0], p[1], Tables(t.subs[0]), Tables(t.subs[1]), c);
    } else {
      PickMoves(e, left, p[0]);
      if t.op.GroupOp? && t.op.hasAgg {
        ExtendKeeps(e, Pick(left, p[0]), t.outputs[3], e.Compute(t.op, InputColumns(e, t)));
      }
    }
  }

  /** `Advance` for a table rather than a column of it. */
  lemma AdvanceRows(e: Engine, t: Tree, table: string)
    requires e.Sound() && (Core(t) || Chain(t)) && IsPositional(t.op) && table in Tables(t)
    ensures |Lists(e, t)| > Side(t, table)
    ensures BaseRows(Rel(e, t), table) == Gather(BaseRows(In(e, t, table), table), Lists(e, t)[Side(t, table)])
  {
    Advance(e, t, Column(table, ""));
  }

  /** The first operator over a base table: its list is the table's position list. */
  lemma FirstRows(e: Engine, t: Tree, table: string)
    requires e.Sound() && Core(t) && IsPositional(t.op) && table in Tables(t)
    requires t.subs[Side(t, table)].IsScan()
    ensures |Lists(e, t)| > Side(t, table)
    ensures BaseRows(Rel(e, t), table) == Lists(e, t)[Side(t, table)]
  {
    AdvanceRows(e, t, table);
    ListsInRange(e, t, table);
  }

  /** A column above a base relation is the base column gathered by the base rows. */
  lemma ColumnFromRows(e: Engine, t: Tree, c: Column)
    requires e.Sound() && (Core(t) || Chain(t)) && c.table in Tables(t)
    ensures ColumnOf(e, Rel(e, t), c) == Gather(e.BaseColumn(c), BaseRows(Rel(e, t), c.table))
  {
    RowsAreComplete(e, t);
    RowNumbersInRange(e, t, c.table);
    TableNames(t);
  }

  lemma {:induction false} RowNumbersInRange(e: Engine, t: Tree, table: string)
    requires e.Sound() && (Core(t) || Chain(t)) && table in Tables(t)
    ensures InRange(BaseRows(Rel(e, t), table), e.Rows(table))
  {
    if t.subs != [] {
      RowNumbersInRange(e, t.subs[Side(t, table)], table);
      if IsPositional(t.op) {
        AdvanceRows(e, t, table);
        ListsInRange(e, t, table);
      } else {
        MapKeepsRows(e, t, table);
      }
    }
  }

  /** A base column needs no positions. */
  lemma ScanColumn(e: Engine, t: Tree, c: Column)
    requires Core(t) && t.IsScan() && c.table in Tables(t)
    ensures ColumnOf(e, Rel(e, t), c) == e.BaseColumn(c)
  {
  }

  /** A Map adds a column and leaves rows alone. */
  lemma MapKeepsRows(e: Engine, t: Tree, table: string)
    requires e.Sound() && Chain(t) && t.op.MapOp?
    ensures BaseRows(Rel(e, t), table) == BaseRows(Rel(e, t.subs[0]), table)
    ensures forall c :: c in Computed(t.subs[0]) || c.table in Tables(t) ==>
      ColumnOf(e, Rel(e, t), c) == ColumnOf(e, Rel(e, t.subs[0]), c)
    ensures ColumnOf(e, Rel(e, t), t.outputs[0]) == e.Compute(t.op, InputColumns(e, t))
  {
    RelUnfold(e, t);
    SoundAt(e, t);
    RowsAreComplete(e, t.subs[0]);
    TableNames(t.subs[0]);
  }

  /** The aggregate a Group computes is a column of the relation above it. */
  lemma GroupComputes(e: Engine, t: Tree)
    requires e.Sound() && Chain(t) && t.op.GroupOp? && t.op.hasAgg
    ensures ColumnOf(e, Rel(e, t), t.outputs[3]) == e.Compute(t.op, InputColumns(e, t))
  {
    RelUnfold(e, t);
    SoundAt(e, t);
  }
}
