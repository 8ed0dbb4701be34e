/**
 Computed columns: the eager pass leaves the result of a Map or of an aggregate as it was computed,
 so an operator above reads it in the order and length of the rows it was computed over.
 */
module StaleColumns {
  import opened Relational
  import opened PlanTree
  import opened Rewiring

  /** The node computes the column itself. */
  predicate Computes(t: Tree, c: Column) {
    || (t.op.MapOp? && |t.outputs| == 1 && c == t.outputs[0])
    || (t.op.GroupOp? && t.op.hasAgg && |t.outputs| == 4 && c == t.outputs[3])
  }

  /** The subtree that computes the column. */
  function Origin(t: Tree, c: Column): Tree {
    if |t.subs| == 1 && !Computes(t, c) then Origin(t.subs[0], c) else t
  }

  /** Each computed column the node reads is over its input relation what it was where it was computed. */
  ghost predicate FreshAt(e: Engine, t: Tree) {
    forall c :: c in t.inputs && t.subs != [] && c.table !in Tables(t) ==>
      ColumnOf(e, Rel(e, Origin(t.subs[0], c)), c) == ColumnOf(e, Rel(e, t.subs[0]), c)
  }

  ghost predicate Fresh(e: Engine, t: Tree) {
    FreshAt(e, t) && forall k :: 0 <= k < |t.subs| ==> Fresh(e, t.subs[k])
  }

  /** No computed column is read above an operator that filters or reorders rows after it was computed. */
  predicate NoStale(t: Tree, above: set<Column>) {
    var needed := above + ColumnSet(t.inputs);
    forall k :: 0 <= k < |t.subs| ==>
      && (IsPositional(t.subs[k].op) && t.subs[k].subs != [] ==> needed !! Computed(t.subs[k].subs[0]))
      && NoStale(t.subs[k], needed)
  }

  /** The column's origin is the subtree, or further down. */
  lemma OriginBelow(t: Tree, c: Column)
    requires Chain(t) && c in Computed(t)
    ensures if Computes(t, c) then Origin(t, c) == t
            else !Core(t) && |t.subs| == 1 && Chain(t.subs[0]) && (t.op.SortOp? || t.op.GroupOp?)
                 && c in Computed(t.subs[0]) && Origin(t, c) == Origin(t.subs[0], c)
  {
    TableNames(t);
    if !Computes(t, c) {
      ChainSubs(t, 0);
      TableNames(t.subs[0]);
    }
  }

  lemma InputsOrigin(t: Tree, c: Column)
    requires WellFormed(t) && t.subs != [] && c in t.inputs && c.table !in Tables(t)
    ensures |t.subs| == 1 && Chain(t.subs[0]) && c in Computed(t.subs[0])
  {
    var i :| 0 <= i < |t.inputs| && t.inputs[i] == c;
    InputsBelow(t, i);
    SubsWellFormed(t, Side(t, c.table));
    TableNames(t.subs[Side(t, c.table)]);
  }

  lemma {:induction false} FreshUnlessStale(e: Engine, t: Tree, above: set<Column>)
    requires WellFormed(t) && NoStale(t, above)
    ensures Fresh(e, t)
  {
    forall c | c in t.inputs && t.subs != [] && c.table !in Tables(t) ensures Origin(t.subs[0], c) == t.subs[0] {
      InputsOrigin(t, c);
      OriginBelow(t.subs[0], c);
      assert c in ColumnSet(t.inputs);
    }
    forall k | 0 <= k < |t.subs| ensures Fresh(e, t.subs[k]) {
      SubsWellFormed(t, k);
      FreshUnlessStale(e, t.subs[k], above + ColumnSet(t.inputs));
    }
  }

  // -------------------------------------------------------------------------------------------
  // Engines that move rows
  // -------------------------------------------------------------------------------------------

  /** How Sort and Group treat their rows: the last one goes, or the order turns. */
  datatype Motion = DropLast | Turn

  function Upto(n: nat): (r: seq<int>)
    ensures |r| == n
    ensures forall i :: 0 <= i < n ==> r[i] == i
  {
    seq(n, i => i)
  }

  function Downfrom(n: nat): (r: seq<int>)
    ensures |r| == n
    ensures forall i :: 0 <= i < n ==> r[i] == n - 1 - i
  {
    seq(n, i => n - 1 - i)
  }

  function Listed(motion: Motion, op: Op, n: nat): (r: seq<int>)
    ensures InRange(r, n)
    ensures motion.DropLast? && (op.SortOp? || op.GroupOp?) && n > 0 ==> |r| == n - 1
    ensures motion.Turn? || !(op.SortOp? || op.GroupOp?) ==> |r| == n
  {
    if motion.Turn? then if op.SortOp? then Downfrom(n) else Upto(n)
    else if (op.SortOp? || op.GroupOp?) && n > 0 then Upto(n - 1)
    else Upto(n)
  }

  function MovedLists(motion: Motion, op: Op, cols: seq<seq<int>>): seq<seq<int>> {
    if |cols| == 0 then []
    else
      var n := if op.JoinOp? && |cols| == 2 && |cols[1]| < |cols[0]| then |cols[1]| else |cols[0]|;
      var p := Listed(motion, op, n);
      if op.JoinOp? then [p, p] else if op.GroupOp? then [p, p, p] else [p]
  }

  function MovedValues(motion: Motion, op: Op, cols: seq<seq<int>>): seq<int> {
    if |cols| == 0 then [] else Listed(motion, op, |cols[0]|)
  }

  /** Every table has n rows, Filters keep all rows, Joins pair equal row numbers. */
  ghost function MovingEngine(motion: Motion, n: nat, tables: set<string>): Engine {
    Engine(map table | table in tables :: n, imap[],
           imap c: Call | true :: MovedLists(motion, c.op, c.cols),
           imap c: Call | true :: MovedValues(motion, c.op, c.cols))
  }

  lemma MovingIsSound(motion: Motion, n: nat, tables: set<string>)
    ensures MovingEngine(motion, n, tables).Sound()
  {
  }

  /** How many Sorts and Groups the rows have gone through. */
  function Moves(t: Tree): nat {
    if |t.subs| == 1 then Moves(t.subs[0]) + (if t.op.SortOp? || t.op.GroupOp? then 1 else 0) else 0
  }

  lemma {:induction false} CoreMoves(t: Tree)
    requires Core(t)
    ensures Moves(t) == 0
  {
    if t.op.FilterOp? {
      CoreMoves(t.subs[0]);
    }
  }

  lemma RowsJoined(motion: Motion, n: nat, tables: set<string>, t: Tree)
    requires Core(t) && t.op.JoinOp?
    requires |Rel(MovingEngine(motion, n, tables), t.subs[0])| == |Rel(MovingEngine(motion, n, tables), t.subs[1])| == n
    ensures |Rel(MovingEngine(motion, n, tables), t)| == n
  {
    RelUnfold(MovingEngine(motion, n, tables), t);
  }

  lemma RowsMoved(motion: Motion, n: nat, tables: set<string>, t: Tree)
    requires (Core(t) || Chain(t)) && |t.subs| == 1
    ensures var below := |Rel(MovingEngine(motion, n, tables), t.subs[0])|;
            |Rel(MovingEngine(motion, n, tables), t)|
            == if motion.DropLast? && (t.op.SortOp? || t.op.GroupOp?) && below > 0 then below - 1 else below
  {
    var e := MovingEngine(motion, n, tables);
    MovingIsSound(motion, n, tables);
    RelUnfold(e, t);
    SoundAt(e, t);
  }

  lemma {:induction false} RowsLeft(motion: Motion, n: nat, tables: set<string>, t: Tree)
    requires (Core(t) || Chain(t)) && Tables(t) <= tables && Moves(t) <= n
    ensures |Rel(MovingEngine(motion, n, tables), t)| == if motion.DropLast? then n - Moves(t) else n
  {
    if t.subs != [] {
      SubsWellFormed(t, 0);
      if t.op.JoinOp? {
        CoreMoves(t.subs[0]);
        CoreMoves(t.subs[1]);
        RowsLeft(motion, n, tables, t.subs[0]);
        RowsLeft(motion, n, tables, t.subs[1]);
        RowsJoined(motion, n, tables, t);
      } else {
        RowsLeft(motion, n, tables, t.subs[0]);
        RowsMoved(motion, n, tables, t);
      }
    }
  }

  // -------------------------------------------------------------------------------------------
  // The condition is exact
  // -------------------------------------------------------------------------------------------

  /** Rows have been moved since the column was computed. */
  predicate StaleAt(t: Tree, c: Column) {
    c in Computed(t) && Moves(Origin(t, c)) < Moves(t)
  }

  lemma {:induction false} OriginMoves(t: Tree, c: Column)
    requires Chain(t) && c in Computed(t)
    ensures Moves(Origin(t, c)) <= Moves(t) && Chain(Origin(t, c)) && Tables(Origin(t, c)) == Tables(t)
  {
    OriginBelow(t, c);
    if !Computes(t, c) {
      OriginMoves(t.subs[0], c);
    }
  }

  /** An operator that reads such a column reads too many rows. */
  lemma StaleRead(n: nat, tables: set<string>, t: Tree, c: Column)
    requires WellFormed(t) && Tables(t) <= tables && Moves(t) <= n && c in t.inputs
    requires |t.subs| == 1 && StaleAt(t.subs[0], c)
    ensures !FreshAt(MovingEngine(DropLast, n, tables), t)
  {
    var e, sub := MovingEngine(DropLast, n, tables), t.subs[0];
    SubsWellFormed(t, 0);
    TableNames(sub);
    OriginMoves(sub, c);
    RowsLeft(DropLast, n, tables, sub);
    RowsLeft(DropLast, n, tables, Origin(sub, c));
    assert |ColumnOf(e, Rel(e, Origin(sub, c)), c)| != |ColumnOf(e, Rel(e, sub), c)|;
  }

  /** What is stale at the input and not read there is stale above, too. */
  lemma StaysStale(t: Tree, c: Column)
    requires WellFormed(t) && |t.subs| == 1 && StaleAt(t.subs[0], c)
    ensures StaleAt(t, c)
  {
    SubsWellFormed(t, 0);
    var sub := t.subs[0];
    TableNames(sub);
    assert !Core(sub) && Chain(sub) && !Core(t);
    assert !Computes(t, c);
  }

  /** A violation shows at a reader below, or the column is stale at the top. */
  lemma {:induction false} StaleShows(n: nat, tables: set<string>, t: Tree, above: set<Column>)
    requires WellFormed(t) && Tables(t) <= tables && Moves(t) <= n
    requires !NoStale(t, above)
    ensures !Fresh(MovingEngine(DropLast, n, tables), t) || exists c :: c in above && StaleAt(t, c)
    decreases t, 1
  {
    var e, needed := MovingEngine(DropLast, n, tables), above + ColumnSet(t.inputs);
    var k :| 0 <= k < |t.subs|
             && !((IsPositional(t.subs[k].op) && t.subs[k].subs != [] ==> needed !! Computed(t.subs[k].subs[0]))
                  && NoStale(t.subs[k], needed));
    var c := StaleBelow(n, tables, t, k, needed);
    if Fresh(e, t) {
      StaysStale(t, c);
      if c in t.inputs {
        StaleRead(n, tables, t, c);
      }
    }
  }

  lemma {:induction false} StaleBelow(n: nat, tables: set<string>, t: Tree, k: nat, needed: set<Column>)
    returns (c: Column)
    requires WellFormed(t) && Tables(t) <= tables && Moves(t) <= n && k < |t.subs|
    requires !((IsPositional(t.subs[k].op) && t.subs[k].subs != [] ==> needed !! Computed(t.subs[k].subs[0]))
               && NoStale(t.subs[k], needed))
    ensures !Fresh(MovingEngine(DropLast, n, tables), t) || (|t.subs| == 1 && c in needed && StaleAt(t.subs[0], c))
    decreases t, 0
  {
    var sub := t.subs[k];
    SubsWellFormed(t, k);
    if NoStale(sub, needed) {
      c :| c in needed && c in Computed(sub.subs[0]);
      SubsWellFormed(sub, 0);
      TableNames(sub.subs[0]);
      TableNames(sub);
      MovedSince(sub, c);
    } else {
      if Core(t) { CoreMoves(t); CoreMoves(sub); }
      StaleShows(n, tables, sub, needed);
      if Fresh(MovingEngine(DropLast, n, tables), t) {
        c :| c in needed && StaleAt(sub, c);
        TableNames(sub);
      } else {
        c := Column("", "");
      }
    }
  }

  lemma MovedSince(t: Tree, c: Column)
    requires Chain(t) && !Core(t) && (t.op.SortOp? || t.op.GroupOp?) && c in Computed(t.subs[0])
    ensures StaleAt(t, c)
  {
    ChainSubs(t, 0);
    OriginMoves(t.subs[0], c);
    OriginBelow(t, c);
  }

  /** The static condition says exactly that no engine can make a computed column stale. */
  lemma NoStaleIsExact(t: Tree)
    requires WellFormed(t)
    ensures NoStale(t, {}) <==> forall e: Engine :: e.Sound() ==> Fresh(e, t)
  {
    if NoStale(t, {}) {
      forall e: Engine | e.Sound() ensures Fresh(e, t) {
        FreshUnlessStale(e, t, {});
      }
    } else {
      var e := MovingEngine(DropLast, Moves(t), Tables(t));
      MovingIsSound(DropLast, Moves(t), Tables(t));
      StaleShows(Moves(t), Tables(t), t, {});
      assert e.Sound() && !Fresh(e, t);
    }
  }

  // -------------------------------------------------------------------------------------------
  // A query on which the eager pass is wrong
  // -------------------------------------------------------------------------------------------

  const SUM := Column(AGG, "SUM")

  function Filtered(filter: PlanNode, scan: PlanNode, a: Column): Tree {
    Tree(filter, FilterOp(EQ, [0]), [a], [a], [Tree(scan, FetchOp(true), [a], [a], [])])
  }

  function Summed(group: PlanNode, below: Tree, b: Column, v: Column): Tree {
    Tree(group, GroupOp([true], true), [b, v],
         [Column("GROUP", b.name), Column("GROUP", b.name + "_srt"), Column("GROUP", b.name + "_clus"), SUM], [below])
  }

  function BySum(sort: PlanNode, below: Tree): Tree {
    Tree(sort, SortOp([true]), [SUM], [Column("SORT", "SUM")], [below])
  }

  /** SELECT b, SUM(v) FROM T WHERE a = 0 GROUP BY b ORDER BY SUM(v). */
  function SumQuery(select: PlanNode, sort: PlanNode, group: PlanNode, filter: PlanNode, scan: PlanNode,
                    a: Column, b: Column, v: Column): Tree {
    Tree(select, SelectOp, [b, SUM], [b, SUM], [BySum(sort, Summed(group, Filtered(filter, scan, a), b, v))])
  }

  predicate OneTable(a: Column, b: Column, v: Column) {
    a.table == b.table == v.table && a.table !in {"", MAP, AGG, "GROUP", "SORT"}
  }

  lemma FilteredShape(filter: PlanNode, scan: PlanNode, a: Column)
    requires OneTable(a, a, a)
    ensures var t := Filtered(filter, scan, a); Core(t) && Tables(t) == {a.table} && Computed(t) == {} && Moves(t) == 0
  {
    var t := Filtered(filter, scan, a);
    assert Core(t.subs[0]) && Tables(t.subs[0]) == {a.table} && Moves(t.subs[0]) == 0;
    assert Computed(t.subs[0]) == {};
  }

  lemma SummedShape(group: PlanNode, below: Tree, b: Column, v: Column)
    requires OneTable(b, b, v) && Core(below) && Tables(below) == {b.table} && Computed(below) == {}
    ensures var t := Summed(group, below, b, v);
            Chain(t) && !Core(t) && Tables(t) == {b.table} && Computed(t) == {SUM} && Origin(t, SUM) == t
              && Moves(t) == Moves(below) + 1
  {
    var t := Summed(group, below, b, v);
    assert t.subs == [below];
    assert t.outputs[0].table == t.outputs[1].table == t.outputs[2].table == "GROUP";
  }

  lemma BySumShape(sort: PlanNode, below: Tree)
    requires Chain(below) && !Core(below) && Computed(below) == {SUM} && Origin(below, SUM) == below
             && "SORT" !in Tables(below)
    ensures var t := BySum(sort, below);
            && Chain(t) && !Core(t) && Tables(t) == Tables(below) && Computed(t) == {SUM} && Origin(t, SUM) == below
            && Moves(t) == Moves(below) + 1
  {
    var t := BySum(sort, below);
    assert t.subs == [below];
  }

  lemma SumQueryShape(select: PlanNode, sort: PlanNode, group: PlanNode, filter: PlanNode, scan: PlanNode,
                      a: Column, b: Column, v: Column)
    requires OneTable(a, b, v)
    ensures var t := SumQuery(select, sort, group, filter, scan, a, b, v);
            var sorted := t.subs[0];
            var summed := sorted.subs[0];
            && ChainPlan(t) && |t.subs| == 1 && Chain(sorted) && !Core(sorted) && Chain(summed) && !Core(summed)
            && Tables(t) == Tables(sorted) == Tables(summed) == {a.table}
            && sorted.op.SortOp? && sorted.inputs == [SUM]
            && summed.op.GroupOp? && summed.op.hasAgg && |summed.outputs| == 4 && summed.outputs[3] == SUM
            && Computed(sorted) == Computed(summed) == {SUM} && Origin(sorted, SUM) == summed && Moves(summed) == 1
  {
    FilteredShape(filter, scan, a);
    SummedShape(group, Filtered(filter, scan, a), b, v);
    BySumShape(sort, Summed(group, Filtered(filter, scan, a), b, v));
  }

  /** Sums 0 and 1 of two groups, and the same sums after a Sort that turns the rows round. */
  lemma SumsTurn(tables: set<string>, t: Tree)
    requires Chain(t) && !Core(t) && t.op.SortOp? && t.inputs == [SUM] && Tables(t) <= tables
    requires Chain(t.subs[0]) && !Core(t.subs[0]) && Tables(t.subs[0]) == Tables(t) && Moves(t.subs[0]) <= 2
    requires t.subs[0].op.GroupOp? && t.subs[0].op.hasAgg && |t.subs[0].outputs| == 4 && t.subs[0].outputs[3] == SUM
    requires SUM in Computed(t.subs[0])
    ensures var e := MovingEngine(Turn, 2, tables);
            && Lists(e, t) == [[1, 0]]
            && ColumnOf(e, Rel(e, t), SUM) == [1, 0] && ColumnOf(e, Rel(e, t.subs[0]), SUM) == [0, 1]
  {
    var e, summed := MovingEngine(Turn, 2, tables), t.subs[0];
    MovingIsSound(Turn, 2, tables);
    RowsLeft(Turn, 2, tables, summed);
    GroupComputes(e, summed);
    TwoRows(e, tables, summed);
    SortTurns(e, tables, t);
    Advance(e, t, SUM);
    TurnedTwo();
  }

  lemma SortTurns(e: Engine, tables: set<string>, t: Tree)
    requires e == MovingEngine(Turn, 2, tables) && |t.subs| == 1 && t.op.SortOp? && t.inputs == [SUM]
    requires ColumnOf(e, Rel(e, t.subs[0]), SUM) == [0, 1]
    ensures Lists(e, t) == [[1, 0]]
  {
    assert InputColumns(e, t)[0] == [0, 1];
    assert Lists(e, t) == [Downfrom(2)] && Downfrom(2) == [1, 0];
  }

  lemma TurnedTwo()
    ensures Gather([0, 1], [1, 0]) == [1, 0]
  {
  }

  lemma TwoRows(e: Engine, tables: set<string>, t: Tree)
    requires e == MovingEngine(Turn, 2, tables) && t.subs != [] && t.inputs != [] && t.op.GroupOp? && |Rel(e, t)| == 2
    requires ColumnOf(e, Rel(e, t), SUM) == e.Compute(t.op, InputColumns(e, t))
    ensures ColumnOf(e, Rel(e, t), SUM) == [0, 1]
  {
    assert e.Compute(t.op, InputColumns(e, t)) == Upto(2);
  }

  /**
   Two groups, sorted the other way round: the Select would have to read the sums in the new order,
   but the column it is given is still in the order the Group left it in.
   */
  lemma SumQueryIsStale(select: PlanNode, sort: PlanNode, group: PlanNode, filter: PlanNode, scan: PlanNode,
                        a: Column, b: Column, v: Column)
    requires OneTable(a, b, v)
    ensures var t := SumQuery(select, sort, group, filter, scan, a, b, v);
            var e := MovingEngine(Turn, 2, {a.table});
            && ChainPlan(t) && e.Sound() && Lists(e, t.subs[0]) == [[1, 0]]
            && ColumnOf(e, Rel(e, t.subs[0]), SUM) == [1, 0]
               && ColumnOf(e, Rel(e, Origin(t.subs[0], SUM)), SUM) == [0, 1]
            && !Fresh(e, t) && !NoStale(t, {})
  {
    var t := SumQuery(select, sort, group, filter, scan, a, b, v);
    var e := MovingEngine(Turn, 2, {a.table});
    SumQueryShape(select, sort, group, filter, scan, a, b, v);
    MovingIsSound(Turn, 2, {a.table});
    SumsTurn({a.table}, t.subs[0]);
    ReadsStale(e, t, SUM);
  }

  lemma ReadsStale(e: Engine, t: Tree, c: Column)
    requires WellFormed(t) && t.subs != [] && c in t.inputs && c.table !in Tables(t)
    requires ColumnOf(e, Rel(e, Origin(t.subs[0], c)), c) != ColumnOf(e, Rel(e, t.subs[0]), c)
    ensures !Fresh(e, t) && !NoStale(t, {})
  {
    assert !FreshAt(e, t);
    if NoStale(t, {}) {
      FreshUnlessStale(e, t, {});
    }
  }

  /** Over the Filter/Join core nothing is computed below an operator that moves rows. */
  lemma {:induction false} CoreNeverStale(t: Tree, above: set<Column>)
    requires Core(t) || CorePlan(t)
    ensures NoStale(t, above)
  {
    var needed := above + ColumnSet(t.inputs);
    forall k | 0 <= k < |t.subs|
      ensures IsPositional(t.subs[k].op) && t.subs[k].subs != [] ==> needed !! Computed(t.subs[k].subs[0])
      ensures NoStale(t.subs[k], needed)
    {
      CoreNeverStale(t.subs[k], needed);
      if t.subs[k].subs != [] {
        TableNames(t.subs[k].subs[0]);
      }
    }
  }
}
