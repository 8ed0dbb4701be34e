/**
 The relational algebra the plans stand for: with an engine that filters in order and joins by
 nested loops, the relation of a Filter/Join tree is selection and join over the base tables.
 */
module Textbook {
  import opened Relational
  import opened PlanTree

  predicate Holds(c: Comparison, args: seq<int>, v: int) {
    match c
    case LT => |args| > 0 && v < args[0]
    case LE => |args| > 0 && v <= args[0]
    case EQ => |args| > 0 && v == args[0]
    case GE => |args| > 0 && v >= args[0]
    case GT => |args| > 0 && v > args[0]
    case NE => |args| > 0 && v != args[0]
    case BETWEEN => |args| > 1 && args[0] <= v <= args[1]
    case IN => v in args
  }

  // -------------------------------------------------------------------------------------------
  // Positions, as an engine computes them
  // -------------------------------------------------------------------------------------------

  /** The values at position k. */
  function At(cols: seq<seq<int>>, k: nat): seq<int> {
    seq(|cols|, i requires 0 <= i < |cols| => if k < |cols[i]| then cols[i][k] else 0)
  }

  /** The first value compared with the others, then with the constants. */
  predicate Passes(c: Comparison, args: seq<int>, values: seq<int>) {
    values != [] && Holds(c, values[1..] + args, values[0])
  }

  /** The positions below n whose values pass. */
  function Matching(c: Comparison, args: seq<int>, cols: seq<seq<int>>, n: nat): (p: seq<int>)
    ensures InRange(p, n)
  {
    if n == 0 then [] else
      Matching(c, args, cols, n - 1) + if Passes(c, args, At(cols, n - 1)) then [n - 1] else []
  }

  /** The partners of one outer value among ys. */
  function Partners(c: Comparison, x: int, ys: seq<int>): (q: seq<int>)
    ensures InRange(q, |ys|)
  {
    if ys == [] then [] else
      var k := |ys| - 1;
      Partners(c, x, ys[..k]) + if Holds(c, [ys[k]], x) then [k] else []
  }

  function Repeat(x: int, n: nat): (r: seq<int>)
    ensures |r| == n && forall i :: 0 <= i < n ==> r[i] == x
  {
    seq(n, i => x)
  }

  function NestedLoop(c: Comparison, xs: seq<int>, ys: seq<int>): (r: (seq<int>, seq<int>))
    ensures |r.0| == |r.1| && InRange(r.0, |xs|) && InRange(r.1, |ys|)
  {
    if xs == [] then ([], []) else
      var k := |xs| - 1;
      var (p, q) := NestedLoop(c, xs[..k], ys);
      var partners := Partners(c, xs[k], ys);
      (p + Repeat(k, |partners|), q + partners)
  }

  /** An engine that filters and joins by the book; nothing is said of its sorts and groups. */
  ghost predicate ByTheBook(e: Engine) {
    && (forall c, args, cols :: |cols| > 0 ==>
          e.Positions(FilterOp(c, args), cols) == [Matching(c, args, cols, |cols[0]|)])
    && (forall c, xs, ys :: var r := NestedLoop(c, xs, ys); e.Positions(JoinOp(c), [xs, ys]) == [r.0, r.1])
  }

  // -------------------------------------------------------------------------------------------
  // Selection and join on rows
  // -------------------------------------------------------------------------------------------

  ghost function Cells(e: Engine, row: Row, cols: seq<Column>): seq<int> {
    seq(|cols|, i requires 0 <= i < |cols| => Cell(e, row, cols[i]))
  }

  ghost function SelectRows(e: Engine, c: Comparison, args: seq<int>, cols: seq<Column>, rel: seq<Row>): seq<Row> {
    if rel == [] then [] else
      var k := |rel| - 1;
      SelectRows(e, c, args, cols, rel[..k]) + if Passes(c, args, Cells(e, rel[k], cols)) then [rel[k]] else []
  }

  ghost function JoinRow(e: Engine, c: Comparison, inner: Column, outer: Column, row: Row, right: seq<Row>): seq<Row> {
    if right == [] then [] else
      var k := |right| - 1;
      JoinRow(e, c, inner, outer, row, right[..k])
      + if Holds(c, [Cell(e, right[k], outer)], Cell(e, row, inner)) then [Merge(row, right[k])] else []
  }

  ghost function JoinRows(e: Engine, c: Comparison, inner: Column, outer: Column, left: seq<Row>, right: seq<Row>)
      : seq<Row> {
    if left == [] then [] else
      var k := |left| - 1;
      JoinRows(e, c, inner, outer, left[..k], right) + JoinRow(e, c, inner, outer, left[k], right)
  }

  /** Relational algebra over the base tables. */
  ghost function Algebra(e: Engine, t: Tree): seq<Row>
    requires Core(t)
  {
    match t.op
    case FetchOp(_) => Scan(e.Rows(t.inputs[0].table), t.inputs[0].table)
    case FilterOp(c, args) => SelectRows(e, c, args, t.inputs, Algebra(e, t.subs[0]))
    case JoinOp(c) => JoinRows(e, c, t.inputs[0], t.inputs[1], Algebra(e, t.subs[0]), Algebra(e, t.subs[1]))
  }

  ghost function ColumnsOf(e: Engine, rel: seq<Row>, cols: seq<Column>): seq<seq<int>> {
    seq(|cols|, i requires 0 <= i < |cols| => ColumnOf(e, rel, cols[i]))
  }

  /** The first n rows that pass. */
  lemma {:induction false} MatchingSelects(e: Engine, c: Comparison, args: seq<int>, cols: seq<Column>, rel: seq<Row>,
                                           n: nat)
    requires n <= |rel|
    ensures Pick(rel, Matching(c, args, ColumnsOf(e, rel, cols), n)) == SelectRows(e, c, args, cols, rel[..n])
  {
    if n > 0 {
      var k := n - 1;
      MatchingSelects(e, c, args, cols, rel, k);
      assert rel[..n][..k] == rel[..k];
      assert At(ColumnsOf(e, rel, cols), k) == Cells(e, rel[k], cols);
      if Passes(c, args, Cells(e, rel[k], cols)) {
        var p := Matching(c, args, ColumnsOf(e, rel, cols), k);
        assert Pick(rel, p + [k]) == Pick(rel, p) + [rel[k]];
      }
    }
  }

  lemma PairSplits(l: seq<Row>, r: seq<Row>, p: seq<int>, q: seq<int>, p': seq<int>, q': seq<int>)
    requires |p| == |q| && |p'| == |q'|
    ensures Pair(l, r, p + p', q + q') == Pair(l, r, p, q) + Pair(l, r, p', q')
  {
  }

  lemma PairPrefix(l: seq<Row>, r: seq<Row>, p: seq<int>, q: seq<int>, i: nat, j: nat)
    requires |p| == |q| && i <= |l| && j <= |r| && InRange(p, i) && InRange(q, j)
    ensures Pair(l, r, p, q) == Pair(l[..i], r[..j], p, q)
  {
  }

  lemma {:induction false} PartnersJoin(e: Engine, c: Comparison, inner: Column, outer: Column, left: seq<Row>,
                                        i: nat, right: seq<Row>)
    requires i < |left|
    ensures var q := Partners(c, Cell(e, left[i], inner), ColumnOf(e, right, outer));
            Pair(left, right, Repeat(i, |q|), q) == JoinRow(e, c, inner, outer, left[i], right)
  {
    if right != [] {
      var k, x := |right| - 1, Cell(e, left[i], inner);
      assert ColumnOf(e, right, outer)[..k] == ColumnOf(e, right[..k], outer);
      PartnersJoin(e, c, inner, outer, left, i, right[..k]);
      var q := Partners(c, x, ColumnOf(e, right[..k], outer));
      PairPrefix(left, right, Repeat(i, |q|), q, |left|, k);
      assert left[..|left|] == left;
      if Holds(c, [Cell(e, right[k], outer)], x) {
        assert Repeat(i, |q| + 1) == Repeat(i, |q|) + [i];
        PairSplits(left, right, Repeat(i, |q|), q, [i], [k]);
        assert Pair(left, right, [i], [k]) == [Merge(left[i], right[k])];
      }
    }
  }

  lemma {:induction false} NestedLoopJoins(e: Engine, c: Comparison, inner: Column, outer: Column, left: seq<Row>,
                                           right: seq<Row>)
    ensures var r := NestedLoop(c, ColumnOf(e, left, inner), ColumnOf(e, right, outer));
            Pair(left, right, r.0, r.1) == JoinRows(e, c, inner, outer, left, right)
  {
    if left != [] {
      var k, ys := |left| - 1, ColumnOf(e, right, outer);
      assert ColumnOf(e, left, inner)[..k] == ColumnOf(e, left[..k], inner);
      NestedLoopJoins(e, c, inner, outer, left[..k], right);
      var (p, q) := NestedLoop(c, ColumnOf(e, left[..k], inner), ys);
      var partners := Partners(c, Cell(e, left[k], inner), ys);
      PairPrefix(left, right, p, q, k, |right|);
      assert right[..|right|] == right;
      PairSplits(left, right, p, q, Repeat(k, |partners|), partners);
      PartnersJoin(e, c, inner, outer, left, k, right);
    }
  }

  lemma FilterIsSelection(e: Engine, t: Tree)
    requires ByTheBook(e) && t.op.FilterOp? && |t.subs| == 1 && |t.inputs| > 0
    ensures Rel(e, t) == SelectRows(e, t.op.filterType, t.op.filterArgs, t.inputs, Rel(e, t.subs[0]))
  {
    RelUnfold(e, t);
    var left := Rel(e, t.subs[0]);
    var cols := ColumnsOf(e, left, t.inputs);
    assert InputColumns(e, t) == cols && |cols[0]| == |left|;
    var p := Matching(t.op.filterType, t.op.filterArgs, cols, |left|);
    assert e.Positions(FilterOp(t.op.filterType, t.op.filterArgs), cols) == [p];
    FilterApplies(e, t, left, cols, p);
    MatchingSelects(e, t.op.filterType, t.op.filterArgs, t.inputs, left, |left|);
    assert left[..|left|] == left;
  }

  lemma FilterApplies(e: Engine, t: Tree, left: seq<Row>, cols: seq<seq<int>>, p: seq<int>)
    requires t.op.FilterOp? && e.Positions(t.op, cols) == [p]
    ensures Apply(e, t, left, [], cols) == Pick(left, p)
  {
  }

  lemma JoinApplies(e: Engine, t: Tree, left: seq<Row>, right: seq<Row>, cols: seq<seq<int>>, p: seq<int>, q: seq<int>)
    requires t.op.JoinOp? && |p| == |q| && e.Positions(t.op, cols) == [p, q]
    ensures Apply(e, t, left, right, cols) == Pair(left, right, p, q)
  {
  }

  lemma JoinIsJoin(e: Engine, t: Tree)
    requires ByTheBook(e) && t.op.JoinOp? && |t.subs| == 2 && |t.inputs| == 2
    requires Side(t, t.inputs[0].table) == 0 && Side(t, t.inputs[1].table) == 1
    ensures Rel(e, t) == JoinRows(e, t.op.joinPredicate, t.inputs[0], t.inputs[1], Rel(e, t.subs[0]), Rel(e, t.subs[1]))
  {
    RelUnfold(e, t);
    var left, right := Rel(e, t.subs[0]), Rel(e, t.subs[1]);
    var xs, ys := ColumnOf(e, left, t.inputs[0]), ColumnOf(e, right, t.inputs[1]);
    assert InputColumns(e, t) == [xs, ys];
    var (p, q) := NestedLoop(t.op.joinPredicate, xs, ys);
    assert e.Positions(JoinOp(t.op.joinPredicate), [xs, ys]) == [p, q];
    JoinApplies(e, t, left, right, [xs, ys], p, q);
    NestedLoopJoins(e, t.op.joinPredicate, t.inputs[0], t.inputs[1], left, right);
  }

  /** The relation a Filter/Join tree denotes is its relational algebra. */
  lemma {:induction false} CoreIsAlgebra(e: Engine, t: Tree)
    requires ByTheBook(e) && Core(t)
    ensures Rel(e, t) == Algebra(e, t)
  {
    match t.op {
      case FilterOp(_, _) =>
        CoreIsAlgebra(e, t.subs[0]);
        FilterIsSelection(e, t);
      case JoinOp(_) =>
        CoreIsAlgebra(e, t.subs[0]);
        CoreIsAlgebra(e, t.subs[1]);
        JoinIsJoin(e, t);
      case _ =>
    }
  }

  // -------------------------------------------------------------------------------------------
  // Such an engine exists
  // -------------------------------------------------------------------------------------------

  function Identity(n: nat): (p: seq<int>)
    ensures |p| == n && InRange(p, n)
  {
    seq(n, i => i)
  }

  function StandardPositions(op: Op, cols: seq<seq<int>>): seq<seq<int>> {
    if cols == [] then [] else
      match op
      case FilterOp(c, args) => [Matching(c, args, cols, |cols[0]|)]
      case JoinOp(c) => if |cols| < 2 then [] else var r := NestedLoop(c, cols[0], cols[1]); [r.0, r.1]
      case GroupOp(_, _) => [Identity(|cols[0]|), Identity(|cols[0]|), Identity(|cols[0]|)]
      case _ => [Identity(|cols[0]|)]
  }

  ghost function StandardEngine(rowCounts: map<string, nat>, cells: imap<(Column, int), int>): Engine {
    Engine(rowCounts, cells,
           imap c: Call | true :: StandardPositions(c.op, c.cols),
           imap c: Call | true :: if c.cols == [] then [] else c.cols[0])
  }

  lemma StandardSoundOn(rowCounts: map<string, nat>, cells: imap<(Column, int), int>, op: Op, cols: seq<seq<int>>)
    ensures StandardEngine(rowCounts, cells).SoundOn(op, cols)
  {
    var e := StandardEngine(rowCounts, cells);
    assert e.Positions(op, cols) == StandardPositions(op, cols);
    assert e.Compute(op, cols) == if cols == [] then [] else cols[0];
  }

  /** The assumptions on engines are met, over any base tables. */
  lemma StandardIsSound(rowCounts: map<string, nat>, cells: imap<(Column, int), int>)
    ensures StandardEngine(rowCounts, cells).Sound() && ByTheBook(StandardEngine(rowCounts, cells))
  {
    var e := StandardEngine(rowCounts, cells);
    forall op, cols ensures e.SoundOn(op, cols) {
      StandardSoundOn(rowCounts, cells, op, cols);
    }
    assert forall op, cols :: e.Positions(op, cols) == StandardPositions(op, cols);
  }
}
