/**
 The vocabulary every pass over the IR shares: columns, operators, and what an operator's
 outputs are worth once its inputs are known.

 A position list and a column of values are both `seq<int>`.  The execution engine is a
 parameter: any engine whose position lists point inside their inputs is allowed, so the
 theorems below hold for every join or sort algorithm and for every order in which it emits
 its matches.
 */
module Relational {

  // Tables are compared by name; aliases are not distinguished by the passes.
  datatype Column = Column(table: string, name: string)

  datatype Comparison = LT | LE | EQ | GE | GT | NE | BETWEEN | IN

  datatype Arithmetic = ADD | SUB | MUL | DIV | MOD

  datatype Op =
    | FetchOp(wasTableBaseNode: bool)
    | FilterOp(filterType: Comparison, filterArgs: seq<int>)
    | JoinOp(joinPredicate: Comparison)
    | SemiJoinOp(joinPredicate: Comparison)
    | SortOp(ascending: seq<bool>)
    | GroupOp(sortOrders: seq<bool>, hasAgg: bool)
    | MapOp(operatorType: Arithmetic)
    | SelectOp
    | MatOp

  /** Operators whose result is a list of positions into their inputs. */
  predicate IsPositional(op: Op) {
    op.FilterOp? || op.JoinOp? || op.SemiJoinOp? || op.SortOp? || op.GroupOp?
  }

  predicate InRange(p: seq<int>, n: int) {
    forall i :: 0 <= i < |p| ==> 0 <= p[i] < n
  }

  predicate SameLength(cols: seq<seq<int>>) {
    forall i, j :: 0 <= i < |cols| && 0 <= j < |cols| ==> |cols[i]| == |cols[j]|
  }

  /** Positional gather, the Materialize operator. */
  function Gather(x: seq<int>, p: seq<int>): (r: seq<int>)
    ensures |r| == |p|
    ensures forall i :: 0 <= i < |p| && 0 <= p[i] < |x| ==> r[i] == x[p[i]]
  {
    seq(|p|, i requires 0 <= i < |p| => if 0 <= p[i] < |x| then x[p[i]] else 0)
  }

  /** Gathering through a composed position list is gathering twice. */
  lemma GatherComposes(x: seq<int>, p: seq<int>, q: seq<int>)
    requires InRange(q, |p|)
    ensures Gather(Gather(x, p), q) == Gather(x, Gather(p, q))
  {
  }

  /**
   The engine: the base tables' cells and row counts, the position lists an operator
   produces, and the values a Map or a folded aggregate computes.
   */
  datatype Call = Call(op: Op, cols: seq<seq<int>>)

  datatype Engine = Engine(
    rowCounts: map<string, nat>,
    cells: imap<(Column, int), int>,
    positionLists: imap<Call, seq<seq<int>>>,
    computed: imap<Call, seq<int>>
  )
  {
    ghost function Rows(table: string): nat {
      if table in rowCounts then rowCounts[table] else 0
    }

    ghost function Cell(c: Column, i: int): int {
      if (c, i) in cells then cells[(c, i)] else 0
    }

    ghost function Positions(op: Op, cols: seq<seq<int>>): seq<seq<int>> {
      if Call(op, cols) in positionLists then positionLists[Call(op, cols)] else []
    }

    ghost function Compute(op: Op, cols: seq<seq<int>>): seq<int> {
      if Call(op, cols) in computed then computed[Call(op, cols)] else []
    }

    ghost function BaseColumn(c: Column): (r: seq<int>)
      ensures |r| == Rows(c.table)
      ensures forall i :: 0 <= i < |r| ==> r[i] == Cell(c, i)
    {
      seq(Rows(c.table), i requires i >= 0 => Cell(c, i))
    }

    ghost predicate SoundOn(op: Op, cols: seq<seq<int>>) {
      var out := Positions(op, cols);
      && (op.JoinOp? && |cols| == 2 ==>
            |out| == 2 && |out[0]| == |out[1]| && InRange(out[0], |cols[0]|) && InRange(out[1], |cols[1]|))
      && ((op.FilterOp? || op.SortOp?) && |cols| > 0 && SameLength(cols) ==>
            |out| == 1 && InRange(out[0], |cols[0]|))
      && (op.GroupOp? && |cols| > 0 && SameLength(cols) ==>
            |out| == 3 && InRange(out[0], |cols[0]|) && |Compute(op, cols)| == |out[0]|)
      && (op.MapOp? && |cols| > 0 && SameLength(cols) ==> |Compute(op, cols)| == |cols[0]|)
    }

    ghost predicate Sound() {
      forall op, cols :: SoundOn(op, cols)
    }

    /** The outputs of one operator, given its input columns' names and values. */
    ghost function Evaluate(op: Op, inputs: seq<Column>, slots: seq<seq<int>>): seq<seq<int>> {
      match op
      case FetchOp(_) => if |inputs| == 0 then [] else [BaseColumn(inputs[0])]
      case MatOp => if |slots| < 2 then [] else [Gather(slots[0], slots[1])]
      case MapOp(_) => [Compute(op, slots)]
      case SelectOp => slots
      case GroupOp(_, hasAgg) => Positions(op, slots) + if hasAgg then [Compute(op, slots)] else []
      case _ => Positions(op, slots)
    }
  }

  function IndexOf(cols: seq<Column>, c: Column): (i: nat)
    ensures i <= |cols|
    ensures i < |cols| ==> cols[i] == c
    ensures i == |cols| ==> c !in cols
  {
    if cols == [] then 0 else if cols[0] == c then 0 else 1 + IndexOf(cols[1..], c)
  }

  /** The first of `cols` that belongs to `table`. */
  function IndexOfTable(cols: seq<Column>, table: string): (i: nat)
    ensures i <= |cols|
    ensures i < |cols| ==> cols[i].table == table
    ensures i == |cols| ==> forall k :: 0 <= k < |cols| ==> cols[k].table != table
  {
    if cols == [] then 0 else if cols[0].table == table then 0 else 1 + IndexOfTable(cols[1..], table)
  }
}
