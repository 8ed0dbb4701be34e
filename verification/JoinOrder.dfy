/**
 In which order the first optimizer joins: the tables and the conditions of its left-deep tree read
 from left to right, and the sides its predicates hang on.
 */
module JoinOrder {
  import opened Ast
  import opened Pushdown

  /** The table names from left to right. */
  function TableOrder(t: Plain): seq<string> {
    if t.Nil? then [] else if t.val.TableBase? then [t.val.tableName] else TableOrder(t.left) + TableOrder(t.right)
  }

  /** The ends of the joins' conditions, the innermost join first. */
  function JoinsOf(t: Plain): seq<Val> {
    if t.Nil? then [] else JoinsOf(t.left) + JoinsOf(t.right) + if t.val.TableJoin? then [t.val] else []
  }

  /** The tables as the conditions bring them in: both of the first, then of each the one that is new. */
  function Arrivals(cs: seq<Val>): seq<string>
    requires AreJoins(cs)
  {
    if cs == [] then []
    else if |cs| == 1 then [cs[0].table, cs[0].table2]
    else
      var before, c := Arrivals(cs[..|cs| - 1]), cs[|cs| - 1];
      before + [if c.table2 in before then c.table else c.table2]
  }

  /** Join k stands for condition k and brings in its table on the right. */
  predicate Stands(join: Val, c: Val, arrival: string)
    requires c.Where?
  {
    && join.TableJoin? && join.joinType == "JOININNER" && join.rightTable == arrival
    && (join == Inner(c.table, c.column, c.table2, c.column2) || join == Inner(c.table2, c.column2, c.table, c.column))
  }

  lemma {:induction false} OrderHasTables(t: Plain)
    ensures forall table :: table in TableOrder(t) <==> table in Tables(t)
  {
    if t.Node? && !t.val.TableBase? {
      OrderHasTables(t.left);
      OrderHasTables(t.right);
    }
  }

  /** Join by join and table by table in the order of the conditions. */
  predicate InStep(joins: seq<Val>, cs: seq<Val>, arrivals: seq<string>)
    requires AreJoins(cs)
  {
    && |joins| == |cs| && |arrivals| == |cs| + 1
    && forall k :: 0 <= k < |cs| ==> Stands(joins[k], cs[k], arrivals[k + 1])
  }

  lemma OneStep(joins: seq<Val>, cs: seq<Val>, arrivals: seq<string>, join: Val, c: Val, arrival: string)
    requires AreJoins(cs) && IsJoinCondition(c) && InStep(joins, cs, arrivals) && Stands(join, c, arrival)
    ensures InStep(joins + [join], cs + [c], arrivals + [arrival])
  {
  }

  /** Tables and joins come in the order of the conditions. */
  lemma {:induction false} InOrder(cs: seq<Val>)
    requires AreJoins(cs) && cs != []
    ensures TableOrder(JoinTree(cs)) == Arrivals(cs) && InStep(JoinsOf(JoinTree(cs)), cs, Arrivals(cs))
  {
    var n := |cs| - 1;
    if n == 0 {
      FirstInOrder(cs);
    } else {
      var before, c := cs[..n], cs[n];
      InOrder(before);
      var join, arrival := LastInOrder(cs);
      OneStep(JoinsOf(JoinTree(before)), before, Arrivals(before), join, c, arrival);
      assert before + [c] == cs;
    }
  }

  lemma FirstInOrder(cs: seq<Val>)
    requires AreJoins(cs) && |cs| == 1
    ensures TableOrder(JoinTree(cs)) == Arrivals(cs) && InStep(JoinsOf(JoinTree(cs)), cs, Arrivals(cs))
  {
    OneJoin(cs[0]);
    assert cs == [cs[0]];
  }

  /** The last condition adds a join on top and a table on the right. */
  lemma LastInOrder(cs: seq<Val>) returns (join: Val, arrival: string)
    requires AreJoins(cs) && |cs| > 1
    requires TableOrder(JoinTree(cs[..|cs| - 1])) == Arrivals(cs[..|cs| - 1])
    ensures var n := |cs| - 1;
            && Stands(join, cs[n], arrival) && TableOrder(JoinTree(cs)) == Arrivals(cs)
            && Arrivals(cs) == Arrivals(cs[..n]) + [arrival]
            && JoinsOf(JoinTree(cs)) == JoinsOf(JoinTree(cs[..n])) + [join]
  {
    var n := |cs| - 1;
    var left, c := JoinTree(cs[..n]), cs[n];
    JoinTreeTables(cs[..n], c.table2);
    OrderHasTables(left);
    OneMoreJoin(left, c);
    if HasTable(left, c.table2) {
      join, arrival := Inner(c.table2, c.column2, c.table, c.column), c.table;
    } else {
      join, arrival := Inner(c.table, c.column, c.table2, c.column2), c.table2;
    }
  }

  lemma LeafOrder(table: string)
    ensures TableOrder(Leaf(table)) == [table] && JoinsOf(Leaf(table)) == []
  {
    var none: Plain := Nil;
    assert JoinsOf(none) == [];
  }

  lemma OneJoin(c: Val)
    requires IsJoinCondition(c)
    ensures var t := JoinTree([c]);
            && TableOrder(t) == [c.table, c.table2]
            && JoinsOf(t) == [Inner(c.table, c.column, c.table2, c.column2)]
  {
    LeafOrder(c.table);
    LeafOrder(c.table2);
  }

  lemma OneMoreJoin(left: Plain, c: Val)
    requires c.Where?
    ensures var t, known := JoinOnto(left, c), HasTable(left, c.table2);
            && TableOrder(t) == TableOrder(left) + [if known then c.table else c.table2]
            && JoinsOf(t) == JoinsOf(left) + [if known then Inner(c.table2, c.column2, c.table, c.column)
                                                  else Inner(c.table, c.column, c.table2, c.column2)]
  {
    LeafOrder(c.table);
    LeafOrder(c.table2);
  }

  // -------------------------------------------------------------------------------------------
  // Placing predicates changes none of this
  // -------------------------------------------------------------------------------------------

  /** A predicate on a left child hangs over its own left child, one on a right child over its right child. */
  predicate OwnSides(t: Plain) {
    t.Node? ==>
      && (t.left.Node? && t.left.val.Where? ==> t.left.right.Nil?)
      && (t.right.Node? && t.right.val.Where? ==> t.right.left.Nil?)
      && OwnSides(t.left) && OwnSides(t.right)
  }

  lemma {:induction false} PlacedInOrder(t: Plain, v: Val)
    requires v.Where?
    ensures var u := Placed(t, (), v); TableOrder(u) == TableOrder(t) && JoinsOf(u) == JoinsOf(t)
    ensures OwnSides(t) ==> OwnSides(Placed(t, (), v))
  {
    if t.Node? {
      PlacedInOrder(t.left, v);
      PlacedInOrder(t.right, v);
      WhereInOrder(t.left, v);
      WhereInOrder(t.right, v);
      PlacedSides(t, v);
    }
  }

  lemma {:induction false} PlacedSides(t: Plain, v: Val)
    requires v.Where?
    ensures OwnSides(t) ==> OwnSides(Placed(t, (), v))
  {
    if t.Node? {
      PlacedSides(t.left, v);
      PlacedSides(t.right, v);
      var none: Plain := Nil;
      assert OwnSides(none) && Placed(none, (), v) == none;
    }
  }

  lemma WhereInOrder(t: Plain, v: Val)
    requires v.Where?
    ensures TableOrder(Node((), v, t, Nil)) == TableOrder(t) == TableOrder(Node((), v, Nil, t))
    ensures JoinsOf(Node((), v, t, Nil)) == JoinsOf(t) == JoinsOf(Node((), v, Nil, t))
  {
    var none: Plain := Nil;
    assert TableOrder(none) == [] && JoinsOf(none) == [] && TableOrder(t) + [] == TableOrder(t);
    assert [] + JoinsOf(t) + [] == JoinsOf(t) == JoinsOf(t) + [] + [];
  }

  lemma {:induction false} AllPlacedInOrder(t: Plain, vs: seq<Val>)
    requires (forall i :: 0 <= i < |vs| ==> vs[i].Where?) && OwnSides(t)
    ensures var u := AllPlaced(t, vs); TableOrder(u) == TableOrder(t) && JoinsOf(u) == JoinsOf(t) && OwnSides(u)
    decreases |vs|
  {
    if vs != [] {
      PlacedInOrder(t, vs[0]);
      AllPlacedInOrder(Placed(t, (), vs[0]), vs[1..]);
    }
  }

  lemma {:induction false} JoinTreeSides(cs: seq<Val>)
    requires AreJoins(cs)
    ensures OwnSides(JoinTree(cs)) && (JoinTree(cs).Node? ==> JoinTree(cs).val.TableJoin?)
  {
    if |cs| > 1 {
      JoinTreeSides(cs[..|cs| - 1]);
    }
  }

  lemma {:induction false} ReplacedInOrder(t: Plain, joins: Plain)
    requires Query(t) && joins.Node? && joins.val.TableJoin? && OwnSides(joins)
    ensures var u := Replaced(Bare(t), joins);
            TableOrder(u) == TableOrder(joins) && JoinsOf(u) == JoinsOf(joins) && OwnSides(u)
    ensures !Replaced(Bare(t), joins).val.Where?
  {
    if t.val.TableJoin? {
      FromIsBare(t);
    } else {
      FilteredIsQuery(t);
      ReplacedInOrder(t.left, joins);
      var none: Plain := Nil;
      assert TableOrder(none) == [] && JoinsOf(none) == [];
    }
  }

  lemma {:induction false} PredicatesAreWheres(vs: seq<Val>)
    requires forall i :: 0 <= i < |vs| ==> vs[i].Where?
    ensures forall i :: 0 <= i < |Predicates(vs)| ==> Predicates(vs)[i].Where?
  {
    if vs != [] {
      PredicatesAreWheres(vs[..|vs| - 1]);
    }
  }

  /** The optimized query joins its tables in the order in which the WHERE clause mentions them. */
  lemma OptimizedInOrder(t: Plain)
    requires Query(t) && Joins(Wheres(t)) != []
    ensures var u, cs := Optimized(t), Joins(Wheres(t));
            && TableOrder(u) == Arrivals(cs) && OwnSides(u)
            && InStep(JoinsOf(u), cs, Arrivals(cs))
  {
    var cs := Joins(Wheres(t));
    InOrder(cs);
    JoinTreeSides(cs);
    ReplacedInOrder(t, JoinTree(cs));
    WheresAreWheres(t);
    PredicatesAreWheres(Wheres(t));
    AllPlacedInOrder(Replaced(Bare(t), JoinTree(cs)), Predicates(Wheres(t)));
  }
}
