/**
 The first optimizer as a function on trees, and the shape of its result.
 */
module Pushdown {
  import opened Ast

  // -------------------------------------------------------------------------------------------
  // The optimizer as a function
  // -------------------------------------------------------------------------------------------

  /** The WHERE nodes in the order they are taken out. */
  function Wheres<T>(t: Ast<T>): seq<Val> {
    if t.Nil? then [] else (if t.val.Where? then [t.val] else []) + Wheres(t.left) + Wheres(t.right)
  }

  /** What is left when they are gone; a WHERE node is replaced by its left child. */
  function Bare<T>(t: Ast<T>): Ast<T> {
    if t.Nil? then Nil
    else if t.val.Where? then Bare(t.left)
    else Node(t.at, t.val, Bare(t.left), Bare(t.right))
  }

  function Joins(vs: seq<Val>): (r: seq<Val>)
    ensures forall i :: 0 <= i < |r| ==> IsJoinCondition(r[i])
  {
    if vs == [] then [] else
      var k := |vs| - 1;
      if IsJoinCondition(vs[k]) then Joins(vs[..k]) + [vs[k]] else Joins(vs[..k])
  }

  function Predicates(vs: seq<Val>): seq<Val> {
    if vs == [] then [] else
      var k := |vs| - 1;
      if IsJoinCondition(vs[k]) then Predicates(vs[..k]) else Predicates(vs[..k]) + [vs[k]]
  }

  function HasTable<T>(t: Ast<T>, table: string): bool {
    match t
    case Node(_, TableBase(name, _), _, _) => name == table
    case Node(_, TableJoin(_, _, _, _, _), left, right) => HasTable(left, table) || HasTable(right, table)
    case _ => false
  }

  function Leaf(table: string): Plain {
    Node((), TableBase(table, ""), Nil, Nil)
  }

  function Inner(t1: string, c1: string, t2: string, c2: string): Val {
    TableJoin("JOININNER", t1, c1, t2, c2)
  }

  predicate AreJoins(cs: seq<Val>) {
    forall i :: 0 <= i < |cs| ==> IsJoinCondition(cs[i])
  }

  /** One more table joined onto the tree, the condition turned so that its new table is on the right. */
  function JoinOnto(left: Plain, c: Val): Plain
    requires c.Where?
  {
    if HasTable(left, c.table2) then Node((), Inner(c.table2, c.column2, c.table, c.column), left, Leaf(c.table))
    else Node((), Inner(c.table, c.column, c.table2, c.column2), left, Leaf(c.table2))
  }

  function JoinTree(cs: seq<Val>): Plain
    requires AreJoins(cs)
  {
    if cs == [] then Nil
    else if |cs| == 1 then
      Node((), Inner(cs[0].table, cs[0].column, cs[0].table2, cs[0].column2), Leaf(cs[0].table), Leaf(cs[0].table2))
    else JoinOnto(JoinTree(cs[..|cs| - 1]), cs[|cs| - 1])
  }

  /** The first join on the left spine makes room for `joins`. */
  function Replaced<T>(t: Ast<T>, joins: Ast<T>): Ast<T> {
    if t.Nil? then Nil
    else if t.val.TableJoin? then joins
    else Node(t.at, t.val, Replaced(t.left, joins), t.right)
  }

  predicate IsTableOf<T>(t: Ast<T>, v: Val) {
    t.Node? && t.val.TableBase? && v.Where? && (v.table == t.val.tableName || v.table == t.val.tableAlias)
  }

  /** `v` is put between a table and its parent, keeping the side the table hangs on. */
  function Placed<T>(t: Ast<T>, at: T, v: Val): Ast<T> {
    if t.Nil? then Nil
    else if IsTableOf(t.left, v) then Node(t.at, t.val, Node(at, v, t.left, Nil), t.right)
    else if IsTableOf(t.right, v) then Node(t.at, t.val, t.left, Node(at, v, Nil, t.right))
    else Node(t.at, t.val, Placed(t.left, at, v), Placed(t.right, at, v))
  }

  /** How many places `Placed` finds. */
  function Places<T>(t: Ast<T>, v: Val): nat {
    if t.Nil? then 0
    else if IsTableOf(t.left, v) || IsTableOf(t.right, v) then 1
    else Places(t.left, v) + Places(t.right, v)
  }

  function AllPlaced(t: Plain, vs: seq<Val>): Plain
    decreases |vs|
  {
    if vs == [] then t else AllPlaced(Placed(t, (), vs[0]), vs[1..])
  }

  /** Each predicate in turn has at most one place, so no node is hung into the tree twice. */
  predicate OnePlaceEach(t: Plain, vs: seq<Val>)
    decreases |vs|
  {
    vs == [] || (Places(t, vs[0]) <= 1 && OnePlaceEach(Placed(t, (), vs[0]), vs[1..]))
  }

  predicate Placeable(t: Plain) {
    OnePlaceEach(Replaced(Bare(t), JoinTree(Joins(Wheres(t)))), Predicates(Wheres(t)))
  }

  function Optimized(t: Plain): Plain {
    var vs := Wheres(t);
    AllPlaced(Replaced(Bare(t), JoinTree(Joins(vs))), Predicates(vs))
  }

  // -------------------------------------------------------------------------------------------
  // Queries the optimizer is for
  // -------------------------------------------------------------------------------------------

  predicate CrossProduct(t: Plain) {
    t.Node? &&
    match t.val
    case TableBase(name, _) => name != "" && t.left.Nil? && t.right.Nil?
    case TableJoin(kind, _, _, _, _) =>
      kind == "CROSSPRODUCT" && CrossProduct(t.left) && CrossProduct(t.right) && Tables(t.left) !! Tables(t.right)
    case _ => false
  }

  /** Cross products and inner joins with their ON conditions. */
  predicate FromTree(t: Plain) {
    t.Node? &&
    match t.val
    case TableBase(name, _) => name != "" && t.left.Nil? && t.right.Nil?
    case TableJoin(kind, _, _, _, _) =>
      && (kind == "CROSSPRODUCT" || kind == "JOININNER")
      && FromTree(t.left) && FromTree(t.right) && Tables(t.left) !! Tables(t.right)
    case _ => false
  }

  /** WHERE nodes over a join or cross product of at least two tables. */
  predicate Filtered(t: Plain) {
    t.Node? && if t.val.Where? then t.right.Nil? && Filtered(t.left) else t.val.TableJoin? && FromTree(t)
  }

  /** What stands below the clauses and WHERE nodes. */
  function From(t: Plain): Plain {
    if t.Node? && (t.val.Clause? || t.val.Where?) then From(t.left) else t
  }

  /** Clauses over a filtered join. */
  predicate Query(t: Plain) {
    t.Node? && if t.val.Clause? then t.right.Nil? && Query(t.left) else Filtered(t)
  }

  function Covered(cs: seq<Val>): set<string>
    requires AreJoins(cs)
  {
    if cs == [] then {} else Covered(cs[..|cs| - 1]) + {cs[|cs| - 1].table, cs[|cs| - 1].table2}
  }

  /** The first condition links two tables; each later one shares exactly one with those before it. */
  predicate Linked(cs: seq<Val>)
    requires AreJoins(cs)
  {
    cs != [] &&
    var c := cs[|cs| - 1];
    && c.table != ""
    && if |cs| == 1 then c.table != c.table2
       else Linked(cs[..|cs| - 1]) && ((c.table in Covered(cs[..|cs| - 1])) != (c.table2 in Covered(cs[..|cs| - 1])))
  }

  predicate OneTable(v: Val, tables: set<string>) {
    v.Where? && !IsJoinCondition(v) && v.table in tables && TablesAt(v) == {v.table}
  }

  predicate Linking(t: Plain) {
    && Query(t) && CrossProduct(From(t)) && Linked(Joins(Wheres(t))) && Covered(Joins(Wheres(t))) == Tables(t)
    && forall v :: v in Predicates(Wheres(t)) ==> OneTable(v, Tables(t))
  }

  // -------------------------------------------------------------------------------------------
  // The shape of the result
  // -------------------------------------------------------------------------------------------

  function BaseName(t: Plain): string {
    if t.Nil? then "" else if t.val.TableBase? then t.val.tableName else if t.left.Node? then BaseName(t.left)
      else BaseName(t.right)
  }

  /** Predicates over one table, directly on top of that table. */
  predicate Stack(t: Plain) {
    t.Node? &&
    if t.val.TableBase? then t.val.tableName != "" && t.val.tableAlias == "" && t.left.Nil? && t.right.Nil?
    else
      && t.val.Where? && !IsJoinCondition(t.val) && (t.left.Nil? || t.right.Nil?) && Stack(Only(t))
      && TablesAt(t.val) == {t.val.table} && t.val.table == BaseName(t)
  }

  /** Left-deep inner joins over stacks: no predicate above a join. */
  predicate Pushed(t: Plain) {
    && t.Node? && t.val.TableJoin? && t.val.joinType == "JOININNER"
    && (Pushed(t.left) || Stack(t.left)) && Stack(t.right)
  }

  function Clauses<T>(t: Ast<T>): seq<Val> {
    if t.Node? && t.val.Clause? then [t.val] + Clauses(t.left) else []
  }

  function Below<T>(t: Ast<T>): Ast<T> {
    if t.Node? && t.val.Clause? then Below(t.left) else t
  }

  // -------------------------------------------------------------------------------------------
  // Left-deep joins
  // -------------------------------------------------------------------------------------------

  function CountIn(vs: seq<Val>, c: Condition): nat {
    if vs == [] then 0 else CountIn(vs[..|vs| - 1], c) + if ConditionAt(vs[|vs| - 1]) == c then 1 else 0
  }

  lemma {:induction false} JoinTreeTables(cs: seq<Val>, table: string)
    requires AreJoins(cs)
    ensures HasTable(JoinTree(cs), table) <==> table in Tables(JoinTree(cs))
    ensures table in Tables(JoinTree(cs)) ==> table in Covered(cs)
  {
    if |cs| == 1 {
      assert Covered(cs) == Covered(cs[..0]) + {cs[0].table, cs[0].table2};
    } else if cs != [] {
      JoinTreeTables(cs[..|cs| - 1], table);
      JoinTreeTables(cs[..|cs| - 1], cs[|cs| - 1].table2);
    }
  }

  /** Every condition becomes one join. */
  lemma {:induction false} JoinTreeCounts(cs: seq<Val>, c: Condition)
    requires AreJoins(cs) && c != Nothing
    ensures Count(JoinTree(cs), c) == CountIn(cs, c)
  {
    if |cs| == 1 {
      assert CountIn(cs[..0], c) == 0;
      assert Count(Leaf(cs[0].table), c) == 0 && Count(Leaf(cs[0].table2), c) == 0;
    } else if cs != [] {
      var v := cs[|cs| - 1];
      JoinTreeCounts(cs[..|cs| - 1], c);
      assert Count(Leaf(v.table), c) == 0 && Count(Leaf(v.table2), c) == 0;
      assert {(v.table, v.column), (v.table2, v.column2)} == {(v.table2, v.column2), (v.table, v.column)};
    }
  }

  /** The joins built read one column from each side, over distinct tables, exactly when the conditions are linked. */
  lemma {:induction false} JoinTreeScoped(cs: seq<Val>)
    requires AreJoins(cs) && cs != []
    ensures Scoped(JoinTree(cs)) <==> Linked(cs)
    ensures Linked(cs) ==> Tables(JoinTree(cs)) == Covered(cs) && Pushed(JoinTree(cs))
  {
    var k := |cs| - 1;
    if k > 0 {
      JoinTreeScoped(cs[..k]);
      JoinTreeTables(cs[..k], cs[k].table);
      JoinTreeTables(cs[..k], cs[k].table2);
      var left, t, u := JoinTree(cs[..k]), cs[k].table, cs[k].table2;
      assert Tables(Leaf(t)) == {t} && Tables(Leaf(u)) == {u};
      assert Scoped(Leaf(t)) == (t != "") && Scoped(Leaf(u));
      if Scoped(left) {
        ScopedIsReadable(left);
        TablesNamed(left);
      }
      assert Scoped(JoinTree(cs)) <==> Scoped(left) && t != "" && (t in Tables(left)) != (u in Tables(left));
    } else {
      assert Covered(cs) == Covered(cs[..0]) + {cs[0].table, cs[0].table2};
    }
  }

  // -------------------------------------------------------------------------------------------
  // Taking the conditions out
  // -------------------------------------------------------------------------------------------

  lemma CountAppend(vs: seq<Val>, v: Val, c: Condition)
    ensures CountIn(vs + [v], c) == CountIn(vs, c) + if ConditionAt(v) == c then 1 else 0
  {
    assert (vs + [v])[..|vs|] == vs;
  }

  lemma {:induction false} CountConcat(us: seq<Val>, vs: seq<Val>, c: Condition)
    ensures CountIn(us + vs, c) == CountIn(us, c) + CountIn(vs, c)
  {
    if vs == [] {
      assert us + vs == us;
    } else {
      var k := |vs| - 1;
      CountConcat(us, vs[..k], c);
      CountAppend(us + vs[..k], vs[k], c);
      assert us + vs == us + vs[..k] + [vs[k]];
    }
  }

  lemma {:induction false} SplitCounts(vs: seq<Val>, c: Condition)
    ensures CountIn(vs, c) == CountIn(Joins(vs), c) + CountIn(Predicates(vs), c)
  {
    if vs != [] {
      var k := |vs| - 1;
      SplitCounts(vs[..k], c);
      if IsJoinCondition(vs[k]) {
        assert Joins(vs) == Joins(vs[..k]) + [vs[k]] && Predicates(vs) == Predicates(vs[..k]);
        CountAppend(Joins(vs[..k]), vs[k], c);
      } else {
        assert Joins(vs) == Joins(vs[..k]) && Predicates(vs) == Predicates(vs[..k]) + [vs[k]];
        CountAppend(Predicates(vs[..k]), vs[k], c);
      }
    }
  }

  lemma {:induction false} WheresAreWheres<T>(t: Ast<T>)
    ensures forall v :: v in Wheres(t) ==> v.Where?
  {
    if t.Node? {
      WheresAreWheres(t.left);
      WheresAreWheres(t.right);
    }
  }

  lemma {:induction false} SplitIn(vs: seq<Val>, v: Val)
    ensures v in vs <==> v in Joins(vs) || v in Predicates(vs)
  {
    if vs != [] {
      SplitIn(vs[..|vs| - 1], v);
    }
  }

  lemma {:induction false} FromIsBare(t: Plain)
    requires FromTree(t)
    ensures Wheres(t) == [] && Bare(t) == t
  {
    if t.val.TableJoin? {
      FromIsBare(t.left);
      FromIsBare(t.right);
    }
  }

  /** A cross product is a FROM tree without ON conditions. */
  lemma {:induction false} CrossProductIsPlain(t: Plain, c: Condition)
    requires CrossProduct(t) && c != Nothing
    ensures FromTree(t) && Count(t, c) == 0 && Scoped(t)
  {
    if t.val.TableJoin? {
      CrossProductIsPlain(t.left, c);
      CrossProductIsPlain(t.right, c);
    }
  }

  lemma {:induction false} WheresCount(t: Plain, c: Condition)
    requires Query(t) && c != Nothing
    ensures CountIn(Wheres(t), c) + Count(From(t), c) == Count(t, c)
  {
    if t.val.TableJoin? {
      FromIsBare(t);
    } else {
      FilteredIsQuery(t);
      WheresCount(t.left, c);
      var first := if t.val.Where? then [t.val] else [];
      CountConcat(first, Wheres(t.left), c);
      CountAppend([], t.val, c);
      assert Wheres(t) == first + Wheres(t.left) && [] + [t.val] == [t.val];
    }
  }

  lemma FilteredIsQuery(t: Plain)
    requires Query(t) && !t.val.TableJoin?
    ensures t.right.Nil? && Query(t.left)
    ensures t.val.Where? ==> Clauses(t.left) == []
  {
    if t.val.Where? {
      assert Filtered(t.left);
    }
  }

  /** The clauses stay, and the joins take the place of everything below them. */
  lemma {:induction false} JoinsReplace(t: Plain, joins: Plain)
    requires Query(t) && joins.Node? && !joins.val.Clause?
    ensures var u := Replaced(Bare(t), joins); Clauses(u) == Clauses(t) && Below(u) == joins && OnClauses(u)
  {
    if t.val.TableJoin? {
      FromIsBare(t);
    } else {
      FilteredIsQuery(t);
      JoinsReplace(t.left, joins);
    }
  }

  predicate OnClauses(t: Plain) {
    t.Node? && (t.val.Clause? ==> t.right.Nil? && OnClauses(t.left))
  }

  lemma {:induction false} ClausesPass(t: Plain, v: Val)
    requires OnClauses(t) && v.Where? && Pushed(Below(t))
    ensures Tables(t) == Tables(Below(t)) && Scoped(t) == Scoped(Below(t))
    ensures forall c :: c != Nothing ==> Count(t, c) == Count(Below(t), c)
    ensures Places(t, v) == Places(Below(t), v)
    ensures var u := Placed(t, (), v); OnClauses(u) && Clauses(u) == Clauses(t) && Below(u) == Placed(Below(t), (), v)
  {
    if t.val.Clause? {
      ClausesPass(t.left, v);
    }
  }

  // -------------------------------------------------------------------------------------------
  // Putting the predicates back
  // -------------------------------------------------------------------------------------------

  lemma {:induction false} StackIsScoped(t: Plain)
    requires Stack(t)
    ensures Scoped(t) && Tables(t) == {BaseName(t)}
  {
    if !t.val.TableBase? {
      StackIsScoped(Only(t));
    }
  }

  lemma {:induction false} PushedIsNamed(t: Plain)
    requires Pushed(t) || Stack(t)
    ensures "" !in Tables(t)
  {
    if Stack(t) {
      StackIsScoped(t);
      ScopedIsReadable(t);
      TablesNamed(t);
    } else {
      PushedIsNamed(t.left);
      PushedIsNamed(t.right);
    }
  }

  lemma {:induction false} NoPlace(t: Plain, v: Val)
    requires Pushed(t) || Stack(t)
    requires v.Where? && v.table != "" && v.table !in Tables(t)
    ensures Placed(t, (), v) == t && Places(t, v) == 0
  {
    if !t.val.TableBase? {
      if t.left.Node? { NoPlace(t.left, v); }
      if t.right.Node? { NoPlace(t.right, v); }
    }
  }

  /** One more predicate on a stack that is not a bare table. */
  lemma {:induction false} StackGrows(t: Plain, v: Val, c: Condition)
    requires Stack(t) && !t.val.TableBase? && OneTable(v, {BaseName(t)})
    ensures var u := Placed(t, (), v);
            && Stack(u) && !u.val.TableBase? && BaseName(u) == BaseName(t)
            && Count(u, c) == Count(t, c) + if ConditionAt(v) == c then 1 else 0
    ensures Places(t, v) == 1
  {
    StackIsScoped(t);
    ScopedIsReadable(t);
    TablesNamed(t);
    if !Only(t).val.TableBase? {
      StackGrows(Only(t), v, c);
    }
  }

  predicate Lands(t: Plain, u: Plain, v: Val, c: Condition) {
    && Tables(u) == Tables(t)
    && Count(u, c) == Count(t, c) + (if ConditionAt(v) == c then 1 else 0)
  }

  /** A bare table or a stack, seen from the join above it. */
  function Covering(t: Plain, v: Val, left: bool): Plain {
    if IsTableOf(t, v) then if left then Node((), v, t, Nil) else Node((), v, Nil, t) else Placed(t, (), v)
  }

  lemma StackLands(t: Plain, v: Val, left: bool, c: Condition)
    requires Stack(t) && OneTable(v, Tables(t))
    ensures var u := Covering(t, v, left); Stack(u) && Scoped(u) && Lands(t, u, v, c)
    ensures !IsTableOf(t, v) ==> Places(t, v) == 1
  {
    StackIsScoped(t);
    if !IsTableOf(t, v) {
      StackGrows(t, v, c);
    }
    StackIsScoped(Covering(t, v, left));
  }

  lemma SidesReplaced(t: Plain, left: Plain, right: Plain)
    requires Pushed(t) && Scoped(t) && Scoped(left) && Scoped(right)
    requires (Pushed(left) || Stack(left)) && Stack(right)
    requires Tables(left) == Tables(t.left) && Tables(right) == Tables(t.right)
    ensures var u := Node(t.at, t.val, left, right); Pushed(u) && Scoped(u) && Tables(u) == Tables(t)
  {
    var u := Node(t.at, t.val, left, right);
    assert Tables(u) == Tables(left) + Tables(right);
    assert Tables(t) == Tables(t.left) + Tables(t.right);
  }

  lemma PlacedAbove(t: Plain, v: Val)
    requires Pushed(t) && Scoped(t) && OneTable(v, Tables(t))
    ensures var left := v.table in Tables(t.left);
            && Placed(t, (), v) == Node(t.at, t.val, if left then Covering(t.left, v, true) else t.left,
                                        if left then t.right else Covering(t.right, v, false))
            && Places(t, v) == if left then (if IsTableOf(t.left, v) then 1 else Places(t.left, v))
                               else if IsTableOf(t.right, v) then 1 else Places(t.right, v)
  {
    PushedIsNamed(t);
    if v.table in Tables(t.left) {
      NoPlace(t.right, v);
      NotHere(t.right, v);
    } else {
      NoPlace(t.left, v);
      NotHere(t.left, v);
    }
  }

  /** The predicate lands once, directly over its table, and nothing else changes. */
  lemma {:induction false} PlacedOnce(t: Plain, v: Val, c: Condition)
    requires Pushed(t) && Scoped(t) && OneTable(v, Tables(t))
    ensures Pushed(Placed(t, (), v)) && Scoped(Placed(t, (), v)) && Lands(t, Placed(t, (), v), v, c)
    ensures Places(t, v) == 1
  {
    PlacedAbove(t, v);
    if v.table in Tables(t.left) {
      if Stack(t.left) {
        StackLands(t.left, v, true, c);
      } else {
        PlacedOnce(t.left, v, c);
      }
      StackIsScoped(t.right);
      SidesReplaced(t, Covering(t.left, v, true), t.right);
    } else {
      StackLands(t.right, v, false, c);
      SidesReplaced(t, t.left, Covering(t.right, v, false));
    }
  }

  lemma NotHere(t: Plain, v: Val)
    requires Pushed(t) || Stack(t)
    requires v.Where? && v.table != "" && v.table !in Tables(t)
    ensures !IsTableOf(t, v)
  {
  }

  // -------------------------------------------------------------------------------------------
  // The optimizer keeps the meaning
  // -------------------------------------------------------------------------------------------

  ghost predicate Rest(t: Plain) {
    OnClauses(t) && Pushed(Below(t)) && Scoped(Below(t))
  }

  lemma PlacedUnderClauses(t: Plain, v: Val, c: Condition)
    requires Rest(t) && OneTable(v, Tables(t)) && c != Nothing
    ensures var u := Placed(t, (), v);
            && Rest(u) && Tables(u) == Tables(t) && Clauses(u) == Clauses(t) && Places(t, v) == 1
            && Count(u, c) == Count(t, c) + if ConditionAt(v) == c then 1 else 0
  {
    ClausesPass(t, v);
    PlacedOnce(Below(t), v, c);
    ClausesPass(Placed(t, (), v), v);
  }

  lemma CountFirst(vs: seq<Val>, c: Condition)
    requires vs != []
    ensures CountIn(vs, c) == (if ConditionAt(vs[0]) == c then 1 else 0) + CountIn(vs[1..], c)
  {
    assert vs == [vs[0]] + vs[1..] && [] + [vs[0]] == [vs[0]];
    CountConcat([vs[0]], vs[1..], c);
    CountAppend([], vs[0], c);
  }

  lemma {:induction false} AllPlacedKeeps(t: Plain, vs: seq<Val>, c: Condition)
    requires Rest(t) && (forall v :: v in vs ==> OneTable(v, Tables(t))) && c != Nothing
    ensures var u := AllPlaced(t, vs);
            Rest(u) && Tables(u) == Tables(t) && Clauses(u) == Clauses(t) && Count(u, c) == Count(t, c) + CountIn(vs, c)
    decreases |vs|
  {
    if vs != [] {
      PlacedUnderClauses(t, vs[0], c);
      AllPlacedKeeps(Placed(t, (), vs[0]), vs[1..], c);
      CountFirst(vs, c);
    }
  }

  /** Before the predicates are put back. */
  lemma JoinsInPlace(t: Plain)
    requires Linking(t)
    ensures var u := Replaced(Bare(t), JoinTree(Joins(Wheres(t))));
            && Rest(u) && Tables(u) == Tables(t) && Clauses(u) == Clauses(t)
            && forall c :: c != Nothing ==> Count(u, c) == CountIn(Joins(Wheres(t)), c)
  {
    var joins := JoinTree(Joins(Wheres(t)));
    JoinTreeScoped(Joins(Wheres(t)));
    JoinsReplace(t, joins);
    ClausesPass(Replaced(Bare(t), joins), Where("", "", "", "", "", "", ""));
    forall c ensures c != Nothing ==> Count(joins, c) == CountIn(Joins(Wheres(t)), c) {
      if c != Nothing { JoinTreeCounts(Joins(Wheres(t)), c); }
    }
  }

  /** Clauses untouched, left-deep joins over the same tables, no predicate above a join, every condition kept once. */
  lemma OptimizedShape(t: Plain, c: Condition)
    requires Linking(t) && c != Nothing
    ensures var u := Optimized(t);
            Rest(u) && Scoped(u) && Tables(u) == Tables(t) && Clauses(u) == Clauses(t) && Count(u, c) == Count(t, c)
  {
    var vs := Wheres(t);
    JoinsInPlace(t);
    AllPlacedKeeps(Replaced(Bare(t), JoinTree(Joins(vs))), Predicates(vs), c);
    ClausesPass(Optimized(t), Where("", "", "", "", "", "", ""));
    WheresCount(t, c);
    CrossProductIsPlain(From(t), c);
    SplitCounts(vs, c);
  }

  /** Over readable joins, conditions about tables of the query read tables below them. */
  lemma {:induction false} QueryIsReadable(t: Plain)
    requires Query(t) && Readable(From(t)) && forall i :: 0 <= i < |Wheres(t)| ==> TablesAt(Wheres(t)[i]) <= Tables(t)
    ensures Readable(t)
  {
    if !t.val.TableJoin? {
      FilteredIsQuery(t);
      assert Tables(t) == Tables(t.left);
      var k := if t.val.Where? then 1 else 0;
      assert Wheres(t)[k..] == Wheres(t.left);
      assert k == 1 ==> Wheres(t)[0] == t.val;
      QueryIsReadable(t.left);
    }
  }

  lemma CoveredAppend(cs: seq<Val>, v: Val)
    requires AreJoins(cs) && IsJoinCondition(v)
    ensures AreJoins(cs + [v]) && Covered(cs + [v]) == Covered(cs) + TablesAt(v)
  {
    assert (cs + [v])[..|cs|] == cs;
  }

  lemma {:induction false} JoinIsCovered(vs: seq<Val>, i: nat)
    requires i < |vs| && IsJoinCondition(vs[i])
    ensures TablesAt(vs[i]) <= Covered(Joins(vs))
  {
    var k := |vs| - 1;
    if i < k {
      JoinIsCovered(vs[..k], i);
    }
    if IsJoinCondition(vs[k]) {
      CoveredAppend(Joins(vs[..k]), vs[k]);
    }
  }

  lemma {:induction false} OtherIsPredicate(vs: seq<Val>, i: nat)
    requires i < |vs| && !IsJoinCondition(vs[i])
    ensures vs[i] in Predicates(vs)
  {
    var k := |vs| - 1;
    if i < k {
      OtherIsPredicate(vs[..k], i);
    }
  }
}
