/**
 Queries over one table: there is no join for the first optimizer to replace.
 */
module SingleTable {
  import opened Ast
  import opened Pushdown
  import opened PushdownExact
  import opened TableRows

  /** Clauses and WHERE nodes over a table, the clauses on top. */
  predicate SingleQuery(t: Plain) {
    t.Node? && if t.val.Clause? then t.right.Nil? && SingleQuery(t.left) else SingleFiltered(t)
  }

  predicate SingleFiltered(t: Plain) {
    t.Node? && if t.val.Where? then t.right.Nil? && SingleFiltered(t.left)
               else t.val.TableBase? && t.val.tableName != "" && t.left.Nil? && t.right.Nil?
  }

  /** Clauses over WHERE nodes over a table, the WHERE nodes on either side. */
  predicate SingleUnder(t: Plain) {
    t.Node? && if t.val.Clause? then t.right.Nil? && SingleUnder(t.left) else SingleStack(t)
  }

  predicate SingleStack(t: Plain) {
    t.Node? && if t.val.Where? then (t.left.Nil? || t.right.Nil?) && SingleStack(Only(t))
               else t.val.TableBase? && t.val.tableName != "" && t.left.Nil? && t.right.Nil?
  }

  lemma SingleStep(t: Plain)
    requires SingleQuery(t) && !t.val.TableBase?
    ensures t.right.Nil? && SingleQuery(t.left) && (t.val.Where? || t.val.Clause?)
    ensures !t.val.Clause? ==> !t.left.val.Clause?
  {
    if t.val.Where? {
      assert SingleFiltered(t.left);
    }
  }

  lemma UnderStep(t: Plain)
    requires SingleUnder(t) && !t.val.TableBase?
    ensures Only(t).Node? && SingleUnder(Only(t)) && (t.left.Nil? || t.right.Nil?)
  {
    if t.val.Where? {
      assert SingleStack(Only(t));
    }
  }

  lemma {:induction false} SingleBare(t: Plain, joins: Plain)
    requires SingleQuery(t)
    ensures var u := Bare(t);
            && Replaced(u, joins) == u && SingleUnder(u) && Tables(u) == Tables(t) && (u.val.Clause? <==> t.val.Clause?)
            && (!u.val.Clause? ==> u.val.TableBase?) && forall c :: c != Nothing ==> Count(u, c) == 0
  {
    if !t.val.TableBase? {
      SingleStep(t);
      SingleBare(t.left, joins);
    }
  }

  lemma CountHere(t: Plain, c: Condition)
    requires SingleQuery(t) && !t.val.TableBase? && c != Nothing
    ensures Count(t, c) == CountIn(if t.val.Where? then [t.val] else [], c) + Count(t.left, c)
  {
    SingleStep(t);
    var none: Plain := Nil;
    assert Count(none, c) == 0 && CountIn([], c) == 0;
    CountAppend([], t.val, c);
    assert [] + [t.val] == [t.val];
  }

  lemma {:induction false} SingleCounts(t: Plain, c: Condition)
    requires SingleQuery(t) && c != Nothing
    ensures CountIn(Wheres(t), c) == Count(t, c)
  {
    if t.val.TableBase? {
      assert Count(t, c) == 0;
    } else {
      SingleStep(t);
      SingleCounts(t.left, c);
      var first := if t.val.Where? then [t.val] else [];
      CountConcat(first, Wheres(t.left), c);
      CountHere(t, c);
      assert Wheres(t) == first + Wheres(t.left);
    }
  }

  lemma {:induction false} SingleReadable(t: Plain)
    requires SingleQuery(t) && FromTables(t)
    ensures Readable(t) && Tables(t) != {}
  {
    if !t.val.TableBase? {
      SingleStep(t);
      assert Tables(t) == Tables(t.left);
      assert forall v :: v in Wheres(t.left) ==> v in Wheres(t);
      SingleReadable(t.left);
    }
  }

  /** Below a clause each predicate finds the table or what stands on it already. */
  lemma {:induction false} SinglePlaced(t: Plain, v: Val)
    requires SingleUnder(t) && !t.val.TableBase? && Readable(t) && v.Where? && Tables(t) == TablesAt(v) == {v.table}
    ensures var u := Placed(t, (), v);
            && SingleUnder(u) && u.val == t.val && Readable(u) && Tables(u) == Tables(t) && Places(t, v) == 1
  {
    UnderStep(t);
    assert Tables(t) == Tables(Only(t));
    if !Only(t).val.TableBase? {
      SinglePlaced(Only(t), v);
      assert Only(Placed(t, (), v)) == Placed(Only(t), (), v);
      if t.val.Where? {
        assert SingleStack(Only(t)) && Only(t).val.Where?;
        assert SingleUnder(Placed(Only(t), (), v)) && Placed(Only(t), (), v).val.Where?;
      }
    }
  }

  lemma {:induction false} SingleAllPlaced(t: Plain, vs: seq<Val>, c: Condition)
    requires SingleUnder(t) && t.val.Clause? && Readable(t)
    requires forall v :: v in vs ==> v.Where? && Tables(t) == TablesAt(v) == {v.table}
    ensures var u := AllPlaced(t, vs);
            Readable(u) && Tables(u) == Tables(t) && Count(u, c) == Count(t, c) + CountIn(vs, c)
    decreases |vs|
  {
    if vs != [] {
      SinglePlaced(t, vs[0]);
      PlacedCounts(t, vs[0], c);
      CountFirst(vs, c);
      SingleAllPlaced(Placed(t, (), vs[0]), vs[1..], c);
    }
  }

  /** At a bare table there is nothing to hang a predicate on. */
  lemma {:induction false} NothingPlaced(t: Plain, vs: seq<Val>)
    requires t.Node? && t.left.Nil? && t.right.Nil?
    ensures AllPlaced(t, vs) == t
    decreases |vs|
  {
    if vs != [] {
      assert Placed(t, (), vs[0]) == t;
      NothingPlaced(t, vs[1..]);
    }
  }

  /** A comparison of a column with itself. */
  predicate Trivial(v: Val) {
    v.Where? && v.table == v.table2 && v.column == v.column2
  }

  /** The optimizer keeps the predicates, if there is a clause to hold them, and never an equality. */
  predicate SingleSound(t: Plain) {
    && (forall v :: v in Joins(Wheres(t)) ==> Trivial(v))
    && (Predicates(Wheres(t)) == [] || t.val.Clause?)
  }

  lemma SingleTable(t: Plain, v: Val)
    requires SingleQuery(t) && FromTables(t) && v in Wheres(t)
    ensures v.Where? && Tables(t) == TablesAt(v) == {v.table}
  {
    WheresAreWheres(t);
    SingleName(t);
    assert TablesAt(v) <= Tables(t) && v.table in TablesAt(v);
  }

  lemma {:induction false} SingleName(t: Plain)
    requires SingleQuery(t)
    ensures exists name :: Tables(t) == {name}
  {
    if t.val.TableBase? {
      assert Tables(t) == {t.val.tableName};
    } else {
      SingleStep(t);
      assert Tables(t) == Tables(t.left);
      SingleName(t.left);
    }
  }

  /** The conditions of the optimized query. */
  lemma SingleOptimized(t: Plain, c: Condition)
    requires SingleQuery(t) && FromTables(t) && c != Nothing
    ensures var u := Optimized(t);
            && Readable(u) && Tables(u) == Tables(t)
            && Count(u, c) == if t.val.Clause? then CountIn(Predicates(Wheres(t)), c) else 0
  {
    var ps := Predicates(Wheres(t));
    SingleBare(t, JoinTree(Joins(Wheres(t))));
    BareReadable(Bare(t));
    forall v | v in ps ensures v.Where? && Tables(t) == TablesAt(v) == {v.table} {
      SplitIn(Wheres(t), v);
      SingleTable(t, v);
    }
    if t.val.Clause? {
      SingleAllPlaced(Bare(t), ps, c);
    } else {
      NothingPlaced(Bare(t), ps);
    }
  }

  lemma {:induction false} BareReadable(t: Plain)
    requires SingleUnder(t) && forall c :: c != Nothing ==> Count(t, c) == 0
    ensures Readable(t)
  {
    if t.val.Clause? {
      forall c | c != Nothing ensures Count(t.left, c) == 0 {
        assert Count(t, c) == 0;
      }
      BareReadable(t.left);
    } else if t.val.Where? {
      assert Count(t, ConditionAt(t.val)) > 0;
    }
  }

  lemma SingleKept(db: Database, t: Plain, r: Row)
    requires SingleQuery(t) && FromTables(t) && SingleSound(t)
    ensures Result(db, t, r) <==> Result(db, Optimized(t), r)
  {
    SingleReadable(t);
    SingleOptimized(t, Check(t.val));
    ResultIsConjunction(db, t, r);
    ResultIsConjunction(db, Optimized(t), r);
    forall c | c != Nothing ensures Count(Optimized(t), c) > 0 ==> Count(t, c) > 0
      ensures Count(t, c) > 0 && Count(Optimized(t), c) == 0 ==> Test(db, c, r)
    {
      DroppedHolds(db, t, r, c);
    }
    NothingHolds(db, t, r);
    NothingHolds(db, Optimized(t), r);
  }

  /** No condition is new, and one that has been dropped compares a column with itself. */
  lemma DroppedHolds(db: Database, t: Plain, r: Row, c: Condition)
    requires SingleQuery(t) && FromTables(t) && SingleSound(t) && c != Nothing
    ensures Count(Optimized(t), c) > 0 ==> Count(t, c) > 0
    ensures Count(t, c) > 0 && Count(Optimized(t), c) == 0 ==> Test(db, c, r)
  {
    SingleOptimized(t, c);
    SingleCounts(t, c);
    SplitCounts(Wheres(t), c);
    if CountIn(Joins(Wheres(t)), c) > 0 {
      var v := CountedIn(Joins(Wheres(t)), c);
    }
  }

  /** Two rows, one cell of the first odd; the predicate holds of no row. */
  ghost function Strict(cell: (string, string), v: Val): Database {
    Database(imap name: string | |name| >= 0 :: 2,
             imap k: (string, string, nat) | |k.0| >= 0 :: if (k.0, k.1) == cell && k.2 == 0 then "odd" else "",
             iset p: (Val, nat, nat) | p.0 != v && p.1 >= 0)
  }

  /** A condition that has been dropped can be the only one that fails. */
  lemma SingleLost(t: Plain) returns (db: Database, r: Row)
    requires SingleQuery(t) && FromTables(t) && !SingleSound(t)
    ensures !Result(db, t, r) && Result(db, Optimized(t), r)
  {
    var js, ps := Joins(Wheres(t)), Predicates(Wheres(t));
    var v;
    if j :| j in js && !Trivial(j) {
      v := j;
      assert IsJoinCondition(v);
    } else {
      v := ps[0];
      PredicateIsCheck(Wheres(t), v);
    }
    SplitIn(Wheres(t), v);
    SingleTable(t, v);
    db := if IsJoinCondition(v) then Strict((v.table, v.column), Clause("")) else Strict(("", ""), v);
    r := map[v.table := 0];
    OnlyDroppedFails(t, v, db, r);
  }

  lemma OnlyDroppedFails(t: Plain, v: Val, db: Database, r: Row)
    requires SingleQuery(t) && FromTables(t) && v in Wheres(t) && v.Where? && Tables(t) == TablesAt(v) == {v.table}
    requires r == map[v.table := 0]
    requires if IsJoinCondition(v) then !Trivial(v) && db == Strict((v.table, v.column), Clause(""))
             else db == Strict(("", ""), v) && !t.val.Clause?
    ensures !Result(db, t, r) && Result(db, Optimized(t), r)
  {
    SingleReadable(t);
    SingleOptimized(t, Check(v));
    ResultIsConjunction(db, t, r);
    ResultIsConjunction(db, Optimized(t), r);
    assert IsJoinCondition(v) ==> v.table2 in TablesAt(v);
    DroppedFails(t, v, db, r);
    KeptHold(t, v, db, r);
  }

  lemma DroppedFails(t: Plain, v: Val, db: Database, r: Row)
    requires SingleQuery(t) && v in Wheres(t) && v.Where? && r == map[v.table := 0]
    requires if IsJoinCondition(v)
             then !Trivial(v) && v.table2 == v.table && db == Strict((v.table, v.column), Clause(""))
             else db == Strict(("", ""), v)
    ensures exists c :: Count(t, c) > 0 && !Test(db, c, r)
  {
    var c := ConditionAt(v);
    InIsCounted(Wheres(t), v);
    SingleCounts(t, c);
    if IsJoinCondition(v) {
      var x, y := (v.table, v.column), (v.table2, v.column2);
      assert c == Equal({x, y}) && x in c.ends && y in c.ends;
      assert Value(db, r, x) == "odd" && Value(db, r, y) == "";
    }
    assert !Test(db, c, r);
  }

  lemma KeptHold(t: Plain, v: Val, db: Database, r: Row)
    requires SingleQuery(t) && FromTables(t) && v in Wheres(t) && v.Where? && r == map[v.table := 0]
    requires if IsJoinCondition(v) then db == Strict((v.table, v.column), Clause(""))
             else db == Strict(("", ""), v) && !t.val.Clause?
    ensures forall c :: Count(Optimized(t), c) > 0 ==> Test(db, c, r)
  {
    forall c | Count(Optimized(t), c) > 0 ensures Test(db, c, r) {
      if c != Nothing {
        SingleOptimized(t, c);
        var p := CountedIn(Predicates(Wheres(t)), c);
        PredicateIsCheck(Wheres(t), p);
        SplitIn(Wheres(t), p);
        WheresAreWheres(t);
      }
    }
  }

  /**
   Over one table the optimizer keeps the meaning, whatever the data, exactly if there is no equality between
   two columns, which it would take for a join, and no predicate without a clause above to hang it under.
   */
  lemma SingleKeptIffSound(t: Plain)
    requires SingleQuery(t) && FromTables(t)
    ensures SingleSound(t) <==> forall db, r :: Result(db, t, r) <==> Result(db, Optimized(t), r)
  {
    if SingleSound(t) {
      forall db, r ensures Result(db, t, r) <==> Result(db, Optimized(t), r) {
        SingleKept(db, t, r);
      }
    } else {
      var db, r := SingleLost(t);
    }
  }
}
