/**
 `placeSemiJoins`: a join that only filters becomes a semi-join.

 All base tables of a tree are distinct, so a row of a join is a row number for each table and no
 row occurs twice.  A semi-join hides the tables of the side it discards.
 */
module SemiJoins {
  import opened Relational
  import opened PlanTree
  import opened Rewiring
  import TableRows

  type Tuple = TableRows.Row

  datatype Database = Database(rows: map<string, nat>, cells: imap<(Column, nat), int>, passes: iset<(Op, seq<int>)>)

  ghost function Value(db: Database, r: Tuple, c: Column): int {
    var k := (c, if c.table in r then r[c.table] else 0);
    if k in db.cells then db.cells[k] else 0
  }

  ghost function Values(db: Database, r: Tuple, cols: seq<Column>): (vs: seq<int>)
    ensures |vs| == |cols| && forall i :: 0 <= i < |vs| ==> vs[i] == Value(db, r, cols[i])
  {
    seq(|cols|, i requires 0 <= i < |cols| => Value(db, r, cols[i]))
  }

  predicate Compares(c: Comparison, inner: int, outer: int) {
    match c
    case LT => inner < outer
    case LE => inner <= outer
    case EQ => inner == outer
    case GE => inner >= outer
    case GT => inner > outer
    case NE => inner != outer
    case _ => false
  }

  // -------------------------------------------------------------------------------------------
  // Rows of a tree of filters, joins and semi-joins
  // -------------------------------------------------------------------------------------------

  /** The side a column's table is on: sides are told apart by table, children are never swapped. */
  function SideOf(t: Tree, c: Column): nat
    requires |t.subs| == 2
  {
    if c.table in Tables(t.subs[1]) then 1 else 0
  }

  /** The tables whose row numbers a row of `t` still carries. */
  function Visible(t: Tree): set<string> {
    if |t.subs| == 0 then Tables(t)
    else if |t.subs| == 1 || |t.inputs| < 2 then Visible(t.subs[0])
    else if t.op.SemiJoinOp? && |t.subs| == 2 then Visible(t.subs[1 - SideOf(t, t.inputs[0])])
    else Visible(t.subs[0]) + Visible(t.subs[1])
  }

  ghost predicate Meets(db: Database, t: Tree, r: Tuple)
    requires |t.inputs| == 2 && (t.op.JoinOp? || t.op.SemiJoinOp?)
  {
    Compares(t.op.joinPredicate, Value(db, r, t.inputs[0]), Value(db, r, t.inputs[1]))
  }

  predicate Joined(p: Tuple, q: Tuple, r: Tuple) {
    p.Keys !! q.Keys && r == p + q
  }

  /** `r` is a row of `t`. */
  ghost predicate RowOf(db: Database, t: Tree, r: Tuple) {
    if |t.subs| == 0 then
      |t.inputs| == 1 && r.Keys == {t.inputs[0].table} && t.inputs[0].table in db.rows
      && r[t.inputs[0].table] < db.rows[t.inputs[0].table]
    else if |t.subs| == 2 && |t.inputs| == 2 && t.op.JoinOp? then
      exists p, q :: RowOf(db, t.subs[0], p) && RowOf(db, t.subs[1], q) && Joined(p, q, r) && Meets(db, t, r)
    else if |t.subs| == 2 && |t.inputs| == 2 && t.op.SemiJoinOp? then
      var k := SideOf(t, t.inputs[0]);
      RowOf(db, t.subs[1 - k], r) && exists d :: RowOf(db, t.subs[k], d) && d.Keys !! r.Keys && Meets(db, t, r + d)
    else
      RowOf(db, t.subs[0], r) && (t.op.FilterOp? ==> (t.op, Values(db, r, t.inputs)) in db.passes)
  }

  /** Filters and inner joins over distinct base tables, each join column on its own side; other nodes pass rows on. */
  predicate JoinPlan(t: Tree) {
    match t.op
    case FetchOp(_) => t.subs == [] && |t.inputs| == 1 && t.outputs == t.inputs
    case JoinOp(_) =>
      && |t.subs| == 2 && JoinPlan(t.subs[0]) && JoinPlan(t.subs[1]) && Tables(t.subs[0]) !! Tables(t.subs[1])
      && |t.inputs| == 2 && t.outputs == t.inputs
      && t.inputs[0].table in Tables(t.subs[0]) + Tables(t.subs[1])
      && t.inputs[1].table in Tables(t.subs[1 - SideOf(t, t.inputs[0])])
    case SemiJoinOp(_) => false
    case _ =>
      && |t.subs| == 1 && JoinPlan(t.subs[0])
      && (t.op.FilterOp? ==> forall c :: c in t.inputs ==> c.table in Tables(t.subs[0]))
  }

  // -------------------------------------------------------------------------------------------
  // The pass as a function
  // -------------------------------------------------------------------------------------------

  function TablesRead(cols: seq<Column>): set<string> {
    set c | c in cols :: c.table
  }

  /** The column a join would give up: the outer one if only the inner table is needed, else the inner one. */
  function Discarded(t: Tree, needed: set<string>): Column
    requires |t.inputs| == 2
  {
    if t.inputs[0].table in needed then t.inputs[1] else t.inputs[0]
  }

  predicate Converts(t: Tree, needed: set<string>, unique: set<Column>) {
    && t.op.JoinOp? && |t.inputs| == 2
    && !(t.inputs[0].table in needed && t.inputs[1].table in needed)
    && Discarded(t, needed) in unique
  }

  function Swapped(cols: seq<Column>): seq<Column> {
    if |cols| == 2 then [cols[1], cols[0]] else cols
  }

  function Rewritten(t: Tree, needed: set<string>, unique: set<Column>): (t': Tree)
    ensures t'.node == t.node && |t'.subs| == |t.subs|
    decreases t
  {
    var later := needed + TablesRead(t.inputs);
    var subs := seq(|t.subs|, i requires 0 <= i < |t.subs| => Rewritten(t.subs[i], later, unique));
    if Converts(t, needed, unique) then
      var swap := t.inputs[0].table in needed;
      Tree(t.node, SemiJoinOp(t.op.joinPredicate), if swap then Swapped(t.inputs) else t.inputs,
           if swap then Swapped(t.outputs) else t.outputs, subs)
    else Tree(t.node, t.op, t.inputs, t.outputs, subs)
  }

  // -------------------------------------------------------------------------------------------
  // When it keeps the rows
  // -------------------------------------------------------------------------------------------

  /** No converted join gives up a side with a table that is read above. */
  predicate Spares(t: Tree, needed: set<string>, unique: set<Column>)
    decreases t
  {
    && (Converts(t, needed, unique) && |t.subs| == 2 ==> needed !! Tables(t.subs[SideOf(t, Discarded(t, needed))]))
    && forall i :: 0 <= i < |t.subs| ==> Spares(t.subs[i], needed + TablesRead(t.inputs), unique)
  }

  /** Comparisons that mean the same the other way round; BETWEEN and IN hold of no two values here. */
  predicate Mirrorable(c: Comparison) {
    !(c.LT? || c.LE? || c.GE? || c.GT?)
  }

  /** The columns of a converted join change places only if its comparison may be read backwards: it is not turned. */
  predicate Sifts(t: Tree, needed: set<string>, unique: set<Column>)
    decreases t
  {
    && (Converts(t, needed, unique) ==> Mirrorable(t.op.joinPredicate) || t.inputs[0].table !in needed)
    && forall i :: 0 <= i < |t.subs| ==> Sifts(t.subs[i], needed + TablesRead(t.inputs), unique)
  }

  /** A row of `t` is fixed by its row number for `table`: every join on the way is an equality into a unique column. */
  predicate Determines(t: Tree, table: string, unique: set<Column>)
    decreases t
  {
    if |t.subs| == 0 then true
    else if |t.subs| != 2 || |t.inputs| != 2 || !t.op.JoinOp? then Determines(t.subs[0], table, unique)
    else
      var i := if table in Tables(t.subs[0]) then 0 else 1;
      var c := if SideOf(t, t.inputs[0]) == i then t.inputs[1] else t.inputs[0];
      && t.op.joinPredicate.EQ? && c in unique
      && Determines(t.subs[i], table, unique) && Determines(t.subs[1 - i], c.table, unique)
  }

  /** Every converted join is an equality, and the row it finds fixes the whole row of the side it gives up. */
  predicate Lossless(t: Tree, needed: set<string>, unique: set<Column>)
    decreases t
  {
    && (Converts(t, needed, unique) && |t.subs| == 2 ==>
          && t.op.joinPredicate.EQ?
          && Determines(t.subs[SideOf(t, Discarded(t, needed))], Discarded(t, needed).table, unique))
    && forall i :: 0 <= i < |t.subs| ==> Lossless(t.subs[i], needed + TablesRead(t.inputs), unique)
  }

  /** A join of the plan holds of no two values. */
  predicate Dead(t: Tree) {
    || (t.op.JoinOp? && (t.op.joinPredicate.BETWEEN? || t.op.joinPredicate.IN?))
    || exists i :: 0 <= i < |t.subs| && Dead(t.subs[i])
  }

  /** What a caller has to check before the call; module SemiJoinsExact shows that no plan is shut out for nothing. */
  predicate Safe(t: Tree, needed: set<string>, unique: set<Column>) {
    Spares(t, needed, unique) && (Dead(t) || Lossless(t, needed, unique))
  }

  lemma {:induction false} LosslessSifts(t: Tree, needed: set<string>, unique: set<Column>)
    requires JoinPlan(t) && Lossless(t, needed, unique)
    ensures Sifts(t, needed, unique)
    decreases t
  {
    forall i | 0 <= i < |t.subs| ensures Sifts(t.subs[i], needed + TablesRead(t.inputs), unique) {
      LosslessSifts(t.subs[i], needed + TablesRead(t.inputs), unique);
    }
  }

  ghost predicate Respects(db: Database, unique: set<Column>) {
    forall c, i: nat, j: nat :: c in unique && c.table in db.rows && i < j < db.rows[c.table] ==>
      Value(db, map[c.table := i], c) != Value(db, map[c.table := j], c)
  }

  // -------------------------------------------------------------------------------------------
  // Which tables stay visible
  // -------------------------------------------------------------------------------------------

  /** The tables on the sides that the converted joins of `t` give up. */
  function GivenUp(t: Tree, needed: set<string>, unique: set<Column>): set<string>
    decreases t
  {
    var later := needed + TablesRead(t.inputs);
    (if |t.subs| > 0 then GivenUp(t.subs[0], later, unique) else {})
    + (if |t.subs| > 1 then GivenUp(t.subs[1], later, unique) else {})
    + (if Converts(t, needed, unique) && |t.subs| == 2 then Tables(t.subs[SideOf(t, Discarded(t, needed))]) else {})
  }

  /** What the pass leaves in place, and what the plan below a node looks like. */
  lemma Children(t: Tree, needed: set<string>, unique: set<Column>, i: nat)
    requires JoinPlan(t) && i < |t.subs|
    ensures JoinPlan(t.subs[i])
            && Rewritten(t, needed, unique).subs[i] == Rewritten(t.subs[i], needed + TablesRead(t.inputs), unique)
    ensures |t.subs| == 2 <==> t.op.JoinOp?
    ensures Spares(t, needed, unique) ==> Spares(t.subs[i], needed + TablesRead(t.inputs), unique)
    ensures Sifts(t, needed, unique) ==> Sifts(t.subs[i], needed + TablesRead(t.inputs), unique)
    ensures Lossless(t, needed, unique) ==> Lossless(t.subs[i], needed + TablesRead(t.inputs), unique)
  {
  }

  /** A converted join keeps side `keep`. */
  lemma Conversion(t: Tree, needed: set<string>, unique: set<Column>) returns (keep: nat)
    requires JoinPlan(t) && Converts(t, needed, unique)
    ensures keep < 2 && keep == 1 - SideOf(t, Discarded(t, needed))
    ensures Discarded(t, needed).table in Tables(t.subs[1 - keep]) && Kept(t, needed).table in Tables(t.subs[keep])
    ensures var t' := Rewritten(t, needed, unique);
            t'.op == SemiJoinOp(t.op.joinPredicate) && t'.inputs == [Discarded(t, needed), Kept(t, needed)]
  {
    keep := 1 - SideOf(t, Discarded(t, needed));
  }

  function Kept(t: Tree, needed: set<string>): Column
    requires |t.inputs| == 2
  {
    if t.inputs[0].table in needed then t.inputs[0] else t.inputs[1]
  }

  /** `u` is the join `t` or a semi-join in its place. */
  predicate Replaces(t: Tree, u: Tree, needed: set<string>, unique: set<Column>)
    requires |t.inputs| == 2
  {
    var inner, outer := t.inputs[0], t.inputs[1];
    if u.op.SemiJoinOp? then
      // the column given up comes first, is unique and belongs to a table nobody reads above
      && t.op.JoinOp? && u.op.joinPredicate == t.op.joinPredicate && |u.inputs| == 2
      && {u.inputs[0], u.inputs[1]} == {inner, outer}
      && u.inputs[0] in unique && u.inputs[0].table !in needed && (u.inputs == t.inputs <==> inner.table !in needed)
    else
      // neither column could have been given up, the inner one having precedence
      && u.op == t.op && u.inputs == t.inputs
      && (inner.table !in needed ==> inner !in unique)
      && (inner.table in needed && outer.table !in needed ==> outer !in unique)
  }

  /**
   The same nodes in the same places; joins and semi-joins output what they read, and everything but
   the joins is as it was.
   */
  predicate Recast(t: Tree, u: Tree, needed: set<string>, unique: set<Column>) {
    && u.node == t.node && |u.subs| == |t.subs|
    && (if t.op.JoinOp? then |t.inputs| == 2 && Replaces(t, u, needed, unique) && u.outputs == u.inputs
        else u.op == t.op && u.inputs == t.inputs && u.outputs == t.outputs)
    && forall i :: 0 <= i < |t.subs| ==> Recast(t.subs[i], u.subs[i], needed + TablesRead(t.inputs), unique)
  }

  lemma {:induction false} RewrittenIsRecast(t: Tree, needed: set<string>, unique: set<Column>)
    requires JoinPlan(t)
    ensures Recast(t, Rewritten(t, needed, unique), needed, unique)
    decreases t
  {
    forall i | 0 <= i < |t.subs|
      ensures Recast(t.subs[i], Rewritten(t, needed, unique).subs[i], needed + TablesRead(t.inputs), unique)
    {
      Children(t, needed, unique, i);
      RewrittenIsRecast(t.subs[i], needed + TablesRead(t.inputs), unique);
    }
    if t.op.JoinOp? {
      JoinShape(t);
      JoinRecast(t, needed, unique);
    }
  }

  lemma JoinRecast(t: Tree, needed: set<string>, unique: set<Column>)
    requires t.op.JoinOp? && |t.inputs| == 2 && t.outputs == t.inputs && t.inputs[0] != t.inputs[1]
    ensures var u := Rewritten(t, needed, unique); Replaces(t, u, needed, unique) && u.outputs == u.inputs
  {
  }

  lemma JoinShape(t: Tree)
    requires JoinPlan(t) && t.op.JoinOp?
    ensures |t.subs| == 2 && |t.inputs| == 2 && Tables(t) == Tables(t.subs[0]) + Tables(t.subs[1])
    ensures Tables(t.subs[0]) !! Tables(t.subs[1]) && JoinPlan(t.subs[0]) && JoinPlan(t.subs[1])
    ensures forall c :: c in t.inputs ==> c.table in Tables(t.subs[0]) || c.table in Tables(t.subs[1])
  {
    assert t.inputs == [t.inputs[0], t.inputs[1]];
  }

  lemma {:induction false} TablesStay(t: Tree, needed: set<string>, unique: set<Column>)
    requires JoinPlan(t)
    ensures Tables(Rewritten(t, needed, unique)) == Tables(t)
    decreases t
  {
    forall i | 0 <= i < |t.subs| ensures Tables(Rewritten(t, needed, unique).subs[i]) == Tables(t.subs[i]) {
      Children(t, needed, unique, i);
      TablesStay(t.subs[i], needed + TablesRead(t.inputs), unique);
    }
    SameTables(t, Rewritten(t, needed, unique));
  }

  lemma SameTables(t: Tree, u: Tree)
    requires |t.subs| == |u.subs| && (t.subs == [] ==> t.inputs == u.inputs)
    requires forall i :: 0 <= i < |t.subs| ==> Tables(u.subs[i]) == Tables(t.subs[i])
    ensures Tables(u) == Tables(t)
  {
  }

  lemma VisibleCases(t: Tree, needed: set<string>, unique: set<Column>)
    requires JoinPlan(t)
    ensures var t' := Rewritten(t, needed, unique);
            && |t'.subs| == |t.subs| <= 2
            && (|t.subs| == 0 ==> Visible(t') == Tables(t))
            && (|t.subs| == 1 ==> Visible(t') == Visible(t'.subs[0]) && Tables(t) == Tables(t.subs[0]))
            && (|t.subs| == 2 ==> t.op.JoinOp? && |t.inputs| == 2)
            && (|t.subs| == 2 && !Converts(t, needed, unique) ==>
                Visible(t') == Visible(t'.subs[0]) + Visible(t'.subs[1]))
            && (|t.subs| == 2 && Converts(t, needed, unique) ==>
                  Visible(t') == Visible(t'.subs[1 - SideOf(t, Discarded(t, needed))]))
  {
    var t' := Rewritten(t, needed, unique);
    if |t.subs| == 2 {
      TablesStay(t.subs[1], needed + TablesRead(t.inputs), unique);
      if Converts(t, needed, unique) {
        var keep := Conversion(t, needed, unique);
        assert SideOf(t', t'.inputs[0]) == 1 - keep;
      }
    }
  }

  /** After the pass a node shows the tables below it but for those given up, which are its own. */
  lemma {:induction false} VisibleIsRest(t: Tree, needed: set<string>, unique: set<Column>)
    requires JoinPlan(t)
    ensures Visible(Rewritten(t, needed, unique)) == Tables(t) - GivenUp(t, needed, unique)
    ensures GivenUp(t, needed, unique) <= Tables(t)
    decreases t
  {
    var later := needed + TablesRead(t.inputs);
    if t.op.JoinOp? {
      JoinShape(t);
      VisibleIsRest(t.subs[0], later, unique);
      VisibleIsRest(t.subs[1], later, unique);
      JoinIsRest(t, needed, unique);
    } else {
      if t.subs != [] {
        assert JoinPlan(t.subs[0]);
        VisibleIsRest(t.subs[0], later, unique);
      }
      UnaryIsRest(t, needed, unique);
    }
  }

  lemma UnaryIsRest(t: Tree, needed: set<string>, unique: set<Column>)
    requires JoinPlan(t) && !t.op.JoinOp?
    requires t.subs != [] ==>
               var u, later := t.subs[0], needed + TablesRead(t.inputs);
               Visible(Rewritten(u, later, unique)) == Tables(u) - GivenUp(u, later, unique)
               && GivenUp(u, later, unique) <= Tables(u)
    ensures Visible(Rewritten(t, needed, unique)) == Tables(t) - GivenUp(t, needed, unique)
    ensures GivenUp(t, needed, unique) <= Tables(t)
  {
    VisibleCases(t, needed, unique);
    UnaryGivesUp(t, needed, unique);
    if t.subs != [] {
      Children(t, needed, unique, 0);
    }
  }

  lemma UnaryGivesUp(t: Tree, needed: set<string>, unique: set<Column>)
    requires !t.op.JoinOp? && |t.subs| <= 1
    ensures GivenUp(t, needed, unique)
            == if t.subs == [] then {} else GivenUp(t.subs[0], needed + TablesRead(t.inputs), unique)
  {
  }

  lemma JoinIsRest(t: Tree, needed: set<string>, unique: set<Column>)
    requires JoinPlan(t) && t.op.JoinOp? && |t.subs| == 2
    requires forall i :: 0 <= i < 2 ==>
      && var later := needed + TablesRead(t.inputs);
         && Visible(Rewritten(t.subs[i], later, unique)) == Tables(t.subs[i]) - GivenUp(t.subs[i], later, unique)
         && GivenUp(t.subs[i], later, unique) <= Tables(t.subs[i])
    ensures Visible(Rewritten(t, needed, unique)) == Tables(t) - GivenUp(t, needed, unique)
    ensures GivenUp(t, needed, unique) <= Tables(t)
  {
    JoinShape(t);
    Children(t, needed, unique, 0);
    Children(t, needed, unique, 1);
    VisibleCases(t, needed, unique);
    JoinVisible(t, Rewritten(t, needed, unique), needed, unique);
  }

  lemma JoinVisible(t: Tree, u: Tree, needed: set<string>, unique: set<Column>)
    requires |t.subs| == |u.subs| == 2 && |t.inputs| == 2 && Tables(t) == Tables(t.subs[0]) + Tables(t.subs[1])
    requires Tables(t.subs[0]) !! Tables(t.subs[1])
    requires forall i :: 0 <= i < 2 ==>
      && Visible(u.subs[i]) == Tables(t.subs[i]) - GivenUp(t.subs[i], needed + TablesRead(t.inputs), unique)
      && GivenUp(t.subs[i], needed + TablesRead(t.inputs), unique) <= Tables(t.subs[i])
    requires Visible(u) == if Converts(t, needed, unique) then Visible(u.subs[1 - SideOf(t, Discarded(t, needed))])
                           else Visible(u.subs[0]) + Visible(u.subs[1])
    ensures Visible(u) == Tables(t) - GivenUp(t, needed, unique)
    ensures GivenUp(t, needed, unique) <= Tables(t)
  {
    var later := needed + TablesRead(t.inputs);
    var left, right := GivenUp(t.subs[0], later, unique), GivenUp(t.subs[1], later, unique);
    if Converts(t, needed, unique) {
      assert GivenUp(t, needed, unique) == left + right + Tables(t.subs[SideOf(t, Discarded(t, needed))]);
    } else {
      assert GivenUp(t, needed, unique) == left + right;
    }
  }

  /** All tables needed above the plan stay visible exactly if no converted join gives up a side with one of them. */
  lemma NeededIffNotGivenUp(t: Tree, needed: set<string>, unique: set<Column>)
    requires JoinPlan(t)
    ensures needed * Tables(t) <= Visible(Rewritten(t, needed, unique)) <==> needed !! GivenUp(t, needed, unique)
  {
    VisibleIsRest(t, needed, unique);
    if needed * Tables(t) <= Visible(Rewritten(t, needed, unique)) {
      forall x | x in needed ensures x !in GivenUp(t, needed, unique) {
        assert x in Tables(t) ==> x in needed * Tables(t);
      }
    }
  }

  /** At every node of the rewritten plan the tables read there or above are visible. */
  predicate AllVisible(t: Tree, needed: set<string>, unique: set<Column>)
    decreases t
  {
    && needed * Tables(t) <= Visible(Rewritten(t, needed, unique))
    && forall i :: 0 <= i < |t.subs| ==> AllVisible(t.subs[i], needed + TablesRead(t.inputs), unique)
  }

  lemma {:induction false} SparedStay(t: Tree, needed: set<string>, unique: set<Column>)
    requires JoinPlan(t) && Spares(t, needed, unique)
    ensures needed !! GivenUp(t, needed, unique)
    decreases t
  {
    var later := needed + TablesRead(t.inputs);
    forall i | 0 <= i < |t.subs| ensures later !! GivenUp(t.subs[i], later, unique) {
      Children(t, needed, unique, i);
      SparedStay(t.subs[i], later, unique);
    }
    SparedHere(t, needed, later, unique);
  }

  lemma SparedHere(t: Tree, needed: set<string>, later: set<string>, unique: set<Column>)
    requires Spares(t, needed, unique) && later == needed + TablesRead(t.inputs)
    requires forall i :: 0 <= i < |t.subs| ==> later !! GivenUp(t.subs[i], later, unique)
    ensures needed !! GivenUp(t, needed, unique)
  {
    assert forall x :: x in needed ==> x in later;
  }

  /**
   Every operator finds the tables it reads exactly if no converted join gives up a side with a
   table read above it.
   */
  lemma {:induction false} VisibleIffSpared(t: Tree, needed: set<string>, unique: set<Column>)
    requires JoinPlan(t)
    ensures AllVisible(t, needed, unique) <==> Spares(t, needed, unique)
    decreases t
  {
    var later := needed + TablesRead(t.inputs);
    NeededIffNotGivenUp(t, needed, unique);
    forall i | 0 <= i < |t.subs| ensures AllVisible(t.subs[i], later, unique) <==> Spares(t.subs[i], later, unique) {
      Children(t, needed, unique, i);
      VisibleIffSpared(t.subs[i], later, unique);
    }
    if Spares(t, needed, unique) {
      SparedStay(t, needed, unique);
    }
  }

  /** Every table that is needed above stays visible. */
  lemma NeededStayVisible(t: Tree, needed: set<string>, unique: set<Column>)
    requires JoinPlan(t) && Spares(t, needed, unique)
    ensures needed * Tables(t) <= Visible(Rewritten(t, needed, unique)) <= Tables(t)
  {
    SparedStay(t, needed, unique);
    NeededIffNotGivenUp(t, needed, unique);
    VisibleIsRest(t, needed, unique);
  }

  // -------------------------------------------------------------------------------------------
  // Rows before and after
  // -------------------------------------------------------------------------------------------

  lemma JoinedParts(p: Tuple, q: Tuple, r: Tuple)
    requires Joined(p, q, r)
    ensures TableRows.Part(r, p.Keys) == p && TableRows.Part(r, q.Keys) == q
  {
  }

  lemma {:induction false} RowsCarryTables(db: Database, t: Tree, r: Tuple)
    requires JoinPlan(t) && RowOf(db, t, r)
    ensures r.Keys == Tables(t)
  {
    if t.op.JoinOp? {
      var p, q :| RowOf(db, t.subs[0], p) && RowOf(db, t.subs[1], q) && Joined(p, q, r);
      RowsCarryTables(db, t.subs[0], p);
      RowsCarryTables(db, t.subs[1], q);
    } else if t.subs != [] {
      RowsCarryTables(db, t.subs[0], r);
    }
  }

  /** A row of a join is a row of each side. */
  lemma JoinParts(db: Database, t: Tree, r: Tuple)
    requires JoinPlan(t) && t.op.JoinOp? && RowOf(db, t, r)
    ensures RowOf(db, t.subs[0], TableRows.Part(r, Tables(t.subs[0])))
            && RowOf(db, t.subs[1], TableRows.Part(r, Tables(t.subs[1])))
    ensures Joined(TableRows.Part(r, Tables(t.subs[0])), TableRows.Part(r, Tables(t.subs[1])), r) && Meets(db, t, r)
  {
    var p, q :| RowOf(db, t.subs[0], p) && RowOf(db, t.subs[1], q) && Joined(p, q, r);
    RowsCarryTables(db, t.subs[0], p);
    RowsCarryTables(db, t.subs[1], q);
    JoinedParts(p, q, r);
  }

  lemma ValueInPart(db: Database, r: Tuple, tables: set<string>, c: Column)
    requires c.table in tables
    ensures Value(db, TableRows.Part(r, tables), c) == Value(db, r, c)
  {
  }

  lemma PartOfPart(r: Tuple, tables: set<string>, v: set<string>)
    requires v <= tables
    ensures TableRows.Part(TableRows.Part(r, tables), v) == TableRows.Part(r, v)
  {
  }

  lemma PartOfJoin(p: Tuple, q: Tuple, r: Tuple, v: set<string>, w: set<string>)
    requires Joined(p, q, r) && v <= p.Keys && w <= q.Keys
    ensures Joined(TableRows.Part(p, v), TableRows.Part(q, w), TableRows.Part(r, v + w))
    ensures TableRows.Part(r, v) == TableRows.Part(p, v) && TableRows.Part(r, w) == TableRows.Part(q, w)
  {
  }

  /** The two sides of a join. */
  lemma Sides(t: Tree, needed: set<string>, unique: set<Column>, i: nat)
    requires JoinPlan(t) && Spares(t, needed, unique) && t.op.JoinOp? && i < 2
    ensures |t.subs| == 2 && |t.inputs| == 2
    ensures var v := Visible(Rewritten(t, needed, unique).subs[i]);
            && v <= Tables(t.subs[i]) && Tables(t.subs[0]) !! Tables(t.subs[1])
            && (forall c :: c in t.inputs && c.table in Tables(t.subs[i]) ==> c.table in v)
    ensures forall c :: c in t.inputs ==> c.table in Tables(t.subs[0]) || c.table in Tables(t.subs[1])
  {
    JoinShape(t);
    Children(t, needed, unique, i);
    var s, later := t.subs[i], needed + TablesRead(t.inputs);
    NeededStayVisible(s, later, unique);
    forall c | c in t.inputs && c.table in Tables(s) ensures c.table in Visible(Rewritten(s, later, unique)) {
      assert c.table in later * Tables(s);
    }
  }

  /** The parts of a join row that stay visible, and the values the join compares. */
  lemma VisibleParts(db: Database, t: Tree, needed: set<string>, unique: set<Column>, r: Tuple)
    requires JoinPlan(t) && Spares(t, needed, unique) && t.op.JoinOp? && RowOf(db, t, r)
    ensures |t.subs| == 2 && |t.inputs| == 2
    ensures var t' := Rewritten(t, needed, unique);
            var v, w := Visible(t'.subs[0]), Visible(t'.subs[1]);
            && Joined(TableRows.Part(r, v), TableRows.Part(r, w), TableRows.Part(r, v + w))
            && TableRows.Part(r, v) == TableRows.Part(TableRows.Part(r, Tables(t.subs[0])), v)
            && TableRows.Part(r, w) == TableRows.Part(TableRows.Part(r, Tables(t.subs[1])), w)
            && (forall i :: 0 <= i < 2 ==>
                Value(db, TableRows.Part(r, v + w), t.inputs[i]) == Value(db, r, t.inputs[i]))
  {
    Sides(t, needed, unique, 0);
    Sides(t, needed, unique, 1);
    JoinParts(db, t, r);
    var t' := Rewritten(t, needed, unique);
    var v, w := Visible(t'.subs[0]), Visible(t'.subs[1]);
    var p, q := TableRows.Part(r, Tables(t.subs[0])), TableRows.Part(r, Tables(t.subs[1]));
    RowsCarryTables(db, t.subs[0], p);
    RowsCarryTables(db, t.subs[1], q);
    PartOfJoin(p, q, r, v, w);
    VisibleValues(db, t, v + w, r);
  }

  lemma VisibleValues(db: Database, t: Tree, v: set<string>, r: Tuple)
    requires |t.inputs| == 2 && forall c :: c in t.inputs ==> c.table in v
    ensures forall i :: 0 <= i < 2 ==> Value(db, TableRows.Part(r, v), t.inputs[i]) == Value(db, r, t.inputs[i])
  {
    ValueInPart(db, r, v, t.inputs[0]);
    ValueInPart(db, r, v, t.inputs[1]);
  }

  lemma JoinIntro(db: Database, u: Tree, p: Tuple, q: Tuple, r: Tuple)
    requires |u.subs| == 2 && |u.inputs| == 2 && u.op.JoinOp?
    requires RowOf(db, u.subs[0], p) && RowOf(db, u.subs[1], q) && Joined(p, q, r) && Meets(db, u, r)
    ensures RowOf(db, u, r)
  {
  }

  lemma SemiJoinIntro(db: Database, u: Tree, keep: nat, r: Tuple, d: Tuple)
    requires |u.subs| == 2 && |u.inputs| == 2 && u.op.SemiJoinOp? && keep == 1 - SideOf(u, u.inputs[0])
    requires RowOf(db, u.subs[keep], r) && RowOf(db, u.subs[1 - keep], d) && d.Keys !! r.Keys && Meets(db, u, r + d)
    ensures RowOf(db, u, r)
  {
  }

  /** After conversion the column given up is the first one, and its side is the one that is searched. */
  lemma SemiJoinSides(t: Tree, needed: set<string>, unique: set<Column>) returns (keep: nat)
    requires JoinPlan(t) && Converts(t, needed, unique)
    ensures |t.subs| == 2 && keep < 2 && keep == 1 - SideOf(t, Discarded(t, needed))
    ensures var t' := Rewritten(t, needed, unique);
            && t'.op == SemiJoinOp(t.op.joinPredicate) && t'.inputs == [Discarded(t, needed), Kept(t, needed)]
            && keep == 1 - SideOf(t', t'.inputs[0]) && Visible(t') == Visible(t'.subs[keep])
  {
    keep := Conversion(t, needed, unique);
    VisibleCases(t, needed, unique);
    TablesStay(t.subs[1], needed + TablesRead(t.inputs), unique);
  }

  /** A converted join compares as before. */
  lemma ComparesAlike(t: Tree, needed: set<string>, unique: set<Column>, inner: int, outer: int)
    requires JoinPlan(t) && Sifts(t, needed, unique) && Converts(t, needed, unique)
    ensures Compares(t.op.joinPredicate, inner, outer)
            <==> if t.inputs[0].table in needed then Compares(t.op.joinPredicate, outer, inner)
                 else Compares(t.op.joinPredicate, inner, outer)
  {
  }

  /** No row is lost: a row of the plan, cut to the visible tables, is a row of the rewritten plan. */
  lemma {:induction false} RowsSurvive(db: Database, t: Tree, needed: set<string>, unique: set<Column>, r: Tuple)
    requires JoinPlan(t) && Spares(t, needed, unique) && Sifts(t, needed, unique) && RowOf(db, t, r)
    ensures var t' := Rewritten(t, needed, unique); RowOf(db, t', TableRows.Part(r, Visible(t')))
    decreases t, 1
  {
    var t' := Rewritten(t, needed, unique);
    var later := needed + TablesRead(t.inputs);
    if t.op.JoinOp? {
      JoinSurvives(db, t, needed, unique, r);
    } else if t.subs == [] {
      assert TableRows.Part(r, Visible(t')) == r;
    } else {
      Children(t, needed, unique, 0);
      RowsSurvive(db, t.subs[0], later, unique, r);
      UnaryValues(db, t, needed, unique, r);
    }
  }

  lemma UnaryValues(db: Database, t: Tree, needed: set<string>, unique: set<Column>, r: Tuple)
    requires JoinPlan(t) && Spares(t, needed, unique) && |t.subs| == 1
    ensures Visible(Rewritten(t, needed, unique)) == Visible(Rewritten(t, needed, unique).subs[0])
    ensures t.op.FilterOp? ==>
              Values(db, TableRows.Part(r, Visible(Rewritten(t, needed, unique))), t.inputs) == Values(db, r, t.inputs)
  {
    var later := needed + TablesRead(t.inputs);
    Children(t, needed, unique, 0);
    VisibleCases(t, needed, unique);
    NeededStayVisible(t.subs[0], later, unique);
    if t.op.FilterOp? {
      forall i | 0 <= i < |t.inputs|
        ensures Value(db, TableRows.Part(r, Visible(Rewritten(t, needed, unique))), t.inputs[i])
                == Value(db, r, t.inputs[i])
      {
        assert t.inputs[i].table in later * Tables(t.subs[0]);
        ValueInPart(db, r, Visible(Rewritten(t, needed, unique)), t.inputs[i]);
      }
    }
  }

  lemma {:induction false} JoinSurvives(db: Database, t: Tree, needed: set<string>, unique: set<Column>, r: Tuple)
    requires JoinPlan(t) && Spares(t, needed, unique) && Sifts(t, needed, unique) && t.op.JoinOp? && RowOf(db, t, r)
    ensures var t' := Rewritten(t, needed, unique); RowOf(db, t', TableRows.Part(r, Visible(t')))
    decreases t, 0
  {
    var t' := Rewritten(t, needed, unique);
    SideSurvives(db, t, needed, unique, r, 0);
    SideSurvives(db, t, needed, unique, r, 1);
    VisibleParts(db, t, needed, unique, r);
    assert Meets(db, t, r) by { JoinParts(db, t, r); }
    if Converts(t, needed, unique) {
      var keep := SemiJoinSides(t, needed, unique);
      SemiJoinStep(db, t, needed, unique, keep, r);
    } else {
      VisibleCases(t, needed, unique);
      JoinIntro(db, t', TableRows.Part(r, Visible(t'.subs[0])), TableRows.Part(r, Visible(t'.subs[1])),
                TableRows.Part(r, Visible(t')));
    }
  }

  lemma SideSurvives(db: Database, t: Tree, needed: set<string>, unique: set<Column>, r: Tuple, i: nat)
    requires JoinPlan(t) && Spares(t, needed, unique) && Sifts(t, needed, unique) && t.op.JoinOp? && RowOf(db, t, r)
             && i < 2
    ensures |t.subs| == 2
    ensures var s' := Rewritten(t, needed, unique).subs[i]; RowOf(db, s', TableRows.Part(r, Visible(s')))
    decreases t, 0, i
  {
    JoinShape(t);
    Sides(t, needed, unique, i);
    Children(t, needed, unique, i);
    SideRow(db, t, r, i);
    var s, later := t.subs[i], needed + TablesRead(t.inputs);
    RowsSurvive(db, s, later, unique, TableRows.Part(r, Tables(s)));
    PartOfPart(r, Tables(s), Visible(Rewritten(s, later, unique)));
  }

  lemma SemiJoinStep(db: Database, t: Tree, needed: set<string>, unique: set<Column>, keep: nat, r: Tuple)
    requires JoinPlan(t) && Sifts(t, needed, unique) && Converts(t, needed, unique) && Meets(db, t, r)
    requires |t.subs| == 2 && keep < 2 && keep == 1 - SideOf(t, Discarded(t, needed))
    requires var u := Rewritten(t, needed, unique);
             var v, w := Visible(u.subs[0]), Visible(u.subs[1]);
             && Joined(TableRows.Part(r, v), TableRows.Part(r, w), TableRows.Part(r, v + w))
             && (forall i :: 0 <= i < 2 ==>
                 Value(db, TableRows.Part(r, v + w), t.inputs[i]) == Value(db, r, t.inputs[i]))
             && RowOf(db, u.subs[0], TableRows.Part(r, v)) && RowOf(db, u.subs[1], TableRows.Part(r, w))
    ensures var u := Rewritten(t, needed, unique); RowOf(db, u, TableRows.Part(r, Visible(u.subs[keep])))
  {
    var u := Rewritten(t, needed, unique);
    var p, q := TableRows.Part(r, Visible(u.subs[keep])), TableRows.Part(r, Visible(u.subs[1 - keep]));
    assert p + q == TableRows.Part(r, Visible(u.subs[0]) + Visible(u.subs[1]));
    var k := SemiJoinSides(t, needed, unique);
    ComparesAlike(t, needed, unique, Value(db, r, t.inputs[0]), Value(db, r, t.inputs[1]));
    SemiJoinIntro(db, u, keep, p, q);
  }

  // -------------------------------------------------------------------------------------------
  // No row is made up
  // -------------------------------------------------------------------------------------------

  /** Rows of the sides that go together in the original join. */
  lemma JoinBack(db: Database, t: Tree, needed: set<string>, unique: set<Column>, p: Tuple, q: Tuple, r: Tuple)
    requires JoinPlan(t) && Spares(t, needed, unique) && t.op.JoinOp? && |t.subs| == 2 && |t.inputs| == 2
    requires RowOf(db, t.subs[0], p) && RowOf(db, t.subs[1], q)
    requires var t' := Rewritten(t, needed, unique);
             && r == TableRows.Part(p, Visible(t'.subs[0])) + TableRows.Part(q, Visible(t'.subs[1]))
             && Compares(t.op.joinPredicate, Value(db, r, t.inputs[0]), Value(db, r, t.inputs[1]))
    ensures RowOf(db, t, p + q) && Joined(p, q, p + q)
    ensures var t' := Rewritten(t, needed, unique);
            && TableRows.Part(p + q, Visible(t'.subs[0]) + Visible(t'.subs[1])) == r
            && TableRows.Part(p + q, Visible(t'.subs[0])) == TableRows.Part(p, Visible(t'.subs[0]))
            && TableRows.Part(p + q, Visible(t'.subs[1])) == TableRows.Part(q, Visible(t'.subs[1]))
  {
    var t' := Rewritten(t, needed, unique);
    var v, w := Visible(t'.subs[0]), Visible(t'.subs[1]);
    Sides(t, needed, unique, 0);
    Sides(t, needed, unique, 1);
    RowsCarryTables(db, t.subs[0], p);
    RowsCarryTables(db, t.subs[1], q);
    PartOfJoin(p, q, p + q, v, w);
    ValueInPart(db, p + q, v + w, t.inputs[0]);
    ValueInPart(db, p + q, v + w, t.inputs[1]);
    JoinIntro(db, t, p, q, p + q);
  }

  /** Every row of the rewritten plan comes from a row of the plan. */
  lemma {:induction false} RowsOriginate(db: Database, t: Tree, needed: set<string>, unique: set<Column>, r: Tuple)
    returns (whole: Tuple)
    requires JoinPlan(t) && Spares(t, needed, unique) && Sifts(t, needed, unique)
             && RowOf(db, Rewritten(t, needed, unique), r)
    ensures RowOf(db, t, whole) && TableRows.Part(whole, Visible(Rewritten(t, needed, unique))) == r
    decreases t, 1
  {
    var t' := Rewritten(t, needed, unique);
    if t.op.JoinOp? {
      if Converts(t, needed, unique) {
        whole := SemiJoinOriginates(db, t, needed, unique, r);
      } else {
        whole := JoinOriginates(db, t, needed, unique, r);
      }
    } else if t.subs == [] {
      whole := r;
      assert TableRows.Part(r, Visible(t')) == r;
    } else {
      Children(t, needed, unique, 0);
      whole := RowsOriginate(db, t.subs[0], needed + TablesRead(t.inputs), unique, r);
      UnaryValues(db, t, needed, unique, whole);
    }
  }

  lemma {:induction false} JoinOriginates(db: Database, t: Tree, needed: set<string>, unique: set<Column>, r: Tuple)
    returns (whole: Tuple)
    requires JoinPlan(t) && Spares(t, needed, unique) && Sifts(t, needed, unique) && t.op.JoinOp?
             && !Converts(t, needed, unique)
    requires RowOf(db, Rewritten(t, needed, unique), r)
    ensures RowOf(db, t, whole) && TableRows.Part(whole, Visible(Rewritten(t, needed, unique))) == r
    decreases t, 0
  {
    var t' := Rewritten(t, needed, unique);
    var later := needed + TablesRead(t.inputs);
    var p, q :| RowOf(db, t'.subs[0], p) && RowOf(db, t'.subs[1], q) && Joined(p, q, r);
    Children(t, needed, unique, 0);
    Children(t, needed, unique, 1);
    var left := RowsOriginate(db, t.subs[0], later, unique, p);
    var right := RowsOriginate(db, t.subs[1], later, unique, q);
    JoinBack(db, t, needed, unique, left, right, r);
    VisibleCases(t, needed, unique);
    whole := left + right;
  }

  lemma SemiJoinElim(db: Database, u: Tree, keep: nat, r: Tuple) returns (d: Tuple)
    requires |u.subs| == 2 && |u.inputs| == 2 && u.op.SemiJoinOp? && keep == 1 - SideOf(u, u.inputs[0])
    requires RowOf(db, u, r)
    ensures RowOf(db, u.subs[keep], r) && RowOf(db, u.subs[1 - keep], d) && d.Keys !! r.Keys && Meets(db, u, r + d)
  {
    d :| RowOf(db, u.subs[1 - keep], d) && d.Keys !! r.Keys && Meets(db, u, r + d);
  }

  lemma SemiJoinBack(db: Database, t: Tree, needed: set<string>, unique: set<Column>, keep: nat, r: Tuple, d: Tuple)
    requires JoinPlan(t) && Sifts(t, needed, unique) && Converts(t, needed, unique) && keep < 2
    requires Meets(db, Rewritten(t, needed, unique), r + d) && r.Keys !! d.Keys
    ensures r + d == (if keep == 0 then r else d) + (if keep == 0 then d else r)
    ensures Compares(t.op.joinPredicate, Value(db, r + d, t.inputs[0]), Value(db, r + d, t.inputs[1]))
  {
    var _ := SemiJoinSides(t, needed, unique);
    ComparesAlike(t, needed, unique, Value(db, r + d, t.inputs[0]), Value(db, r + d, t.inputs[1]));
  }

  lemma {:induction false} SemiJoinOriginates(db: Database, t: Tree, needed: set<string>, unique: set<Column>, r: Tuple)
    returns (whole: Tuple)
    requires JoinPlan(t) && Spares(t, needed, unique) && Sifts(t, needed, unique) && t.op.JoinOp?
             && Converts(t, needed, unique)
    requires RowOf(db, Rewritten(t, needed, unique), r)
    ensures RowOf(db, t, whole) && TableRows.Part(whole, Visible(Rewritten(t, needed, unique))) == r
    decreases t, 0
  {
    var t' := Rewritten(t, needed, unique);
    var later := needed + TablesRead(t.inputs);
    var keep := SemiJoinSides(t, needed, unique);
    var d := SemiJoinElim(db, t', keep, r);
    Children(t, needed, unique, keep);
    Children(t, needed, unique, 1 - keep);
    var kept := RowsOriginate(db, t.subs[keep], later, unique, r);
    var partner := RowsOriginate(db, t.subs[1 - keep], later, unique, d);
    var left, right := if keep == 0 then kept else partner, if keep == 0 then partner else kept;
    SemiJoinBack(db, t, needed, unique, keep, r, d);
    JoinBack(db, t, needed, unique, left, right, r + d);
    whole := left + right;
  }

  // -------------------------------------------------------------------------------------------
  // No row is repeated or merged
  // -------------------------------------------------------------------------------------------

  lemma {:induction false} RowsInRange(db: Database, t: Tree, r: Tuple, table: string)
    requires JoinPlan(t) && RowOf(db, t, r) && table in Tables(t)
    ensures table in r && table in db.rows && r[table] < db.rows[table]
  {
    if t.op.JoinOp? {
      JoinParts(db, t, r);
      var i := if table in Tables(t.subs[0]) then 0 else 1;
      RowsInRange(db, t.subs[i], TableRows.Part(r, Tables(t.subs[i])), table);
    } else if t.subs != [] {
      RowsInRange(db, t.subs[0], r, table);
    }
  }

  /** In a unique column, equal values sit in the same row. */
  lemma SameRow(db: Database, unique: set<Column>, c: Column, r1: Tuple, r2: Tuple)
    requires Respects(db, unique) && c in unique && c.table in r1 && c.table in r2 && c.table in db.rows
    requires r1[c.table] < db.rows[c.table] && r2[c.table] < db.rows[c.table]
    requires Value(db, r1, c) == Value(db, r2, c)
    ensures r1[c.table] == r2[c.table] && TableRows.Part(r1, {c.table}) == TableRows.Part(r2, {c.table})
  {
    var i, j := r1[c.table], r2[c.table];
    assert Value(db, map[c.table := i], c) == Value(db, r1, c) && Value(db, map[c.table := j], c) == Value(db, r2, c);
    assert i == j;
  }

  lemma SamePart(r1: Tuple, r2: Tuple, v: set<string>, w: set<string>)
    requires TableRows.Part(r1, w) == TableRows.Part(r2, w) && v <= w
    ensures TableRows.Part(r1, v) == TableRows.Part(r2, v)
  {
    PartOfPart(r1, w, v);
    PartOfPart(r2, w, v);
  }

  /** What `Determines` promises. */
  lemma {:induction false} FixedByTable(db: Database, t: Tree, table: string, unique: set<Column>, r1: Tuple, r2: Tuple)
    requires JoinPlan(t) && Determines(t, table, unique) && Respects(db, unique) && RowOf(db, t, r1) && RowOf(db, t, r2)
    requires table in Tables(t) && TableRows.Part(r1, {table}) == TableRows.Part(r2, {table})
    ensures r1 == r2
    decreases t, 1
  {
    RowsCarryTables(db, t, r1);
    RowsCarryTables(db, t, r2);
    if t.op.JoinOp? {
      JoinFixed(db, t, table, unique, r1, r2);
      JoinParts(db, t, r1);
      JoinParts(db, t, r2);
    } else if t.subs == [] {
      assert TableRows.Part(r1, Tables(t)) == r1 && TableRows.Part(r2, Tables(t)) == r2;
    } else {
      FixedByTable(db, t.subs[0], table, unique, r1, r2);
    }
  }

  lemma {:induction false} JoinFixed(db: Database, t: Tree, table: string, unique: set<Column>, r1: Tuple, r2: Tuple)
    requires JoinPlan(t) && t.op.JoinOp? && Determines(t, table, unique) && Respects(db, unique)
    requires RowOf(db, t, r1) && RowOf(db, t, r2)
    requires table in Tables(t) && TableRows.Part(r1, {table}) == TableRows.Part(r2, {table})
    ensures |t.subs| == 2
    ensures TableRows.Part(r1, Tables(t.subs[0])) == TableRows.Part(r2, Tables(t.subs[0]))
    ensures TableRows.Part(r1, Tables(t.subs[1])) == TableRows.Part(r2, Tables(t.subs[1]))
    decreases t, 0, 1
  {
    JoinShape(t);
    var i := if table in Tables(t.subs[0]) then 0 else 1;
    var c := if SideOf(t, t.inputs[0]) == i then t.inputs[1] else t.inputs[0];
    SideFixed(db, t, i, table, unique, r1, r2);
    SideValues(db, t, i, r1, r2);
    PartnerFixed(db, t, i, c, unique, r1, r2);
    SideFixed(db, t, 1 - i, c.table, unique, r1, r2);
  }

  lemma SideValues(db: Database, t: Tree, i: nat, r1: Tuple, r2: Tuple)
    requires |t.subs| == 2 && i < 2 && TableRows.Part(r1, Tables(t.subs[i])) == TableRows.Part(r2, Tables(t.subs[i]))
    requires forall c :: c in t.inputs ==> c.table in Tables(t.subs[0]) || c.table in Tables(t.subs[1])
    ensures forall d :: d in t.inputs && SideOf(t, d) == i ==> Value(db, r1, d) == Value(db, r2, d)
  {
    forall d | d in t.inputs && SideOf(t, d) == i ensures Value(db, r1, d) == Value(db, r2, d) {
      ValueInPart(db, r1, Tables(t.subs[i]), d);
      ValueInPart(db, r2, Tables(t.subs[i]), d);
    }
  }

  lemma {:induction false} SideFixed(db: Database, t: Tree, i: nat, table: string, unique: set<Column>, r1: Tuple,
                                     r2: Tuple)
    requires JoinPlan(t) && t.op.JoinOp? && |t.subs| == 2 && i < 2 && JoinPlan(t.subs[i])
    requires Respects(db, unique) && RowOf(db, t, r1) && RowOf(db, t, r2)
    requires Determines(t.subs[i], table, unique) && table in Tables(t.subs[i])
    requires TableRows.Part(r1, {table}) == TableRows.Part(r2, {table})
    ensures TableRows.Part(r1, Tables(t.subs[i])) == TableRows.Part(r2, Tables(t.subs[i]))
    decreases t, 0, 0
  {
    SideRow(db, t, r1, i);
    SideRow(db, t, r2, i);
    PartOfPart(r1, Tables(t.subs[i]), {table});
    PartOfPart(r2, Tables(t.subs[i]), {table});
    FixedByTable(db, t.subs[i], table, unique, TableRows.Part(r1, Tables(t.subs[i])),
                 TableRows.Part(r2, Tables(t.subs[i])));
  }

  /** Rows that agree on side i of an equality agree on a unique column of the other side. */
  lemma JoinMeets(db: Database, t: Tree, r: Tuple)
    requires JoinPlan(t) && t.op.JoinOp? && |t.subs| == |t.inputs| == 2 && RowOf(db, t, r)
    ensures Meets(db, t, r)
  {
  }

  lemma SidesDiffer(t: Tree)
    requires JoinPlan(t) && t.op.JoinOp? && |t.subs| == |t.inputs| == 2
    ensures SideOf(t, t.inputs[0]) != SideOf(t, t.inputs[1])
  {
    JoinShape(t);
  }

  /** Rows that agree on one side of an equality join agree on the join column of the other. */
  lemma PartnerEqual(db: Database, t: Tree, i: nat, c: Column, r1: Tuple, r2: Tuple)
    requires t.op.JoinOp? && i < 2 && |t.inputs| == 2 && |t.subs| == 2 && t.op.joinPredicate.EQ? && c in t.inputs
    requires SideOf(t, c) == 1 - i && SideOf(t, t.inputs[0]) != SideOf(t, t.inputs[1])
    requires Meets(db, t, r1) && Meets(db, t, r2)
    requires forall d :: d in t.inputs && SideOf(t, d) == i ==> Value(db, r1, d) == Value(db, r2, d)
    ensures Value(db, r1, c) == Value(db, r2, c)
  {
  }

  lemma PartnerFixed(db: Database, t: Tree, i: nat, c: Column, unique: set<Column>, r1: Tuple, r2: Tuple)
    requires JoinPlan(t) && t.op.JoinOp? && i < 2 && |t.inputs| == 2 && t.op.joinPredicate.EQ?
    requires c in t.inputs && c in unique && |t.subs| == 2 && SideOf(t, c) == 1 - i
    requires Respects(db, unique) && RowOf(db, t, r1) && RowOf(db, t, r2)
    requires forall d :: d in t.inputs && SideOf(t, d) == i ==> Value(db, r1, d) == Value(db, r2, d)
    ensures c.table in Tables(t.subs[1 - i]) && TableRows.Part(r1, {c.table}) == TableRows.Part(r2, {c.table})
  {
    JoinShape(t);
    assert Value(db, r1, c) == Value(db, r2, c) by {
      JoinMeets(db, t, r1);
      JoinMeets(db, t, r2);
      SidesDiffer(t);
      PartnerEqual(db, t, i, c, r1, r2);
    }
    RowsInRange(db, t, r1, c.table);
    RowsInRange(db, t, r2, c.table);
    SameRow(db, unique, c, r1, r2);
  }

  lemma SideRow(db: Database, t: Tree, r: Tuple, i: nat)
    requires JoinPlan(t) && t.op.JoinOp? && RowOf(db, t, r) && |t.subs| == 2 && i < 2
    ensures RowOf(db, t.subs[i], TableRows.Part(r, Tables(t.subs[i])))
  {
    JoinParts(db, t, r);
    assert t.subs[i] == if i == 0 then t.subs[0] else t.subs[1];
  }

  /** Rows that look the same after the rewrite were the same row before it. */
  lemma {:induction false} RowsDetermined(db: Database, t: Tree, needed: set<string>, unique: set<Column>, r1: Tuple,
                                          r2: Tuple)
    requires JoinPlan(t) && Spares(t, needed, unique) && Lossless(t, needed, unique)
    requires Respects(db, unique) && RowOf(db, t, r1) && RowOf(db, t, r2)
    requires var v := Visible(Rewritten(t, needed, unique)); TableRows.Part(r1, v) == TableRows.Part(r2, v)
    ensures r1 == r2
    decreases t, 2
  {
    RowsCarryTables(db, t, r1);
    RowsCarryTables(db, t, r2);
    VisibleCases(t, needed, unique);
    if t.op.JoinOp? {
      JoinShape(t);
      JoinParts(db, t, r1);
      JoinParts(db, t, r2);
      if Converts(t, needed, unique) {
        PartnerDetermined(db, t, needed, unique, r1, r2);
      } else {
        var t' := Rewritten(t, needed, unique);
        SamePart(r1, r2, Visible(t'.subs[0]), Visible(t'));
        SamePart(r1, r2, Visible(t'.subs[1]), Visible(t'));
        SideDetermined(db, t, needed, unique, r1, r2, 0);
        SideDetermined(db, t, needed, unique, r1, r2, 1);
      }
    } else if t.subs == [] {
      assert TableRows.Part(r1, Tables(t)) == r1 && TableRows.Part(r2, Tables(t)) == r2;
    } else {
      Children(t, needed, unique, 0);
      RowsDetermined(db, t.subs[0], needed + TablesRead(t.inputs), unique, r1, r2);
    }
  }

  lemma SideDetermined(db: Database, t: Tree, needed: set<string>, unique: set<Column>, r1: Tuple, r2: Tuple, i: nat)
    requires JoinPlan(t) && Spares(t, needed, unique) && Lossless(t, needed, unique) && t.op.JoinOp? && i < 2
    requires Respects(db, unique) && |t.subs| == 2 && RowOf(db, t, r1) && RowOf(db, t, r2)
    requires var v := Visible(Rewritten(t, needed, unique).subs[i]); TableRows.Part(r1, v) == TableRows.Part(r2, v)
    ensures TableRows.Part(r1, Tables(t.subs[i])) == TableRows.Part(r2, Tables(t.subs[i]))
    decreases t, 0
  {
    Sides(t, needed, unique, i);
    Children(t, needed, unique, i);
    var s, later := t.subs[i], needed + TablesRead(t.inputs);
    SideRow(db, t, r1, i);
    SideRow(db, t, r2, i);
    PartOfPart(r1, Tables(s), Visible(Rewritten(s, later, unique)));
    PartOfPart(r2, Tables(s), Visible(Rewritten(s, later, unique)));
    RowsDetermined(db, s, later, unique, TableRows.Part(r1, Tables(s)), TableRows.Part(r2, Tables(s)));
  }

  /** The partner a row found is fixed by the row: its join column is unique, and its row number fixes the rest. */
  lemma PartnerDetermined(db: Database, t: Tree, needed: set<string>, unique: set<Column>, r1: Tuple, r2: Tuple)
    requires JoinPlan(t) && Spares(t, needed, unique) && Lossless(t, needed, unique) && Converts(t, needed, unique)
    requires Respects(db, unique) && |t.subs| == 2 && RowOf(db, t, r1) && RowOf(db, t, r2)
    requires var v := Visible(Rewritten(t, needed, unique)); TableRows.Part(r1, v) == TableRows.Part(r2, v)
    ensures TableRows.Part(r1, Tables(t.subs[0])) == TableRows.Part(r2, Tables(t.subs[0]))
    ensures TableRows.Part(r1, Tables(t.subs[1])) == TableRows.Part(r2, Tables(t.subs[1]))
    decreases t, 1
  {
    var keep := SemiJoinSides(t, needed, unique);
    SideDetermined(db, t, needed, unique, r1, r2, keep);
    GivenUpFixed(db, t, needed, unique, keep, r1, r2);
    assert keep == 0 || keep == 1;
  }

  lemma GivenUpFixed(db: Database, t: Tree, needed: set<string>, unique: set<Column>, keep: nat, r1: Tuple, r2: Tuple)
    requires JoinPlan(t) && Lossless(t, needed, unique) && Converts(t, needed, unique)
    requires |t.subs| == 2 && keep < 2 && keep == 1 - SideOf(t, Discarded(t, needed))
    requires Respects(db, unique) && RowOf(db, t, r1) && RowOf(db, t, r2)
    requires TableRows.Part(r1, Tables(t.subs[keep])) == TableRows.Part(r2, Tables(t.subs[keep]))
    ensures TableRows.Part(r1, Tables(t.subs[1 - keep])) == TableRows.Part(r2, Tables(t.subs[1 - keep]))
  {
    var given := Discarded(t, needed);
    JoinShape(t);
    SideValues(db, t, keep, r1, r2);
    PartnerFixed(db, t, keep, given, unique, r1, r2);
    SideFixed(db, t, 1 - keep, given.table, unique, r1, r2);
  }

  /** A dead plan has no rows, before and after. */
  lemma {:induction false} DeadIsEmpty(db: Database, t: Tree, needed: set<string>, unique: set<Column>, r: Tuple)
    requires JoinPlan(t) && Dead(t)
    ensures !RowOf(db, t, r) && !RowOf(db, Rewritten(t, needed, unique), r)
    decreases t
  {
    var t' := Rewritten(t, needed, unique);
    forall i, x | 0 <= i < |t.subs| && Dead(t.subs[i]) ensures !RowOf(db, t.subs[i], x) && !RowOf(db, t'.subs[i], x) {
      Children(t, needed, unique, i);
      DeadIsEmpty(db, t.subs[i], needed + TablesRead(t.inputs), unique, x);
    }
    if t.op.JoinOp? {
      DeadBefore(db, t, r);
      DeadAfter(db, t, needed, unique, r);
    }
  }

  lemma DeadSide(t: Tree)
    requires JoinPlan(t) && t.op.JoinOp? && Dead(t)
    ensures |t.subs| == 2
    ensures t.op.joinPredicate.BETWEEN? || t.op.joinPredicate.IN? || Dead(t.subs[0]) || Dead(t.subs[1])
  {
  }

  lemma DeadBefore(db: Database, t: Tree, r: Tuple)
    requires JoinPlan(t) && t.op.JoinOp? && Dead(t)
    requires forall i, x :: 0 <= i < |t.subs| && Dead(t.subs[i]) ==> !RowOf(db, t.subs[i], x)
    ensures !RowOf(db, t, r)
  {
    DeadSide(t);
    if RowOf(db, t, r) {
      JoinParts(db, t, r);
    }
  }

  lemma DeadAfter(db: Database, t: Tree, needed: set<string>, unique: set<Column>, r: Tuple)
    requires JoinPlan(t) && t.op.JoinOp? && Dead(t)
    requires forall i, x :: 0 <= i < |t.subs| && Dead(t.subs[i]) ==> !RowOf(db, Rewritten(t, needed, unique).subs[i], x)
    ensures !RowOf(db, Rewritten(t, needed, unique), r)
  {
    DeadSide(t);
    if RowOf(db, Rewritten(t, needed, unique), r) {
      var p, q, w := SidesAfter(db, t, needed, unique, r);
    }
  }

  /** A row of the rewritten join has a row on either side, and its comparison holds of some values. */
  lemma SidesAfter(db: Database, t: Tree, needed: set<string>, unique: set<Column>, r: Tuple)
    returns (p: Tuple, q: Tuple, w: Tuple)
    requires JoinPlan(t) && t.op.JoinOp? && RowOf(db, Rewritten(t, needed, unique), r)
    ensures var t' := Rewritten(t, needed, unique);
            && |t.subs| == |t'.subs| == 2 && |t'.inputs| == 2
            && RowOf(db, t'.subs[0], p) && RowOf(db, t'.subs[1], q)
            && Compares(t.op.joinPredicate, Value(db, w, t'.inputs[0]), Value(db, w, t'.inputs[1]))
  {
    if Converts(t, needed, unique) {
      p, q, w := ConvertedSides(db, t, needed, unique, r);
    } else {
      KeptJoin(t, needed, unique);
      p, q := SidesOf(db, Rewritten(t, needed, unique), r);
      w := r;
    }
  }

  lemma KeptJoin(t: Tree, needed: set<string>, unique: set<Column>)
    requires JoinPlan(t) && t.op.JoinOp? && !Converts(t, needed, unique)
    ensures var t' := Rewritten(t, needed, unique); t'.op == t.op && |t'.subs| == |t'.inputs| == |t.subs| == 2
  {
    JoinShape(t);
  }

  lemma ConvertedSides(db: Database, t: Tree, needed: set<string>, unique: set<Column>, r: Tuple)
    returns (p: Tuple, q: Tuple, w: Tuple)
    requires JoinPlan(t) && Converts(t, needed, unique) && RowOf(db, Rewritten(t, needed, unique), r)
    ensures var t' := Rewritten(t, needed, unique);
            && t.op.JoinOp? && |t.subs| == |t'.subs| == 2 && |t'.inputs| == 2
            && RowOf(db, t'.subs[0], p) && RowOf(db, t'.subs[1], q)
            && Compares(t.op.joinPredicate, Value(db, w, t'.inputs[0]), Value(db, w, t'.inputs[1]))
  {
    var t' := Rewritten(t, needed, unique);
    var keep := SemiJoinSides(t, needed, unique);
    var d := SemiJoinElim(db, t', keep, r);
    p, q, w := if keep == 0 then r else d, if keep == 0 then d else r, r + d;
  }

  lemma SidesOf(db: Database, t: Tree, r: Tuple) returns (p: Tuple, q: Tuple)
    requires |t.subs| == |t.inputs| == 2 && t.op.JoinOp? && RowOf(db, t, r)
    ensures RowOf(db, t.subs[0], p) && RowOf(db, t.subs[1], q) && Joined(p, q, r) && Meets(db, t, r)
  {
    p, q :| RowOf(db, t.subs[0], p) && RowOf(db, t.subs[1], q) && Joined(p, q, r) && Meets(db, t, r);
  }

  /** Cutting rows to the visible tables leads from the rows before to the rows after, and reaches all of them. */
  ghost predicate SameRows(db: Database, t: Tree, needed: set<string>, unique: set<Column>) {
    var t' := Rewritten(t, needed, unique);
    && (forall r :: RowOf(db, t, r) ==> RowOf(db, t', TableRows.Part(r, Visible(t'))))
    && (forall r :: RowOf(db, t', r) ==> exists whole :: RowOf(db, t, whole) && TableRows.Part(whole, Visible(t')) == r)
  }

  /** No two rows become one. */
  ghost predicate NoneMerged(db: Database, t: Tree, needed: set<string>, unique: set<Column>) {
    var v := Visible(Rewritten(t, needed, unique));
    forall r1, r2 :: RowOf(db, t, r1) && RowOf(db, t, r2) && TableRows.Part(r1, v) == TableRows.Part(r2, v) ==> r1 == r2
  }

  lemma SiftedRows(db: Database, t: Tree, needed: set<string>, unique: set<Column>)
    requires JoinPlan(t) && Spares(t, needed, unique) && (Dead(t) || Sifts(t, needed, unique))
    ensures SameRows(db, t, needed, unique)
  {
    var t' := Rewritten(t, needed, unique);
    forall r | RowOf(db, t, r) ensures RowOf(db, t', TableRows.Part(r, Visible(t'))) {
      if Dead(t) {
        DeadIsEmpty(db, t, needed, unique, r);
      } else {
        RowsSurvive(db, t, needed, unique, r);
      }
    }
    forall r | RowOf(db, t', r) ensures exists whole :: RowOf(db, t, whole) && TableRows.Part(whole, Visible(t')) == r {
      if Dead(t) {
        DeadIsEmpty(db, t, needed, unique, r);
      } else {
        var whole := RowsOriginate(db, t, needed, unique, r);
      }
    }
  }

  /**
   The rewritten plan has the same bag of rows on every table it still shows: cutting rows to the
   visible tables is one-to-one and onto, and all tables needed above are visible.
   */
  lemma SameBag(db: Database, t: Tree, needed: set<string>, unique: set<Column>)
    requires JoinPlan(t) && Safe(t, needed, unique) && Respects(db, unique)
    ensures needed * Tables(t) <= Visible(Rewritten(t, needed, unique))
    ensures SameRows(db, t, needed, unique) && NoneMerged(db, t, needed, unique)
  {
    NeededStayVisible(t, needed, unique);
    if !Dead(t) {
      LosslessSifts(t, needed, unique);
    }
    SiftedRows(db, t, needed, unique);
    var v := Visible(Rewritten(t, needed, unique));
    forall r1, r2 | RowOf(db, t, r1) && RowOf(db, t, r2) && TableRows.Part(r1, v) == TableRows.Part(r2, v)
      ensures r1 == r2 {
      if Dead(t) {
        DeadIsEmpty(db, t, needed, unique, r1);
      } else {
        RowsDetermined(db, t, needed, unique, r1, r2);
      }
    }
  }

  // -------------------------------------------------------------------------------------------
  // A simple case
  // -------------------------------------------------------------------------------------------

  /** Every converted join is an equality whose given-up side holds nothing but the join column's table. */
  predicate Narrow(t: Tree, needed: set<string>, unique: set<Column>)
    decreases t
  {
    && (Converts(t, needed, unique) && |t.subs| == 2 ==>
          && t.op.joinPredicate.EQ?
          && Tables(t.subs[SideOf(t, Discarded(t, needed))]) == {Discarded(t, needed).table})
    && forall i :: 0 <= i < |t.subs| ==> Narrow(t.subs[i], needed + TablesRead(t.inputs), unique)
  }

  lemma JoinHasTwo(t: Tree)
    requires JoinPlan(t) && t.op.JoinOp?
    ensures |t.inputs| == 2 && t.inputs[0].table != t.inputs[1].table
    ensures t.inputs[0].table in Tables(t) && t.inputs[1].table in Tables(t)
  {
    JoinShape(t);
  }

  lemma {:induction false} OneTableDetermines(t: Tree, table: string, unique: set<Column>)
    requires JoinPlan(t) && Tables(t) == {table}
    ensures Determines(t, table, unique)
    decreases t
  {
    if t.op.JoinOp? {
      JoinHasTwo(t);
    } else if t.subs != [] {
      OneTableDetermines(t.subs[0], table, unique);
    }
  }

  lemma {:induction false} NarrowIsSafe(t: Tree, needed: set<string>, unique: set<Column>)
    requires JoinPlan(t) && Narrow(t, needed, unique)
    ensures Safe(t, needed, unique) && Lossless(t, needed, unique)
    decreases t
  {
    var later := needed + TablesRead(t.inputs);
    forall i | 0 <= i < |t.subs| ensures Spares(t.subs[i], later, unique) && Lossless(t.subs[i], later, unique) {
      NarrowIsSafe(t.subs[i], later, unique);
    }
    if Converts(t, needed, unique) {
      var given := Discarded(t, needed);
      OneTableDetermines(t.subs[SideOf(t, given)], given.table, unique);
    }
  }

  /**
   Outside the safe plans the answer is lost: every table on the given-up side is gone, even when it
   is needed above.
   */
  lemma DiscardedSideIsGone(t: Tree, needed: set<string>, unique: set<Column>, table: string)
    requires JoinPlan(t) && Converts(t, needed, unique)
    requires |t.subs| == 2 && table in Tables(t.subs[SideOf(t, Discarded(t, needed))])
    ensures table !in Visible(Rewritten(t, needed, unique))
  {
    VisibleIsRest(t, needed, unique);
  }

  lemma PairShape(node: PlanNode, op: Comparison, a: Column, b: Column)
    requires a.table != b.table
    ensures var t := Pair(node, op, a, b);
            JoinPlan(t) && Tables(t.subs[0]) == {a.table} && Tables(t.subs[1]) == {b.table}
  {
    var t := Pair(node, op, a, b);
    assert Tables(t.subs[0]) == {a.table} && Tables(t.subs[1]) == {b.table};
  }

  /** A join of two base tables. */
  function Pair(node: PlanNode, op: Comparison, a: Column, b: Column): Tree {
    Tree(node, JoinOp(op), [a, b], [a, b],
         [Tree(node, FetchOp(true), [a], [a], []), Tree(node, FetchOp(true), [b], [b], [])])
  }

  lemma PairRow(db: Database, t: Tree, op: Comparison, a: Column, b: Column, i: nat, j: nat)
    requires a.table != b.table && t == Pair(t.node, op, a, b)
    requires a.table in db.rows && b.table in db.rows && i < db.rows[a.table] && j < db.rows[b.table]
    requires Compares(op, Value(db, map[a.table := i], a), Value(db, map[b.table := j], b))
    ensures RowOf(db, t, map[a.table := i, b.table := j])
  {
    var p, q, r := map[a.table := i], map[b.table := j], map[a.table := i, b.table := j];
    assert Value(db, r, a) == Value(db, p, a) && Value(db, r, b) == Value(db, q, b);
    JoinIntro(db, t, p, q, r);
  }

  /** A join on `<` is converted too, although a unique column can then match many times: two rows become one. */
  lemma InequalityMergesRows(node: PlanNode) returns (t: Tree, db: Database, r1: Tuple, r2: Tuple)
    ensures JoinPlan(t) && Converts(t, {"A"}, {Column("B", "b")}) && Respects(db, {Column("B", "b")})
    ensures RowOf(db, t, r1) && RowOf(db, t, r2) && r1 != r2
    ensures var v := Visible(Rewritten(t, {"A"}, {Column("B", "b")})); TableRows.Part(r1, v) == TableRows.Part(r2, v)
  {
    var a, b := Column("A", "a"), Column("B", "b");
    t := Pair(node, LT, a, b);
    PairShape(node, LT, a, b);
    db := Database(map["A" := 1, "B" := 2], imap[(a, 0) := 0, (b, 0) := 1, (b, 1) := 2], iset{});
    r1, r2 := map["A" := 0, "B" := 0], map["A" := 0, "B" := 1];
    PairRow(db, t, LT, a, b, 0, 0);
    PairRow(db, t, LT, a, b, 0, 1);
    assert r1 == map[a.table := 0, b.table := 0] && r2 == map[a.table := 0, b.table := 1];
    DiscardedSideIsGone(t, {"A"}, {b}, "B");
    assert r1["B"] != r2["B"];
  }

  // -------------------------------------------------------------------------------------------
  // The pass, in place
  // -------------------------------------------------------------------------------------------

  lemma {:induction false} NodesStay(t: Tree, needed: set<string>, unique: set<Column>)
    ensures Nodes(Rewritten(t, needed, unique)) == Nodes(t)
    decreases t, 1
  {
    NodesOfStay(t, 0, needed, unique);
  }

  lemma {:induction false} NodesOfStay(t: Tree, k: nat, needed: set<string>, unique: set<Column>)
    requires k <= |t.subs|
    ensures NodesOf(Rewritten(t, needed, unique).subs[k..]) == NodesOf(t.subs[k..])
    decreases t, 0, |t.subs| - k
  {
    if k < |t.subs| {
      NodesStay(t.subs[k], needed + TablesRead(t.inputs), unique);
      NodesOfStay(t, k + 1, needed, unique);
      assert t.subs[k..][1..] == t.subs[k + 1..];
      assert Rewritten(t, needed, unique).subs[k..][1..] == Rewritten(t, needed, unique).subs[k + 1..];
    } else {
      assert t.subs[k..] == [] && Rewritten(t, needed, unique).subs[k..] == [];
    }
  }

  /** What the pass leaves on one node. */
  ghost predicate Rewrote(node: PlanNode, t: Tree, needed: set<string>, unique: set<Column>)
    reads node, t.node
  {
    var t' := Rewritten(t, needed, unique);
    && node.op == t'.op && node.inputs == t'.inputs && node.outputs == t'.outputs && Flagged(t')
  }

  /** The join at this node becomes a semi-join if it only filters. */
  method PlaceHere(node: PlanNode, needed: set<string>, unique: set<Column>, ghost t: Tree)
    requires node == t.node && JoinPlan(t) && Flagged(t)
    requires node.op == t.op && node.inputs == t.inputs && node.outputs == t.outputs
    modifies node`op, node`inputs, node`outputs, node`outputsPosList, node`outputsMatVals
    ensures Rewrote(node, t, needed, unique)
    ensures t.op.JoinOp? ==> |t.inputs| == 2 && Replaces(t, Rewritten(t, needed, unique), needed, unique)
                             && node.outputs == node.inputs
    ensures !t.op.JoinOp? ==> node.op == t.op && node.inputs == t.inputs && node.outputs == t.outputs
  {
    if t.op.JoinOp? {
      JoinShape(t);
      JoinRecast(t, needed, unique);
    }
    if node.op.JoinOp? {
      var innerNeeded, outerNeeded := node.inputs[0].table in needed, node.inputs[1].table in needed;
      if !(innerNeeded && outerNeeded) {
        var toDiscard := if innerNeeded then node.inputs[1] else node.inputs[0];
        if toDiscard in unique {
          var inputs, outputs := node.inputs, node.outputs;
          if innerNeeded && !outerNeeded {
            inputs, outputs := [inputs[1], inputs[0]], [outputs[1], outputs[0]];
          }
          node.op, node.inputs, node.outputs := SemiJoinOp(node.op.joinPredicate), inputs, outputs;
          node.outputsPosList, node.outputsMatVals := true, false;
        }
      }
    }
  }

  method PlaceSemiJoins(node: PlanNode, needed: set<string>, unique: set<Column>, ghost t: Tree)
    requires node == t.node && JoinPlan(t) && Shape(t) && Unshared(t)
    modifies Nodes(t)
    ensures Shape(Rewritten(t, needed, unique)) && Recast(t, Rewritten(t, needed, unique), needed, unique)
    decreases t, |t.subs| + 1
  {
    var here := set c | c in node.inputs :: c.table;
    assert t.subs[0..] == t.subs && old(allocated(NodesOf(t.subs)));
    PlaceHere(node, needed, unique, t);
    PlaceBelow(node, 0, needed + here, unique, t, needed);
    ghost var t' := Rewritten(t, needed, unique);
    assert t'.subs[0..] == t'.subs;
    RewrittenIsRecast(t, needed, unique);
  }

  /** The children from the k-th on. */
  method PlaceBelow(node: PlanNode, k: nat, later: set<string>, unique: set<Column>, ghost t: Tree,
                    ghost needed: set<string>)
    requires k <= |t.subs| == |node.children| && later == needed + TablesRead(t.inputs)
    requires JoinPlan(t) && node == t.node && node !in NodesOf(t.subs[k..])
    requires forall i :: 0 <= i < |t.subs| ==> node.children[i] == t.subs[i].node
    requires Shapes(t.subs[k..]) && AllUnshared(t.subs[k..])
    modifies NodesOf(t.subs[k..])
    ensures Shapes(Rewritten(t, needed, unique).subs[k..])
    decreases t, |t.subs| - k
  {
    if k < |node.children| {
      ghost var rest, t' := t.subs[k..], Rewritten(t, needed, unique);
      assert rest[1..] == t.subs[k + 1..] && rest[0] == t.subs[k];
      assert old(allocated(NodesOf(t.subs[k + 1..]))) && old(allocated(Nodes(t.subs[k])));
      PlaceSemiJoins(node.children[k], later, unique, t.subs[k]);
      NodesStay(t.subs[k], later, unique);
      PlaceBelow(node, k + 1, later, unique, t, needed);
      assert t'.subs[k..][1..] == t'.subs[k + 1..] && t'.subs[k..][0] == Rewritten(t.subs[k], later, unique);
    }
  }
}
