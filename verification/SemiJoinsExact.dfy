/**
 The conditions on `placeSemiJoins` shut out no plan for nothing: for every plan they reject there is
 a database on which the rewritten plan gives other rows.

 In that database every table has two rows.  A unique column tells them apart, all other columns are
 constant, and the constants are chosen so that every join but an equality holds of any two rows.
 */
module SemiJoinsExact {
  import opened Relational
  import opened PlanTree
  import opened SemiJoins
  import TableRows

  // -------------------------------------------------------------------------------------------
  // A database in which all comparisons but equalities always hold
  // -------------------------------------------------------------------------------------------

  function At(levels: map<string, int>, table: string): int {
    if table in levels then levels[table] else 0
  }

  /** How far the inner column's constant lies above the outer column's. */
  function Gap(c: Comparison): int {
    match c
    case LT => -10
    case LE => -10
    case GE => 10
    case GT => 10
    case NE => 10
    case _ => 0
  }

  function Shifted(levels: map<string, int>, shift: int): (r: map<string, int>)
    ensures r.Keys == levels.Keys && forall table :: table in r ==> r[table] == levels[table] + shift
  {
    map table | table in levels :: levels[table] + shift
  }

  /** The constants of the tables, one side of each join moved so that they fit the other. */
  function Levels(t: Tree): map<string, int> {
    if |t.subs| == 0 then map table | table in Tables(t) :: 0
    else if |t.subs| != 2 || |t.inputs| != 2 || !t.op.JoinOp? then Levels(t.subs[0])
    else
      var i := SideOf(t, t.inputs[0]);
      Combined(t.op, t.inputs, Levels(t.subs[i]), Levels(t.subs[1 - i]))
  }

  function Combined(op: Op, inputs: seq<Column>, inner: map<string, int>, outer: map<string, int>): map<string, int>
    requires op.JoinOp? && |inputs| == 2
  {
    inner + Shifted(outer, At(inner, inputs[0].table) - Gap(op.joinPredicate) - At(outer, inputs[1].table))
  }

  /** At every join the constants differ as they should. */
  predicate Fits(levels: map<string, int>, t: Tree) {
    && Tables(t) <= levels.Keys
    && (t.op.JoinOp? && |t.inputs| == 2 ==>
          At(levels, t.inputs[0].table) == At(levels, t.inputs[1].table) + Gap(t.op.joinPredicate))
    && forall i :: 0 <= i < |t.subs| ==> Fits(levels, t.subs[i])
  }

  /** Only differences count. */
  lemma {:induction false} FitsShifted(levels: map<string, int>, levels': map<string, int>, shift: int, t: Tree)
    requires JoinPlan(t) && Fits(levels, t) && Tables(t) <= levels'.Keys
    requires forall table :: table in Tables(t) ==> levels'[table] == levels[table] + shift
    ensures Fits(levels', t)
  {
    if t.op.JoinOp? {
      JoinShape(t);
      FitsShifted(levels, levels', shift, t.subs[0]);
      FitsShifted(levels, levels', shift, t.subs[1]);
      assert t.inputs[0] in t.inputs && t.inputs[1] in t.inputs;
    } else if t.subs != [] {
      FitsShifted(levels, levels', shift, t.subs[0]);
    }
  }

  lemma {:induction false} LevelsFit(t: Tree)
    requires JoinPlan(t)
    ensures Levels(t).Keys == Tables(t) && Fits(Levels(t), t)
  {
    if t.op.JoinOp? {
      JoinShape(t);
      LevelsFit(t.subs[0]);
      LevelsFit(t.subs[1]);
      JoinFits(t);
    } else if t.subs != [] {
      LevelsFit(t.subs[0]);
    }
  }

  lemma JoinFits(t: Tree)
    requires JoinPlan(t) && t.op.JoinOp? && |t.subs| == 2
    requires forall i :: 0 <= i < 2 ==>
      Levels(t.subs[i]).Keys == Tables(t.subs[i]) && Fits(Levels(t.subs[i]), t.subs[i])
    ensures Levels(t).Keys == Tables(t) && Fits(Levels(t), t)
  {
    JoinShape(t);
    var i := SideOf(t, t.inputs[0]);
    ColumnsOn(t, i);
    ColumnsOn(t, 1 - i);
    CombinedFits(t, t.subs[i], t.subs[1 - i], Levels(t.subs[i]), Levels(t.subs[1 - i]));
    FitsFromSides(Levels(t), t);
  }

  lemma CombinedFits(t: Tree, u: Tree, v: Tree, inner: map<string, int>, outer: map<string, int>)
    requires t.op.JoinOp? && |t.inputs| == 2 && JoinPlan(u) && JoinPlan(v) && Fits(inner, u) && Fits(outer, v)
    requires inner.Keys == Tables(u) && outer.Keys == Tables(v) && Tables(u) !! Tables(v)
    requires t.inputs[0].table in Tables(u) && t.inputs[1].table in Tables(v)
    ensures var levels := Combined(t.op, t.inputs, inner, outer);
            && levels.Keys == Tables(u) + Tables(v) && Fits(levels, u) && Fits(levels, v)
            && At(levels, t.inputs[0].table) == At(levels, t.inputs[1].table) + Gap(t.op.joinPredicate)
  {
    var shift := At(inner, t.inputs[0].table) - Gap(t.op.joinPredicate) - At(outer, t.inputs[1].table);
    SideFits(inner, Combined(t.op, t.inputs, inner, outer), 0, u);
    SideFits(outer, Combined(t.op, t.inputs, inner, outer), shift, v);
  }

  lemma FitsFromSides(levels: map<string, int>, t: Tree)
    requires |t.subs| == 2 && Tables(t) <= levels.Keys && Fits(levels, t.subs[0]) && Fits(levels, t.subs[1])
             && |t.inputs| == 2
    requires t.op.JoinOp? ==> At(levels, t.inputs[0].table) == At(levels, t.inputs[1].table) + Gap(t.op.joinPredicate)
    ensures Fits(levels, t)
  {
  }

  lemma SideFits(levels: map<string, int>, levels': map<string, int>, shift: int, t: Tree)
    requires JoinPlan(t) && Fits(levels, t) && levels.Keys == Tables(t) <= levels'.Keys
    requires forall table :: table in levels ==> levels'[table] == levels[table] + shift
    ensures Fits(levels', t)
  {
    FitsShifted(levels, levels', shift, t);
  }

  ghost function TwoRows(levels: map<string, int>, unique: set<Column>): Database {
    Database(map table | table in levels :: 2,
             imap k: (Column, nat) | true :: At(levels, k.0.table) + Mark(unique, k.0, k.1),
             iset x: (Op, seq<int>) | |x.1| >= 0)
  }

  /** What tells the rows of a table apart. */
  function Mark(unique: set<Column>, c: Column, row: nat): nat {
    if c in unique then row else 0
  }

  function NumberIn(r: Tuple, table: string): nat {
    if table in r then r[table] else 0
  }

  lemma CellValue(levels: map<string, int>, unique: set<Column>, r: Tuple, c: Column)
    ensures Value(TwoRows(levels, unique), r, c) == At(levels, c.table) + Mark(unique, c, NumberIn(r, c.table))
  {
  }

  lemma TwoRowsRespect(levels: map<string, int>, unique: set<Column>)
    ensures Respects(TwoRows(levels, unique), unique)
  {
    var db := TwoRows(levels, unique);
    forall c, i: nat, j: nat | c in unique && c.table in db.rows && i < j < db.rows[c.table]
      ensures Value(db, map[c.table := i], c) != Value(db, map[c.table := j], c)
    {
      CellValue(levels, unique, map[c.table := i], c);
      CellValue(levels, unique, map[c.table := j], c);
    }
  }

  /** Every row of any plan has row numbers 0 and 1 only. */
  lemma {:induction false} RowsAreTwo(db: Database, u: Tree, r: Tuple)
    requires RowOf(db, u, r) && forall table :: table in db.rows ==> db.rows[table] == 2
    ensures forall table :: table in r ==> r[table] < 2
  {
    if |u.subs| == 2 && |u.inputs| == 2 && u.op.JoinOp? {
      var p, q :| RowOf(db, u.subs[0], p) && RowOf(db, u.subs[1], q) && Joined(p, q, r) && Meets(db, u, r);
      RowsAreTwo(db, u.subs[0], p);
      RowsAreTwo(db, u.subs[1], q);
    } else if |u.subs| == 2 && |u.inputs| == 2 && u.op.SemiJoinOp? {
      RowsAreTwo(db, u.subs[1 - SideOf(u, u.inputs[0])], r);
    } else if |u.subs| != 0 {
      RowsAreTwo(db, u.subs[0], r);
    }
  }

  predicate Alive(t: Tree) {
    JoinPlan(t) && !Dead(t)
  }

  lemma AliveBelow(t: Tree, i: nat)
    requires Alive(t) && i < |t.subs|
    ensures Alive(t.subs[i])
  {
  }

  /** The join column on side i. */
  function ColumnOn(t: Tree, i: nat): Column
    requires |t.subs| == 2 && |t.inputs| == 2
  {
    if SideOf(t, t.inputs[0]) == i then t.inputs[0] else t.inputs[1]
  }

  lemma ColumnsOn(t: Tree, i: nat)
    requires JoinPlan(t) && t.op.JoinOp? && i < 2
    ensures |t.subs| == 2 && |t.inputs| == 2
    ensures ColumnOn(t, i) in t.inputs && ColumnOn(t, i).table in Tables(t.subs[i])
    ensures t.inputs == [ColumnOn(t, 0), ColumnOn(t, 1)] || t.inputs == [ColumnOn(t, 1), ColumnOn(t, 0)]
  {
    JoinColumns(t);
    var j := SideOf(t, t.inputs[0]);
    assert i == j || i == 1 - j;
  }

  lemma JoinColumns(t: Tree)
    requires JoinPlan(t) && t.op.JoinOp?
    ensures |t.subs| == 2 && |t.inputs| == 2
    ensures t.inputs[0].table in Tables(t.subs[SideOf(t, t.inputs[0])])
    ensures t.inputs[1].table in Tables(t.subs[1 - SideOf(t, t.inputs[0])])
    ensures t.inputs == [t.inputs[0], t.inputs[1]]
  {
  }

  lemma Compared(c: Comparison, a: int, b: int, m: nat, n: nat)
    requires !c.BETWEEN? && !c.IN? && a == b + Gap(c) && m < 2 && n < 2
    ensures Compares(c, a + m, b + n) <==> (c.EQ? ==> m == n)
  {
  }

  /** A join with a column on either side, whose constants differ as they should. */
  predicate Fitted(levels: map<string, int>, t: Tree) {
    && |t.subs| == 2 && |t.inputs| == 2 && t.op.JoinOp? && !t.op.joinPredicate.BETWEEN? && !t.op.joinPredicate.IN?
    && At(levels, t.inputs[0].table) == At(levels, t.inputs[1].table) + Gap(t.op.joinPredicate)
    && Tables(t.subs[0]) !! Tables(t.subs[1])
    && ColumnOn(t, 0).table in Tables(t.subs[0]) && ColumnOn(t, 1).table in Tables(t.subs[1])
    && (t.inputs == [ColumnOn(t, 0), ColumnOn(t, 1)] || t.inputs == [ColumnOn(t, 1), ColumnOn(t, 0)])
  }

  predicate Sound(levels: map<string, int>, t: Tree) {
    Alive(t) && Fits(levels, t)
  }

  lemma JoinFitted(levels: map<string, int>, t: Tree)
    requires Sound(levels, t) && t.op.JoinOp?
    ensures Fitted(levels, t) && Sound(levels, t.subs[0]) && Sound(levels, t.subs[1])
    ensures Tables(t) == Tables(t.subs[0]) + Tables(t.subs[1])
  {
    JoinShape(t);
    AliveBelow(t, 0);
    AliveBelow(t, 1);
    ColumnsOn(t, 0);
    ColumnsOn(t, 1);
  }

  /** Row numbers 0 and 1 for the tables. */
  predicate Carries(r: Tuple, tables: set<string>) {
    r.Keys == tables && forall table :: table in r ==> r[table] < 2
  }

  lemma SideCarries(levels: map<string, int>, unique: set<Column>, t: Tree, p: Tuple)
    requires JoinPlan(t) && RowOf(TwoRows(levels, unique), t, p)
    ensures Carries(p, Tables(t))
  {
    RowsCarryTables(TwoRows(levels, unique), t, p);
    RowsAreTwo(TwoRows(levels, unique), t, p);
  }

  /** Rows of the two sides go together unless an equality tells them apart. */
  lemma RowsMeet(levels: map<string, int>, unique: set<Column>, t: Tree, i: nat, p: Tuple, q: Tuple)
    requires Fitted(levels, t) && i < 2 && Carries(p, Tables(t.subs[i])) && Carries(q, Tables(t.subs[1 - i]))
    requires RowOf(TwoRows(levels, unique), t.subs[i], p) && RowOf(TwoRows(levels, unique), t.subs[1 - i], q)
    requires t.op.joinPredicate.EQ? ==>
      Mark(unique, ColumnOn(t, i), NumberIn(p, ColumnOn(t, i).table))
      == Mark(unique, ColumnOn(t, 1 - i), NumberIn(q, ColumnOn(t, 1 - i).table))
    ensures RowOf(TwoRows(levels, unique), t, p + q)
  {
    NumbersStay(p, q, ColumnOn(t, i).table, ColumnOn(t, 1 - i).table);
    MeetsIn(levels, unique, t, i, p + q);
    JoinEither(TwoRows(levels, unique), t, i, p, q);
  }

  lemma NumbersStay(p: Tuple, q: Tuple, c: string, d: string)
    requires p.Keys !! q.Keys && c in p && d in q
    ensures NumberIn(p + q, c) == NumberIn(p, c) && NumberIn(p + q, d) == NumberIn(q, d)
    ensures (forall table :: table in p ==> p[table] < 2) && (forall table :: table in q ==> q[table] < 2) ==>
      forall table :: table in p + q ==> (p + q)[table] < 2
  {
  }

  lemma JoinEither(db: Database, t: Tree, i: nat, p: Tuple, q: Tuple)
    requires |t.subs| == 2 && |t.inputs| == 2 && t.op.JoinOp? && i < 2 && p.Keys !! q.Keys
    requires RowOf(db, t.subs[i], p) && RowOf(db, t.subs[1 - i], q) && Meets(db, t, p + q)
    ensures RowOf(db, t, p + q)
  {
    if i == 0 {
      JoinIntro(db, t, p, q, p + q);
    } else {
      EitherOrder(p, q);
      JoinIntro(db, t, q, p, p + q);
    }
  }

  lemma EitherOrder(p: Tuple, q: Tuple)
    requires p.Keys !! q.Keys
    ensures p + q == q + p
  {
  }

  lemma MeetsIn(levels: map<string, int>, unique: set<Column>, t: Tree, i: nat, r: Tuple)
    requires Fitted(levels, t) && i < 2 && forall table :: table in r ==> r[table] < 2
    requires t.op.joinPredicate.EQ? ==>
      Mark(unique, ColumnOn(t, i), NumberIn(r, ColumnOn(t, i).table))
      == Mark(unique, ColumnOn(t, 1 - i), NumberIn(r, ColumnOn(t, 1 - i).table))
    ensures Meets(TwoRows(levels, unique), t, r)
  {
    var c, d := t.inputs[0], t.inputs[1];
    CellValue(levels, unique, r, c);
    CellValue(levels, unique, r, d);
    Compared(t.op.joinPredicate, At(levels, c.table), At(levels, d.table),
             Mark(unique, c, NumberIn(r, c.table)), Mark(unique, d, NumberIn(r, d.table)));
  }

  function Zeros(tables: set<string>): (r: Tuple)
    ensures r.Keys == tables && forall table :: table in r ==> r[table] == 0
  {
    map table | table in tables :: 0
  }

  lemma ZerosSplit(a: set<string>, b: set<string>)
    ensures Zeros(a) + Zeros(b) == Zeros(a + b)
  {
  }

  lemma {:induction false} ZerosAreIn(levels: map<string, int>, unique: set<Column>, t: Tree)
    requires Sound(levels, t)
    ensures RowOf(TwoRows(levels, unique), t, Zeros(Tables(t)))
  {
    if t.op.JoinOp? {
      JoinFitted(levels, t);
      ZerosAreIn(levels, unique, t.subs[0]);
      ZerosAreIn(levels, unique, t.subs[1]);
      RowsMeet(levels, unique, t, 0, Zeros(Tables(t.subs[0])), Zeros(Tables(t.subs[1])));
      ZerosSplit(Tables(t.subs[0]), Tables(t.subs[1]));
    } else if t.subs != [] {
      AliveBelow(t, 0);
      ZerosAreIn(levels, unique, t.subs[0]);
    }
  }

  // -------------------------------------------------------------------------------------------
  // Rows besides the first ones
  // -------------------------------------------------------------------------------------------

  predicate NonZero(r: Tuple) {
    exists table :: table in r && r[table] != 0
  }

  lemma StaysNonZero(p: Tuple, q: Tuple)
    requires NonZero(p) && p.Keys !! q.Keys
    ensures NonZero(p + q)
  {
    var table :| table in p && p[table] != 0;
    assert table in p + q && (p + q)[table] != 0;
  }

  /** A row of one side together with the zero row of the other. */
  lemma WithZeros(levels: map<string, int>, unique: set<Column>, t: Tree, i: nat, p: Tuple) returns (r: Tuple)
    requires Fitted(levels, t) && i < 2 && JoinPlan(t.subs[i]) && Sound(levels, t.subs[1 - i])
    requires RowOf(TwoRows(levels, unique), t.subs[i], p) && NonZero(p)
    requires t.op.joinPredicate.EQ? ==> Mark(unique, ColumnOn(t, i), NumberIn(p, ColumnOn(t, i).table)) == 0
    ensures RowOf(TwoRows(levels, unique), t, r) && NonZero(r)
    ensures p.Keys == Tables(t.subs[i]) && r == p + Zeros(Tables(t.subs[1 - i]))
    ensures forall table :: table in Tables(t.subs[1 - i]) ==> table in r && r[table] == 0
  {
    SideCarries(levels, unique, t.subs[i], p);
    ZerosAreIn(levels, unique, t.subs[1 - i]);
    var zeros := Zeros(Tables(t.subs[1 - i]));
    AllZero(unique, zeros, ColumnOn(t, 1 - i));
    assert p.Keys !! zeros.Keys;
    Padded(p, zeros);
    RowsMeet(levels, unique, t, i, p, zeros);
    r := p + zeros;
  }

  lemma Padded(p: Tuple, zeros: Tuple)
    requires NonZero(p) && p.Keys !! zeros.Keys && forall table :: table in zeros ==> zeros[table] == 0
    ensures NonZero(p + zeros) && forall table :: table in zeros ==> (p + zeros)[table] == 0
  {
    StaysNonZero(p, zeros);
  }

  lemma AllZero(unique: set<Column>, q: Tuple, c: Column)
    requires forall table :: table in q ==> q[table] == 0
    ensures Carries(q, q.Keys) && Mark(unique, c, NumberIn(q, c.table)) == 0
  {
  }

  /** Rows of both sides that a unique column numbers alike. */
  lemma BothOnes(levels: map<string, int>, unique: set<Column>, t: Tree, i: nat, p: Tuple, q: Tuple) returns (r: Tuple)
    requires Fitted(levels, t) && i < 2 && JoinPlan(t.subs[i]) && JoinPlan(t.subs[1 - i])
    requires RowOf(TwoRows(levels, unique), t.subs[i], p) && NonZero(p)
             && RowOf(TwoRows(levels, unique), t.subs[1 - i], q)
    requires Mark(unique, ColumnOn(t, i), NumberIn(p, ColumnOn(t, i).table)) != 0
    requires Mark(unique, ColumnOn(t, 1 - i), NumberIn(q, ColumnOn(t, 1 - i).table)) != 0
    ensures RowOf(TwoRows(levels, unique), t, r) && NonZero(r)
    ensures p.Keys == Tables(t.subs[i]) && q.Keys == Tables(t.subs[1 - i]) && r == p + q
  {
    SideCarries(levels, unique, t.subs[i], p);
    SideCarries(levels, unique, t.subs[1 - i], q);
    r := p + q;
    RowsMeet(levels, unique, t, i, p, q);
    StaysNonZero(p, q);
  }

  lemma {:induction false} AnotherRow(levels: map<string, int>, unique: set<Column>, t: Tree) returns (r: Tuple)
    requires Sound(levels, t)
    ensures RowOf(TwoRows(levels, unique), t, r) && NonZero(r)
  {
    if t.op.JoinOp? {
      JoinFitted(levels, t);
      var p := AnotherRow(levels, unique, t.subs[0]);
      var q := AnotherRow(levels, unique, t.subs[1]);
      r := AnotherJoined(levels, unique, t, p, q);
    } else if t.subs != [] {
      AliveBelow(t, 0);
      r := AnotherRow(levels, unique, t.subs[0]);
    } else {
      r := map[t.inputs[0].table := 1];
      assert r[t.inputs[0].table] != 0;
    }
  }

  lemma AnotherJoined(levels: map<string, int>, unique: set<Column>, t: Tree, p: Tuple, q: Tuple) returns (r: Tuple)
    requires Fitted(levels, t) && Sound(levels, t.subs[0]) && Sound(levels, t.subs[1])
    requires RowOf(TwoRows(levels, unique), t.subs[0], p) && NonZero(p)
    requires RowOf(TwoRows(levels, unique), t.subs[1], q) && NonZero(q)
    ensures RowOf(TwoRows(levels, unique), t, r) && NonZero(r)
  {
    if Mark(unique, ColumnOn(t, 0), NumberIn(p, ColumnOn(t, 0).table)) == 0 {
      r := WithZeros(levels, unique, t, 0, p);
    } else if Mark(unique, ColumnOn(t, 1), NumberIn(q, ColumnOn(t, 1).table)) == 0 {
      r := WithZeros(levels, unique, t, 1, q);
    } else {
      r := BothOnes(levels, unique, t, 0, p, q);
    }
  }

  /** If a table's row number does not fix the whole row, the first row of the table is in two rows of the plan. */
  lemma {:induction false} Undetermined(levels: map<string, int>, unique: set<Column>, t: Tree, table: string)
    returns (r: Tuple)
    requires Sound(levels, t) && table in Tables(t) && !Determines(t, table, unique)
    ensures RowOf(TwoRows(levels, unique), t, r) && NonZero(r) && table in r && r[table] == 0
    decreases t, 1
  {
    if t.op.JoinOp? {
      JoinFitted(levels, t);
      r := UndeterminedJoin(levels, unique, t, if table in Tables(t.subs[0]) then 0 else 1, table);
    } else {
      AliveBelow(t, 0);
      r := Undetermined(levels, unique, t.subs[0], table);
    }
  }

  lemma {:induction false} UndeterminedJoin(levels: map<string, int>, unique: set<Column>, t: Tree, i: nat,
                                            table: string) returns (r: Tuple)
    requires Fitted(levels, t) && i < 2 && Sound(levels, t.subs[i]) && Sound(levels, t.subs[1 - i])
    requires table in Tables(t.subs[i])
    requires !(t.op.joinPredicate.EQ? && ColumnOn(t, 1 - i) in unique && Determines(t.subs[i], table, unique)
               && Determines(t.subs[1 - i], ColumnOn(t, 1 - i).table, unique))
    ensures RowOf(TwoRows(levels, unique), t, r) && NonZero(r) && table in r && r[table] == 0
    decreases t, 0, 1
  {
    var d := ColumnOn(t, 1 - i);
    var q := OtherRow(levels, unique, t, i, table);
    if !t.op.joinPredicate.EQ? || Mark(unique, d, NumberIn(q, d.table)) == 0 {
      r := WithZeros(levels, unique, t, 1 - i, q);
    } else {
      var p := Undetermined(levels, unique, t.subs[i], table);
      r := UndeterminedSide(levels, unique, t, i, table, p, q);
    }
  }

  /** A row of the other side, with the first row of its join column's table where possible. */
  lemma {:induction false} OtherRow(levels: map<string, int>, unique: set<Column>, t: Tree, i: nat, table: string)
    returns (q: Tuple)
    requires |t.subs| == 2 && |t.inputs| == 2 && i < 2 && Sound(levels, t.subs[1 - i])
    requires ColumnOn(t, 1 - i).table in Tables(t.subs[1 - i])
    ensures RowOf(TwoRows(levels, unique), t.subs[1 - i], q) && NonZero(q)
    ensures !Determines(t.subs[1 - i], ColumnOn(t, 1 - i).table, unique) ==> NumberIn(q, ColumnOn(t, 1 - i).table) == 0
    decreases t, 0, 0
  {
    if Determines(t.subs[1 - i], ColumnOn(t, 1 - i).table, unique) {
      q := AnotherRow(levels, unique, t.subs[1 - i]);
    } else {
      q := Undetermined(levels, unique, t.subs[1 - i], ColumnOn(t, 1 - i).table);
    }
  }

  lemma UndeterminedSide(levels: map<string, int>, unique: set<Column>, t: Tree, i: nat, table: string, p: Tuple,
                         q: Tuple)
    returns (r: Tuple)
    requires Fitted(levels, t) && i < 2 && JoinPlan(t.subs[i]) && Sound(levels, t.subs[1 - i])
    requires RowOf(TwoRows(levels, unique), t.subs[i], p) && NonZero(p) && table in p && p[table] == 0
    requires RowOf(TwoRows(levels, unique), t.subs[1 - i], q)
    requires Mark(unique, ColumnOn(t, 1 - i), NumberIn(q, ColumnOn(t, 1 - i).table)) != 0
    ensures RowOf(TwoRows(levels, unique), t, r) && NonZero(r) && table in r && r[table] == 0
  {
    if Mark(unique, ColumnOn(t, i), NumberIn(p, ColumnOn(t, i).table)) == 0 {
      r := WithZeros(levels, unique, t, i, p);
    } else {
      r := BothOnes(levels, unique, t, i, p, q);
    }
  }

  // -------------------------------------------------------------------------------------------
  // A plan that is not lossless merges rows
  // -------------------------------------------------------------------------------------------

  /** The row looks like the zero row on some tables. */
  predicate ZeroOn(r: Tuple, tables: set<string>) {
    forall table :: table in r && table in tables ==> r[table] == 0
  }

  lemma {:induction false} LossShows(levels: map<string, int>, t: Tree, needed: set<string>, unique: set<Column>)
    returns (r: Tuple)
    requires Sound(levels, t) && Spares(t, needed, unique) && !Lossless(t, needed, unique)
    ensures RowOf(TwoRows(levels, unique), t, r) && NonZero(r) && ZeroOn(r, Visible(Rewritten(t, needed, unique)))
    decreases t
  {
    if k :| 0 <= k < |t.subs| && !Lossless(t.subs[k], needed + TablesRead(t.inputs), unique) {
      Children(t, needed, unique, k);
      AliveBelow(t, k);
      var p := LossShows(levels, t.subs[k], needed + TablesRead(t.inputs), unique);
      r := LossStays(levels, t, needed, unique, k, p);
    } else {
      r := LossHere(levels, t, needed, unique);
    }
  }

  lemma LossStays(levels: map<string, int>, t: Tree, needed: set<string>, unique: set<Column>, k: nat, p: Tuple)
    returns (r: Tuple)
    requires Sound(levels, t) && Spares(t, needed, unique) && k < |t.subs|
    requires RowOf(TwoRows(levels, unique), t.subs[k], p) && NonZero(p)
    requires ZeroOn(p, Visible(Rewritten(t, needed, unique).subs[k]))
    ensures RowOf(TwoRows(levels, unique), t, r) && NonZero(r) && ZeroOn(r, Visible(Rewritten(t, needed, unique)))
  {
    if t.op.JoinOp? {
      JoinFitted(levels, t);
      r := LossJoined(levels, t, needed, unique, k, p);
    } else {
      r := p;
      assert JoinPlan(t) && k == 0 && t.subs[k] == t.subs[0];
      PassedOn(levels, t, needed, unique, p);
    }
  }

  lemma PassedOn(levels: map<string, int>, t: Tree, needed: set<string>, unique: set<Column>, r: Tuple)
    requires JoinPlan(t) && !t.op.JoinOp? && t.subs != [] && RowOf(TwoRows(levels, unique), t.subs[0], r)
    ensures |t.subs| == 1 && RowOf(TwoRows(levels, unique), t, r)
    ensures Visible(Rewritten(t, needed, unique)) == Visible(Rewritten(t, needed, unique).subs[0])
  {
    VisibleCases(t, needed, unique);
  }

  /** The side given up has another row that joins the zero row of the side kept. */
  lemma LossHere(levels: map<string, int>, t: Tree, needed: set<string>, unique: set<Column>) returns (r: Tuple)
    requires Sound(levels, t) && Converts(t, needed, unique) && |t.subs| == 2
    requires !(t.op.joinPredicate.EQ?
               && Determines(t.subs[SideOf(t, Discarded(t, needed))], Discarded(t, needed).table, unique))
    ensures RowOf(TwoRows(levels, unique), t, r) && NonZero(r) && ZeroOn(r, Visible(Rewritten(t, needed, unique)))
  {
    var keep := SemiJoinSides(t, needed, unique);
    var given := Discarded(t, needed);
    JoinFitted(levels, t);
    assert ColumnOn(t, 1 - keep) == given;
    var q;
    if t.op.joinPredicate.EQ? {
      q := Undetermined(levels, unique, t.subs[1 - keep], given.table);
    } else {
      q := AnotherRow(levels, unique, t.subs[1 - keep]);
    }
    r := WithZeros(levels, unique, t, 1 - keep, q);
    KeptTables(t, needed, unique, keep);
  }

  lemma KeptTables(t: Tree, needed: set<string>, unique: set<Column>, keep: nat)
    requires JoinPlan(t) && keep < |t.subs|
    requires Visible(Rewritten(t, needed, unique)) == Visible(Rewritten(t, needed, unique).subs[keep])
    ensures Visible(Rewritten(t, needed, unique)) <= Tables(t.subs[keep])
  {
    Children(t, needed, unique, keep);
    VisibleIsRest(t.subs[keep], needed + TablesRead(t.inputs), unique);
  }

  /** Two rows that a join below merges stay two rows above it, and look the same there. */
  lemma LossAbove(levels: map<string, int>, t: Tree, u: Tree, unique: set<Column>, k: nat, p: Tuple) returns (r: Tuple)
    requires Fitted(levels, t) && k < 2 && Sound(levels, t.subs[k]) && Sound(levels, t.subs[1 - k]) && |u.subs| == 2
    requires forall c :: c in t.inputs && c.table in Tables(t.subs[k]) ==> c.table in Visible(u.subs[k])
    requires Visible(u) <= Visible(u.subs[k]) + Visible(u.subs[1 - k])
             && Visible(u.subs[1 - k]) <= Tables(t.subs[1 - k])
    requires RowOf(TwoRows(levels, unique), t.subs[k], p) && NonZero(p) && ZeroOn(p, Visible(u.subs[k]))
    ensures RowOf(TwoRows(levels, unique), t, r) && NonZero(r) && ZeroOn(r, Visible(u))
  {
    MarkedZero(t, u, unique, k, p);
    r := WithZeros(levels, unique, t, k, p);
    ZeroAbove(t, u, k, p, r);
  }

  lemma LossJoined(levels: map<string, int>, t: Tree, needed: set<string>, unique: set<Column>, k: nat, p: Tuple)
    returns (r: Tuple)
    requires Fitted(levels, t) && k < 2 && Sound(levels, t.subs[k]) && Sound(levels, t.subs[1 - k])
    requires JoinPlan(t) && Spares(t, needed, unique)
    requires RowOf(TwoRows(levels, unique), t.subs[k], p) && NonZero(p)
    requires ZeroOn(p, Visible(Rewritten(t, needed, unique).subs[k]))
    ensures RowOf(TwoRows(levels, unique), t, r) && NonZero(r) && ZeroOn(r, Visible(Rewritten(t, needed, unique)))
  {
    BothSides(t, needed, unique, k);
    r := LossAbove(levels, t, Rewritten(t, needed, unique), unique, k, p);
  }

  lemma MarkedZero(t: Tree, u: Tree, unique: set<Column>, k: nat, p: Tuple)
    requires |t.subs| == |u.subs| == 2 && |t.inputs| == 2 && k < 2 && ColumnOn(t, k).table in Tables(t.subs[k])
    requires forall c :: c in t.inputs && c.table in Tables(t.subs[k]) ==> c.table in Visible(u.subs[k])
    requires ZeroOn(p, Visible(u.subs[k]))
    ensures Mark(unique, ColumnOn(t, k), NumberIn(p, ColumnOn(t, k).table)) == 0
  {
    assert ColumnOn(t, k) in t.inputs;
  }

  lemma ZeroAbove(t: Tree, u: Tree, k: nat, p: Tuple, r: Tuple)
    requires |t.subs| == |u.subs| == 2 && k < 2 && p.Keys == Tables(t.subs[k]) && r == p + Zeros(Tables(t.subs[1 - k]))
    requires Visible(u) <= Visible(u.subs[k]) + Visible(u.subs[1 - k])
             && Visible(u.subs[1 - k]) <= Tables(t.subs[1 - k])
    requires ZeroOn(p, Visible(u.subs[k]))
    ensures ZeroOn(r, Visible(u))
  {
  }

  lemma BothSides(t: Tree, needed: set<string>, unique: set<Column>, k: nat)
    requires JoinPlan(t) && Spares(t, needed, unique) && t.op.JoinOp? && k < 2
    ensures |t.subs| == 2 && |Rewritten(t, needed, unique).subs| == 2
    ensures var t' := Rewritten(t, needed, unique);
            && (forall c :: c in t.inputs && c.table in Tables(t.subs[k]) ==> c.table in Visible(t'.subs[k]))
            && Visible(t'.subs[1 - k]) <= Tables(t.subs[1 - k])
            && Visible(t') <= Visible(t'.subs[k]) + Visible(t'.subs[1 - k])
  {
    Sides(t, needed, unique, k);
    Sides(t, needed, unique, 1 - k);
    VisibleBelow(t, needed, unique, k);
  }

  lemma VisibleBelow(t: Tree, needed: set<string>, unique: set<Column>, k: nat)
    requires JoinPlan(t) && t.op.JoinOp? && k < 2
    ensures var t' := Rewritten(t, needed, unique);
            |t'.subs| == 2 && Visible(t') <= Visible(t'.subs[k]) + Visible(t'.subs[1 - k])
  {
    assert |t.subs| == 2 by { JoinShape(t); }
    VisibleOfTwo(Rewritten(t, needed, unique));
    assert k == 0 || k == 1;
  }

  lemma VisibleOfTwo(t: Tree)
    requires |t.subs| == 2
    ensures Visible(t) <= Visible(t.subs[0]) + Visible(t.subs[1])
  {
  }

  // -------------------------------------------------------------------------------------------
  // A comparison read backwards loses rows
  // -------------------------------------------------------------------------------------------

  /** A converted join whose columns have changed places under an order comparison lets no row through. */
  lemma {:induction false} TurnedIsEmpty(levels: map<string, int>, t: Tree, needed: set<string>, unique: set<Column>,
                                         r: Tuple)
    requires JoinPlan(t) && Fits(levels, t) && !Sifts(t, needed, unique)
    ensures !RowOf(TwoRows(levels, unique), Rewritten(t, needed, unique), r)
    decreases t
  {
    var db, t', later := TwoRows(levels, unique), Rewritten(t, needed, unique), needed + TablesRead(t.inputs);
    if k :| 0 <= k < |t.subs| && !Sifts(t.subs[k], later, unique) {
      Children(t, needed, unique, k);
      forall x ensures !RowOf(db, t'.subs[k], x) {
        TurnedIsEmpty(levels, t.subs[k], later, unique, x);
      }
      EmptyAbove(db, t, needed, unique, k, r);
    } else {
      TurnedHere(levels, t, needed, unique, r);
    }
  }

  lemma EmptyAbove(db: Database, t: Tree, needed: set<string>, unique: set<Column>, k: nat, r: Tuple)
    requires JoinPlan(t) && k < |t.subs| && forall x :: !RowOf(db, Rewritten(t, needed, unique).subs[k], x)
    ensures !RowOf(db, Rewritten(t, needed, unique), r)
  {
    if t.op.JoinOp? {
      EmptySide(db, t, needed, unique, k, r);
    } else {
      UnaryRow(db, t, needed, unique, r);
    }
  }

  lemma EmptySide(db: Database, t: Tree, needed: set<string>, unique: set<Column>, k: nat, r: Tuple)
    requires JoinPlan(t) && t.op.JoinOp? && k < |t.subs| == 2
    requires forall x :: !RowOf(db, Rewritten(t, needed, unique).subs[k], x)
    ensures !RowOf(db, Rewritten(t, needed, unique), r)
  {
    var side := Rewritten(t, needed, unique).subs[k];
    assert side == Rewritten(t, needed, unique).subs[0] || side == Rewritten(t, needed, unique).subs[1];
    if RowOf(db, Rewritten(t, needed, unique), r) {
      var p, q, w := SidesAfter(db, t, needed, unique, r);
    }
  }

  lemma UnaryRow(db: Database, t: Tree, needed: set<string>, unique: set<Column>, r: Tuple)
    requires JoinPlan(t) && !t.op.JoinOp? && t.subs != []
    ensures |t.subs| == 1
    ensures RowOf(db, Rewritten(t, needed, unique), r) ==> RowOf(db, Rewritten(t, needed, unique).subs[0], r)
  {
    var t' := Rewritten(t, needed, unique);
    assert t'.op == t.op && |t'.subs| == 1;
  }

  lemma TurnedHere(levels: map<string, int>, t: Tree, needed: set<string>, unique: set<Column>, r: Tuple)
    requires JoinPlan(t) && Fits(levels, t) && Converts(t, needed, unique)
    requires !Mirrorable(t.op.joinPredicate) && t.inputs[0].table in needed
    ensures !RowOf(TwoRows(levels, unique), Rewritten(t, needed, unique), r)
  {
    var db, t' := TwoRows(levels, unique), Rewritten(t, needed, unique);
    var keep := SemiJoinSides(t, needed, unique);
    if RowOf(db, t', r) {
      var d := SemiJoinElim(db, t', keep, r);
      RowsAreTwo(db, t'.subs[keep], r);
      RowsAreTwo(db, t'.subs[1 - keep], d);
      CellValue(levels, unique, r + d, t.inputs[0]);
      CellValue(levels, unique, r + d, t.inputs[1]);
    }
  }

  // -------------------------------------------------------------------------------------------
  // Both conditions are exact
  // -------------------------------------------------------------------------------------------

  /** The same rows, whatever the data, exactly if there are none at all or no order comparison is read backwards. */
  lemma SiftsIsExact(t: Tree, needed: set<string>, unique: set<Column>)
    requires JoinPlan(t) && Spares(t, needed, unique)
    ensures Dead(t) || Sifts(t, needed, unique)
            <==> forall db: Database :: Respects(db, unique) ==> SameRows(db, t, needed, unique)
  {
    if Dead(t) || Sifts(t, needed, unique) {
      forall db: Database | Respects(db, unique) ensures SameRows(db, t, needed, unique) {
        SiftedRows(db, t, needed, unique);
      }
    } else {
      LevelsFit(t);
      var db, t' := TwoRows(Levels(t), unique), Rewritten(t, needed, unique);
      TwoRowsRespect(Levels(t), unique);
      ZerosAreIn(Levels(t), unique, t);
      TurnedIsEmpty(Levels(t), t, needed, unique, TableRows.Part(Zeros(Tables(t)), Visible(t')));
      assert Respects(db, unique) && !SameRows(db, t, needed, unique);
    }
  }

  /** The same bag of rows, whatever the data, and all that is read visible where it is read: exactly the safe plans. */
  lemma SafeIsExact(t: Tree, needed: set<string>, unique: set<Column>)
    requires JoinPlan(t)
    ensures Safe(t, needed, unique)
            <==> AllVisible(t, needed, unique)
                 && forall db: Database :: Respects(db, unique) ==>
                      SameRows(db, t, needed, unique) && NoneMerged(db, t, needed, unique)
  {
    VisibleIffSpared(t, needed, unique);
    if Safe(t, needed, unique) {
      forall db: Database | Respects(db, unique)
        ensures SameRows(db, t, needed, unique) && NoneMerged(db, t, needed, unique) {
        SameBag(db, t, needed, unique);
      }
    } else if Spares(t, needed, unique) {
      LevelsFit(t);
      var db := TwoRows(Levels(t), unique);
      TwoRowsRespect(Levels(t), unique);
      ZerosAreIn(Levels(t), unique, t);
      var r := LossShows(Levels(t), t, needed, unique);
      MergedWithZeros(db, t, needed, unique, r);
      assert Respects(db, unique) && !NoneMerged(db, t, needed, unique);
    }
  }

  lemma MergedWithZeros(db: Database, t: Tree, needed: set<string>, unique: set<Column>, r: Tuple)
    requires JoinPlan(t) && RowOf(db, t, Zeros(Tables(t))) && RowOf(db, t, r) && NonZero(r)
    requires ZeroOn(r, Visible(Rewritten(t, needed, unique)))
    ensures !NoneMerged(db, t, needed, unique)
  {
    var v := Visible(Rewritten(t, needed, unique));
    RowsCarryTables(db, t, r);
    assert TableRows.Part(r, v) == TableRows.Part(Zeros(Tables(t)), v);
    var table :| table in r && r[table] != 0;
    assert r != Zeros(Tables(t));
  }
}
