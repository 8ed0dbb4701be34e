/**
 The abstract syntax tree of a query, what it denotes, and the first optimizer as a function on
 trees: predicates go down to their tables and the cross product becomes left-deep joins.
 */
module Ast {
  import opened TableRows

  datatype Val =
    | TableJoin(joinType: string, leftTable: string, leftColumn: string, rightTable: string, rightColumn: string)
    | TableBase(tableName: string, tableAlias: string)
    | Where(table: string, column: string, operatorType: string, table2: string, column2: string, value: string,
            value2: string)
    | Clause(text: string)   // select list, grouping, ordering, limit, map and aggregate nodes

  /** A tree; `at` is the object a node lives in, or nothing. */
  datatype Ast<T> = Nil | Node(at: T, val: Val, left: Ast, right: Ast)

  type Plain = Ast<()>

  function Strip<T>(t: Ast<T>): Plain {
    if t.Nil? then Nil else Node((), t.val, Strip(t.left), Strip(t.right))
  }

  // -------------------------------------------------------------------------------------------
  // What a tree denotes
  // -------------------------------------------------------------------------------------------

  /** Row counts, cells, and which row numbers pass a condition that is not a join equality. */
  datatype Database = Database(rows: imap<string, nat>, cells: imap<(string, string, nat), string>,
                               passes: iset<(Val, nat, nat)>)

  /** A join equality has no first and second side. */
  datatype Condition = Nothing | Equal(ends: set<(string, string)>) | Check(where: Val)

  predicate IsJoinCondition(v: Val) {
    v.Where? && v.operatorType == "EQUAL" && v.table2 != ""
  }

  /** The condition a node adds, if it adds one. */
  function ConditionAt(v: Val): Condition {
    match v
    case Where(t1, c1, _, t2, c2, _, _) => if IsJoinCondition(v) then Equal({(t1, c1), (t2, c2)}) else Check(v)
    case TableJoin(kind, t1, c1, t2, c2) => if kind == "JOININNER" then Equal({(t1, c1), (t2, c2)}) else Nothing
    case _ => Nothing
  }

  function At(r: Row, table: string): nat {
    if table in r then r[table] else 0
  }

  ghost function Value(db: Database, r: Row, column: (string, string)): string {
    var k := (column.0, column.1, At(r, column.0));
    if k in db.cells then db.cells[k] else ""
  }

  /** The second row a condition looks at; conditions on one column look at one row. */
  function Second(v: Val): string
    requires v.Where?
  {
    if v.table2 == "" then v.table else v.table2
  }

  ghost predicate Test(db: Database, c: Condition, r: Row) {
    match c
    case Nothing => true
    case Equal(ends) => forall x, y :: x in ends && y in ends ==> Value(db, r, x) == Value(db, r, y)
    case Check(v) => v.Where? ==> (v, At(r, v.table), At(r, Second(v))) in db.passes
  }

  ghost predicate InTable(db: Database, table: string, r: Row) {
    table in db.rows && At(r, table) < db.rows[table]
  }

  /** The one child of a WHERE or clause node, on whichever side it hangs. */
  function Only<T>(t: Ast<T>): Ast<T>
    requires t.Node?
  {
    if t.left.Node? then t.left else t.right
  }

  /** `r` is a row of the relation `t` denotes. */
  ghost predicate Result(db: Database, t: Plain, r: Row) {
    match t
    case Nil => false
    case Node(_, TableBase(name, _), _, _) => r.Keys == {name} && InTable(db, name, r)
    case Node(_, TableJoin(_, _, _, _, _), left, right) =>
      && (exists p, q :: Result(db, left, p) && Result(db, right, q) && p.Keys !! q.Keys && r == p + q)
      && Test(db, ConditionAt(t.val), r)
    case Node(_, v, left, right) =>
      Result(db, if left.Node? then left else right, r) && Test(db, ConditionAt(v), r)
  }

  // -------------------------------------------------------------------------------------------
  // Tables and conditions of a tree
  // -------------------------------------------------------------------------------------------

  function Tables<T>(t: Ast<T>): set<string> {
    match t
    case Nil => {}
    case Node(_, TableBase(name, _), _, _) => {name}
    case Node(_, _, left, right) => Tables(left) + Tables(right)
  }

  /** How often a condition occurs in the tree. */
  function Count<T>(t: Ast<T>, c: Condition): nat {
    if t.Nil? then 0 else (if ConditionAt(t.val) == c then 1 else 0) + Count(t.left, c) + Count(t.right, c)
  }

  function TablesAt(v: Val): set<string> {
    match v
    case Where(t1, _, _, t2, _, _, _) => if t2 == "" then {t1} else {t1, t2}
    case TableJoin(kind, t1, _, t2, _) => if kind == "JOININNER" then {t1, t2} else {}
    case _ => {}
  }

  /** No table occurs twice and every condition reads tables below it; an inner join reads one from each side. */
  predicate Scoped<T>(t: Ast<T>) {
    match t
    case Nil => false
    case Node(_, TableBase(name, _), left, right) => name != "" && left.Nil? && right.Nil?
    case Node(_, TableJoin(kind, t1, _, t2, _), left, right) =>
      && Scoped(left) && Scoped(right) && Tables(left) !! Tables(right)
      && (kind == "JOININNER" ==> t1 in Tables(left) && t2 in Tables(right))
    case Node(_, v, left, right) =>
      && (left.Nil? || right.Nil?) && Scoped(Only(t)) && TablesAt(v) <= Tables(t)
  }

  /** No table occurs twice and every condition reads tables below it, on whichever side. */
  predicate Readable<T>(t: Ast<T>) {
    match t
    case Nil => false
    case Node(_, TableBase(name, _), left, right) => name != "" && left.Nil? && right.Nil?
    case Node(_, TableJoin(_, _, _, _, _), left, right) =>
      Readable(left) && Readable(right) && Tables(left) !! Tables(right) && TablesAt(t.val) <= Tables(t)
    case Node(_, v, left, right) =>
      && (left.Nil? || right.Nil?) && Readable(Only(t)) && TablesAt(v) <= Tables(t)
  }

  lemma {:induction false} ScopedIsReadable<T>(t: Ast<T>)
    requires Scoped(t)
    ensures Readable(t)
  {
    if t.val.TableJoin? {
      ScopedIsReadable(t.left);
      ScopedIsReadable(t.right);
    } else if !t.val.TableBase? {
      ScopedIsReadable(Only(t));
    }
  }

  ghost predicate InTables(db: Database, tables: set<string>, r: Row) {
    forall name :: name in tables ==> InTable(db, name, r)
  }

  ghost predicate Agree(r: Row, s: Row, tables: set<string>) {
    forall name :: name in tables ==> At(r, name) == At(s, name)
  }

  /** A condition cannot tell two rows apart that agree on its tables. */
  lemma TestLocal(db: Database, v: Val, r: Row, s: Row)
    requires Agree(r, s, TablesAt(v)) && Test(db, ConditionAt(v), r)
    ensures Test(db, ConditionAt(v), s)
  {
    var c := ConditionAt(v);
    if c.Equal? {
      forall x | x in c.ends ensures Value(db, r, x) == Value(db, s, x) {
        assert x.0 in TablesAt(v);
      }
    }
  }

  lemma {:induction false} TablesNamed<T>(t: Ast<T>)
    requires Readable(t)
    ensures "" !in Tables(t)
  {
    if !t.val.TableBase? {
      if t.left.Node? { TablesNamed(t.left); }
      if t.right.Node? { TablesNamed(t.right); }
    }
  }

  /** All conditions of the tree hold of `r`. */
  ghost predicate Meets(db: Database, t: Plain, r: Row) {
    t.Node? ==> Test(db, ConditionAt(t.val), r) && Meets(db, t.left, r) && Meets(db, t.right, r)
  }

  lemma {:induction false} MeetsAll(db: Database, t: Plain, r: Row)
    ensures Meets(db, t, r) <==> forall c :: Count(t, c) > 0 ==> Test(db, c, r)
  {
    if t.Node? {
      MeetsAll(db, t.left, r);
      MeetsAll(db, t.right, r);
      assert Count(t, ConditionAt(t.val)) > 0;
      if !Meets(db, t.left, r) {
        var c :| Count(t.left, c) > 0 && !Test(db, c, r);
        assert Count(t, c) > 0;
      }
      if !Meets(db, t.right, r) {
        var c :| Count(t.right, c) > 0 && !Test(db, c, r);
        assert Count(t, c) > 0;
      }
    }
  }

  lemma {:induction false} MeetsLocal(db: Database, t: Plain, r: Row, s: Row)
    requires t.Node? ==> Readable(t)
    requires Agree(r, s, Tables(t)) && Meets(db, t, r)
    ensures Meets(db, t, s)
  {
    if t.Node? {
      if !t.val.TableBase? {
        MeetsLocal(db, t.left, r, s);
        MeetsLocal(db, t.right, r, s);
      }
      TestLocal(db, t.val, r, s);
    }
  }

  ghost predicate Qualifies(db: Database, t: Plain, r: Row) {
    r.Keys == Tables(t) && InTables(db, Tables(t), r) && Meets(db, t, r)
  }

  /** A readable tree denotes the rows of the product of its tables that meet all its conditions. */
  lemma {:induction false} ResultIsConjunction(db: Database, t: Plain, r: Row)
    requires Readable(t)
    ensures Result(db, t, r) <==>
            r.Keys == Tables(t) && InTables(db, Tables(t), r) && forall c :: Count(t, c) > 0 ==> Test(db, c, r)
  {
    ResultIsQualifies(db, t, r);
    MeetsAll(db, t, r);
  }

  lemma {:induction false} ResultIsQualifies(db: Database, t: Plain, r: Row)
    requires Readable(t)
    ensures Result(db, t, r) <==> Qualifies(db, t, r)
    decreases t, 1
  {
    match t.val {
      case TableBase(name, _) =>
        assert Tables(t) == {name} && InTables(db, {name}, r) == InTable(db, name, r);
        assert Test(db, ConditionAt(t.val), r) && Meets(db, t, r);
      case TableJoin(_, _, _, _, _) =>
        if Result(db, t, r) { Joined(db, t, r); }
        if Qualifies(db, t, r) { Parted(db, t, r); }
      case _ =>
        ResultIsQualifies(db, Only(t), r);
        assert Tables(t) == Tables(Only(t));
        assert Result(db, t, r) <==> Result(db, Only(t), r) && Test(db, ConditionAt(t.val), r);
        assert Meets(db, t, r) <==> Meets(db, Only(t), r) && Test(db, ConditionAt(t.val), r);
    }
  }

  lemma {:induction false} Joined(db: Database, t: Plain, r: Row)
    requires Readable(t) && t.val.TableJoin? && Result(db, t, r)
    ensures Qualifies(db, t, r)
    decreases t, 0
  {
    var p, q :| Result(db, t.left, p) && Result(db, t.right, q) && p.Keys !! q.Keys && r == p + q;
    ResultIsQualifies(db, t.left, p);
    ResultIsQualifies(db, t.right, q);
    assert Agree(p, r, Tables(t.left)) && Agree(q, r, Tables(t.right));
    MeetsLocal(db, t.left, p, r);
    MeetsLocal(db, t.right, q, r);
  }

  lemma {:induction false} Parted(db: Database, t: Plain, r: Row)
    requires Readable(t) && t.val.TableJoin? && Qualifies(db, t, r)
    ensures Result(db, t, r)
    decreases t, 0
  {
    var p, q := Part(r, Tables(t.left)), Part(r, Tables(t.right));
    assert r == p + q;
    assert Agree(r, p, Tables(t.left)) && Agree(r, q, Tables(t.right));
    MeetsLocal(db, t.left, r, p);
    MeetsLocal(db, t.right, r, q);
    ResultIsQualifies(db, t.left, p);
    ResultIsQualifies(db, t.right, q);
  }
}
