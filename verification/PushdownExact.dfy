/**
 When the first optimizer keeps a query's conditions, and when it keeps its meaning: both conditions
 are exact.
 */
module PushdownExact {
  import opened Ast
  import opened Pushdown
  import opened ImpliedEqualities
  import opened TableRows

  // -------------------------------------------------------------------------------------------
  // Where a predicate lands
  // -------------------------------------------------------------------------------------------

  /** A predicate is added once for each place found. */
  lemma {:induction false} PlacedCounts(t: Plain, v: Val, c: Condition)
    ensures Count(Placed(t, (), v), c) == Count(t, c) + if ConditionAt(v) == c then Places(t, v) else 0
  {
    if t.Node? {
      PlacedCounts(t.left, v, c);
      PlacedCounts(t.right, v, c);
      CountOver(t.left, v, c);
      CountOver(t.right, v, c);
    }
  }

  lemma CountOver(t: Plain, v: Val, c: Condition)
    ensures Count(Node((), v, t, Nil), c) == Count(Node((), v, Nil, t), c) == Count(t, c) + if ConditionAt(v) == c
            then 1 else 0
  {
  }

  /** WHERE nodes over one table. */
  predicate Stacked(t: Plain) {
    t.Node? &&
    if t.val.TableBase? then t.val.tableName != "" && t.val.tableAlias == "" && t.left.Nil? && t.right.Nil?
    else t.val.Where? && (t.left.Nil? || t.right.Nil?) && Stacked(Only(t))
  }

  /** Left-deep joins over such stacks. */
  predicate Deep(t: Plain) {
    t.Node? && t.val.TableJoin? && (Deep(t.left) || Stacked(t.left)) && Stacked(t.right)
  }

  /** Some join has a table on both sides. */
  predicate Overlaps(t: Plain) {
    t.Node? &&
    ((t.val.TableJoin? && !(Tables(t.left) !! Tables(t.right))) || Overlaps(t.left) || Overlaps(t.right))
  }

  lemma {:induction false} StackPlaces(t: Plain, v: Val)
    requires Stacked(t) && !t.val.TableBase? && v.Where? && v.table != ""
    ensures Places(t, v) == if v.table in Tables(t) then 1 else 0
  {
    assert Tables(t) == Tables(Only(t));
    if !Only(t).val.TableBase? {
      StackPlaces(Only(t), v);
    }
  }

  /** Over distinct tables there is one place, directly over the predicate's table, or none. */
  lemma {:induction false} PlacesIsTable(t: Plain, v: Val)
    requires Deep(t) && !Overlaps(t) && v.Where? && v.table != ""
    ensures Places(t, v) == if v.table in Tables(t) then 1 else 0
  {
    if Deep(t.left) {
      PlacesIsTable(t.left, v);
    } else if !t.left.val.TableBase? {
      StackPlaces(t.left, v);
    }
    if !t.right.val.TableBase? {
      StackPlaces(t.right, v);
    }
  }

  /** Every node has as many children as its kind asks for. */
  predicate Shaped(t: Plain) {
    t.Node? ==>
      && (t.val.TableBase? ==> t.left.Nil? && t.right.Nil?)
      && (!t.val.TableBase? && !t.val.TableJoin? ==> t.left.Nil? || t.right.Nil?)
      && Shaped(t.left) && Shaped(t.right)
  }

  lemma OneSided(t: Plain, v: Val)
    requires v.Where?
    ensures Tables(Node((), v, t, Nil)) == Tables(t) && Tables(Node((), v, Nil, t)) == Tables(t)
    ensures Overlaps(Node((), v, t, Nil)) == Overlaps(t) && Overlaps(Node((), v, Nil, t)) == Overlaps(t)
  {
    var none: Plain := Nil;
    assert Tables(none) == {} && !Overlaps(none);
  }

  lemma {:induction false} PlacedKeepsShape(t: Plain, v: Val)
    requires Shaped(t) && v.Where?
    ensures var u := Placed(t, (), v); Shaped(u) && Tables(u) == Tables(t) && (Overlaps(u) <==> Overlaps(t))
  {
    if t.Node? {
      PlacedKeepsShape(t.left, v);
      PlacedKeepsShape(t.right, v);
      OneSided(t.left, v);
      OneSided(t.right, v);
    }
  }

  lemma {:induction false} PlacedKeepsStack(t: Plain, v: Val)
    requires Stacked(t) && v.Where?
    ensures Stacked(Placed(t, (), v)) && Shaped(t)
  {
    if !t.val.TableBase? {
      PlacedKeepsStack(Only(t), v);
    }
  }

  lemma {:induction false} PlacedKeepsDeep(t: Plain, v: Val)
    requires Deep(t) && v.Where?
    ensures Deep(Placed(t, (), v)) && Shaped(t)
  {
    if Deep(t.left) {
      PlacedKeepsDeep(t.left, v);
    } else {
      PlacedKeepsStack(t.left, v);
    }
    PlacedKeepsStack(t.right, v);
  }

  /** Clauses over left-deep joins. */
  predicate DeepUnder(t: Plain) {
    t.Node? && if t.val.Clause? then t.right.Nil? && DeepUnder(t.left) else Deep(t)
  }

  /** The clauses on top change nothing. */
  lemma {:induction false} UnderClauses(t: Plain, v: Val)
    requires DeepUnder(t) && v.Where?
    ensures DeepUnder(Placed(t, (), v)) && Shaped(t)
    ensures !Overlaps(t) && v.table != "" ==> Places(t, v) == if v.table in Tables(t) then 1 else 0
  {
    if t.val.Clause? {
      UnderClauses(t.left, v);
    } else {
      PlacedKeepsDeep(t, v);
      if !Overlaps(t) && v.table != "" {
        PlacesIsTable(t, v);
      }
    }
  }

  /** How many of the predicates that state the condition find their table. */
  function Landing(vs: seq<Val>, tables: set<string>, c: Condition): nat {
    if vs == [] then 0
    else (if ConditionAt(vs[0]) == c && vs[0].Where? && vs[0].table in tables then 1
          else 0) + Landing(vs[1..], tables, c)
  }

  predicate Named(vs: seq<Val>) {
    forall v :: v in vs ==> v.Where? && v.table != ""
  }

  lemma {:induction false} AllPlacedCounts(t: Plain, vs: seq<Val>, c: Condition)
    requires DeepUnder(t) && !Overlaps(t) && Named(vs)
    ensures Count(AllPlaced(t, vs), c) == Count(t, c) + Landing(vs, Tables(t), c)
    decreases |vs|
  {
    if vs != [] {
      UnderClauses(t, vs[0]);
      PlacedKeepsShape(t, vs[0]);
      PlacedCounts(t, vs[0], c);
      AllPlacedCounts(Placed(t, (), vs[0]), vs[1..], c);
    }
  }

  lemma {:induction false} PlacedOneByOne(t: Plain, vs: seq<Val>)
    requires DeepUnder(t) && !Overlaps(t) && Named(vs)
    ensures OnePlaceEach(t, vs)
    decreases |vs|
  {
    if vs != [] {
      UnderClauses(t, vs[0]);
      PlacedKeepsShape(t, vs[0]);
      PlacedOneByOne(Placed(t, (), vs[0]), vs[1..]);
    }
  }

  lemma {:induction false} LandingCounts(vs: seq<Val>, tables: set<string>, c: Condition)
    requires Named(vs)
    ensures Landing(vs, tables, c) <= CountIn(vs, c)
    ensures (forall v :: v in vs ==> v.table in tables) ==> Landing(vs, tables, c) == CountIn(vs, c)
    ensures (exists v :: v in vs && ConditionAt(v) == c && v.table !in tables) ==>
              Landing(vs, tables, c) < CountIn(vs, c)
  {
    if vs != [] {
      CountFirst(vs, c);
      LandingCounts(vs[1..], tables, c);
    }
  }

  // -------------------------------------------------------------------------------------------
  // When every condition is kept
  // -------------------------------------------------------------------------------------------

  /** What stands before the predicates are put back. */
  function Rejoined(t: Plain): Plain {
    Replaced(Bare(t), JoinTree(Joins(Wheres(t))))
  }

  lemma {:induction false} JoinTreeIsDeep(cs: seq<Val>)
    requires AreJoins(cs) && cs != [] && forall v :: v in cs ==> v.table != ""
    ensures Deep(JoinTree(cs))
  {
    var k := |cs| - 1;
    if k > 0 {
      JoinTreeIsDeep(cs[..k]);
    }
  }

  lemma {:induction false} ReplacedShape(t: Plain, joins: Plain)
    requires Query(t) && (joins.Nil? || Deep(joins))
    ensures var u := Replaced(Bare(t), joins);
            && Tables(u) == Tables(joins) && Shaped(u) && (Overlaps(u) <==> Overlaps(joins))
               && (joins.Node? ==> DeepUnder(u))
            && forall c :: c != Nothing ==> Count(u, c) == Count(joins, c)
  {
    if t.val.TableJoin? {
      if joins.Node? {
        PlacedKeepsDeep(joins, Where("", "", "", "", "", "", ""));
      }
    } else {
      FilteredIsQuery(t);
      ReplacedShape(t.left, joins);
    }
  }

  lemma {:induction false} HollowCounts(t: Plain, vs: seq<Val>, c: Condition)
    requires Shaped(t) && Tables(t) == {} && (forall v :: v in vs ==> v.Where?)
    ensures Count(AllPlaced(t, vs), c) == Count(t, c)
    decreases |vs|
  {
    if vs != [] {
      NoTablesNoPlace(t, vs[0]);
      PlacedCounts(t, vs[0], c);
      PlacedKeepsShape(t, vs[0]);
      HollowCounts(Placed(t, (), vs[0]), vs[1..], c);
    }
  }

  lemma {:induction false} NoTablesNoPlace(t: Plain, v: Val)
    requires Tables(t) == {}
    ensures Places(t, v) == 0
  {
    if t.Node? {
      NoTablesNoPlace(t.left, v);
      NoTablesNoPlace(t.right, v);
    }
  }

  /** A FROM tree without ON conditions is a cross product. */
  lemma {:induction false} NoOnIsProduct(t: Plain)
    requires FromTree(t) && !CrossProduct(t)
    ensures exists c :: c != Nothing && Count(t, c) > 0
  {
    var kind := t.val.joinType;
    if kind == "JOININNER" {
      assert ConditionAt(t.val) != Nothing && Count(t, ConditionAt(t.val)) > 0;
    } else {
      var side := if CrossProduct(t.left) then t.right else t.left;
      NoOnIsProduct(side);
      var c :| c != Nothing && Count(side, c) > 0;
      assert Count(t, c) > 0;
    }
  }

  lemma {:induction false} FromIsTree(t: Plain)
    requires Query(t)
    ensures FromTree(From(t)) && From(t).val.TableJoin? && Tables(From(t)) == Tables(t)
  {
    if !t.val.TableJoin? {
      FilteredIsQuery(t);
      FromIsTree(t.left);
    }
  }

  /**
   With joins over distinct tables and named predicates: every condition occurs as often as before
   exactly if none stands in FROM and every predicate's table is among the joined tables.
   */
  lemma CountsKept(t: Plain)
    requires Query(t) && !Overlaps(JoinTree(Joins(Wheres(t)))) && Named(Wheres(t))
    ensures (forall c :: c != Nothing ==> Count(Optimized(t), c) == Count(t, c))
            <==> CrossProduct(From(t))
                 && forall v :: v in Predicates(Wheres(t)) ==>
                      v.Where? && v.table in Tables(JoinTree(Joins(Wheres(t))))
  {
    var ps, tables := Predicates(Wheres(t)), Tables(JoinTree(Joins(Wheres(t))));
    SplitNamed(Wheres(t));
    FromIsTree(t);
    if !CrossProduct(From(t)) {
      NoOnIsProduct(From(t));
      var c :| c != Nothing && Count(From(t), c) > 0;
      CountsOf(t, c);
      LandingCounts(ps, tables, c);
      assert Count(Optimized(t), c) != Count(t, c);
    } else if forall v :: v in ps ==> v.table in tables {
      forall c | c != Nothing ensures Count(Optimized(t), c) == Count(t, c) {
        CountsOf(t, c);
        CrossProductIsPlain(From(t), c);
        LandingCounts(ps, tables, c);
      }
    } else {
      var v :| v in ps && v.table !in tables;
      PredicateCondition(Wheres(t), v);
      CountsOf(t, Check(v));
      LandingCounts(ps, tables, Check(v));
      assert Check(v) != Nothing && Count(Optimized(t), Check(v)) != Count(t, Check(v));
    }
  }

  lemma SplitNamed(vs: seq<Val>)
    requires Named(vs)
    ensures Named(Joins(vs)) && Named(Predicates(vs))
  {
    forall v | v in Joins(vs) || v in Predicates(vs) ensures v in vs {
      SplitIn(vs, v);
    }
  }

  lemma {:induction false} PredicateCondition(vs: seq<Val>, v: Val)
    requires v in Predicates(vs) && v.Where?
    ensures ConditionAt(v) == Check(v)
  {
    if v in Predicates(vs[..|vs| - 1]) {
      PredicateCondition(vs[..|vs| - 1], v);
    }
  }

  lemma CountsOf(t: Plain, c: Condition)
    requires Query(t) && !Overlaps(JoinTree(Joins(Wheres(t)))) && Named(Wheres(t)) && c != Nothing
    ensures Count(Optimized(t), c) + Count(From(t), c) + CountIn(Predicates(Wheres(t)), c)
            == Count(t, c) + Landing(Predicates(Wheres(t)), Tables(JoinTree(Joins(Wheres(t)))), c)
  {
    var vs := Wheres(t);
    var js, ps := Joins(vs), Predicates(vs);
    forall v ensures v in js || v in ps ==> v in vs {
      SplitIn(vs, v);
    }
    WheresCount(t, c);
    SplitCounts(vs, c);
    JoinTreeCounts(js, c);
    if js != [] {
      JoinTreeIsDeep(js);
    }
    ReplacedShape(t, JoinTree(js));
    if js != [] {
      AllPlacedCounts(Rejoined(t), ps, c);
    } else {
      HollowCounts(Rejoined(t), ps, c);
      NoLanding(ps, c);
    }
  }

  lemma {:induction false} NoLanding(vs: seq<Val>, c: Condition)
    ensures Landing(vs, {}, c) == 0
  {
    if vs != [] {
      NoLanding(vs[1..], c);
    }
  }

  /** With joins over distinct tables the pass builds a tree: no predicate node has two parents. */
  lemma DistinctIsPlaceable(t: Plain)
    requires Query(t) && !Overlaps(JoinTree(Joins(Wheres(t)))) && Named(Wheres(t))
    ensures Placeable(t)
  {
    var js, ps := Joins(Wheres(t)), Predicates(Wheres(t));
    SplitNamed(Wheres(t));
    if js != [] {
      JoinTreeIsDeep(js);
    }
    ReplacedShape(t, JoinTree(js));
    if js != [] {
      PlacedOneByOne(Rejoined(t), ps);
    } else {
      HollowPlaces(Rejoined(t), ps);
    }
  }

  lemma {:induction false} HollowPlaces(t: Plain, vs: seq<Val>)
    requires Shaped(t) && Tables(t) == {} && Named(vs)
    ensures OnePlaceEach(t, vs)
    decreases |vs|
  {
    if vs != [] {
      NoTablesNoPlace(t, vs[0]);
      PlacedKeepsShape(t, vs[0]);
      HollowPlaces(Placed(t, (), vs[0]), vs[1..]);
    }
  }

  // -------------------------------------------------------------------------------------------
  // When the joins read what is below them
  // -------------------------------------------------------------------------------------------

  /** Each condition after the first adds one new table, and its other column is of an old table or of the new one. */
  predicate Chained(cs: seq<Val>)
    requires AreJoins(cs)
  {
    cs != [] &&
    var c, before := cs[|cs| - 1], cs[..|cs| - 1];
    && c.table != ""
    && if |cs| == 1 then c.table != c.table2
       else
         && Chained(before)
         && if c.table2 in Covered(before) then c.table !in Covered(before)
            else c.table in Covered(before) || c.table == c.table2
  }

  lemma {:induction false} LinkedIsChained(cs: seq<Val>)
    requires AreJoins(cs) && Linked(cs)
    ensures Chained(cs)
  {
    if |cs| > 1 {
      LinkedIsChained(cs[..|cs| - 1]);
    }
  }

  /** The joins built are over distinct tables and read tables below them exactly when the conditions are chained. */
  lemma {:induction false} JoinTreeReadable(cs: seq<Val>)
    requires AreJoins(cs) && cs != []
    ensures Readable(JoinTree(cs)) <==> Chained(cs)
    ensures Chained(cs) ==> Tables(JoinTree(cs)) == Covered(cs)
  {
    var k := |cs| - 1;
    if k > 0 {
      JoinTreeReadable(cs[..k]);
      JoinTreeTables(cs[..k], cs[k].table);
      JoinTreeTables(cs[..k], cs[k].table2);
      var left, t, u := JoinTree(cs[..k]), cs[k].table, cs[k].table2;
      assert Tables(Leaf(t)) == {t} && Tables(Leaf(u)) == {u};
      if Readable(left) {
        TablesNamed(left);
      }
      assert Readable(JoinTree(cs)) <==>
        Readable(left) && t != "" && if u in Tables(left) then t !in Tables(left) else t in Tables(left) || t == u;
    } else {
      assert Covered(cs) == Covered(cs[..0]) + {cs[0].table, cs[0].table2};
    }
  }

  /** What a caller can check: chained joins over all tables, and predicates that look at one table each. */
  predicate Sound(t: Plain) {
    && Chained(Joins(Wheres(t))) && Covered(Joins(Wheres(t))) == Tables(t)
    && forall v :: v in Predicates(Wheres(t)) ==> OneTable(v, Tables(t))
  }

  lemma LinkingIsSound(t: Plain)
    requires Linking(t)
    ensures Sound(t)
  {
    LinkedIsChained(Joins(Wheres(t)));
  }

  // -------------------------------------------------------------------------------------------
  // The meaning is kept
  // -------------------------------------------------------------------------------------------

  lemma {:induction false} StackReadable(t: Plain, v: Val)
    requires Stacked(t) && Readable(t) && v.Where? && v.table != "" && TablesAt(v) == {v.table}
    ensures Readable(Placed(t, (), v)) && Tables(Placed(t, (), v)) == Tables(t)
    ensures IsTableOf(t, v) ==> Tables(t) == {v.table}
  {
    if !t.val.TableBase? {
      StackReadable(Only(t), v);
    }
  }

  lemma {:induction false} PlacedReadable(t: Plain, v: Val)
    requires DeepUnder(t) || Stacked(t)
    requires Readable(t) && v.Where? && v.table != "" && TablesAt(v) == {v.table}
    ensures Readable(Placed(t, (), v)) && Tables(Placed(t, (), v)) == Tables(t)
  {
    if Stacked(t) {
      StackReadable(t, v);
    } else if t.val.Clause? {
      PlacedReadable(t.left, v);
    } else {
      StackReadable(t.right, v);
      if Stacked(t.left) {
        StackReadable(t.left, v);
      } else {
        assert Deep(t.left);
        PlacedReadable(t.left, v);
      }
    }
  }

  lemma {:induction false} AllPlacedReadable(t: Plain, vs: seq<Val>)
    requires DeepUnder(t) && Readable(t)
    requires forall v :: v in vs ==> v.Where? && v.table != "" && TablesAt(v) == {v.table}
    ensures Readable(AllPlaced(t, vs)) && Tables(AllPlaced(t, vs)) == Tables(t)
    decreases |vs|
  {
    if vs != [] {
      PlacedReadable(t, vs[0]);
      UnderClauses(t, vs[0]);
      AllPlacedReadable(Placed(t, (), vs[0]), vs[1..]);
    }
  }

  lemma {:induction false} ReadableApart(t: Plain)
    requires t.Node? ==> Readable(t)
    ensures !Overlaps(t)
  {
    if t.Node? && !t.val.TableBase? {
      ReadableApart(t.left);
      ReadableApart(t.right);
    }
  }

  lemma OverlapUnreadable(t: Plain)
    requires Overlaps(t)
    ensures !Readable(t)
  {
    if Readable(t) {
      ReadableApart(t);
    }
  }

  lemma {:induction false} ReplacedReadable(t: Plain, joins: Plain)
    requires Query(t) && Readable(joins)
    ensures Readable(Replaced(Bare(t), joins)) && Tables(Replaced(Bare(t), joins)) == Tables(joins)
  {
    if !t.val.TableJoin? {
      FilteredIsQuery(t);
      ReplacedReadable(t.left, joins);
    }
  }

  /** All conditions are about tables of the query, the ON conditions about tables they join. */
  predicate FromTables(t: Plain) {
    Readable(From(t)) && forall v :: v in Wheres(t) ==> TablesAt(v) <= Tables(t)
  }

  lemma QueryReadable(t: Plain)
    requires Query(t) && FromTables(t)
    ensures Readable(t) && Named(Wheres(t)) && "" !in Tables(t)
  {
    QueryIsReadable(t);
    TablesNamed(t);
    forall v | v in Wheres(t) ensures v.Where? && v.table != "" {
      WheresAreWheres(t);
      assert v.Where? && v.table in TablesAt(v);
    }
  }

  /** The optimized query reads what is below and has the conditions of the WHERE clause, but none from FROM. */
  lemma SoundOptimized(t: Plain)
    requires Query(t) && FromTables(t) && Sound(t)
    ensures Readable(t) && Readable(Optimized(t)) && Tables(Optimized(t)) == Tables(t)
    ensures forall c :: c != Nothing ==>
      && Count(t, c) == Count(Optimized(t), c) + Count(From(t), c)
      && Count(Optimized(t), c) == CountIn(Joins(Wheres(t)), c) + CountIn(Predicates(Wheres(t)), c)
  {
    var vs := Wheres(t);
    var js, ps := Joins(vs), Predicates(vs);
    QueryReadable(t);
    SplitNamed(vs);
    JoinTreeReadable(js);
    ReadableApart(JoinTree(js));
    ReplacedReadable(t, JoinTree(js));
    JoinTreeIsDeep(js);
    ReplacedShape(t, JoinTree(js));
    AllPlacedReadable(Rejoined(t), ps);
    forall c | c != Nothing
      ensures Count(t, c) == Count(Optimized(t), c) + Count(From(t), c)
      ensures Count(Optimized(t), c) == CountIn(js, c) + CountIn(ps, c)
    {
      CountsOf(t, c);
      LandingCounts(ps, Tables(JoinTree(js)), c);
      WheresCount(t, c);
      SplitCounts(vs, c);
    }
  }

  /** Columns that the conditions connect have equal values in a row that meets them. */
  lemma SpreadEqual(db: Database, cs: seq<Val>, r: Row, x: Name, y: Name)
    requires AreJoins(cs) && (forall v :: v in cs ==> Test(db, ConditionAt(v), r)) && y in Spread(cs, {x})
    ensures Value(db, r, y) == Value(db, r, x)
  {
    var same := iset n: Name | Value(db, r, n) == Value(db, r, x);
    forall v | v in cs ensures Left(v) in same <==> Right(v) in same {
      assert ConditionAt(v) == Equal({Left(v), Right(v)});
      assert Left(v) in ConditionAt(v).ends && Right(v) in ConditionAt(v).ends;
    }
    SpreadForced(cs, {x}, same);
  }

  /** So the ON conditions that follow from them hold. */
  lemma {:induction false} ImpliedHolds(db: Database, f: Plain, cs: seq<Val>, r: Row, c: Condition)
    requires AreJoins(cs) && OnImplied(f, cs) && FromTree(f) && Count(f, c) > 0
    requires forall v :: v in cs ==> Test(db, ConditionAt(v), r)
    ensures Test(db, c, r)
  {
    if ConditionAt(f.val) == c {
      if c != Nothing {
        SpreadEqual(db, cs, r, (f.val.leftTable, f.val.leftColumn), (f.val.rightTable, f.val.rightColumn));
      }
    } else if Count(f.left, c) > 0 {
      ImpliedHolds(db, f.left, cs, r, c);
    } else {
      ImpliedHolds(db, f.right, cs, r, c);
    }
  }

  lemma MeaningKept(db: Database, t: Plain, r: Row)
    requires Query(t) && FromTables(t) && Sound(t) && OnImplied(From(t), Joins(Wheres(t)))
    ensures Result(db, t, r) <==> Result(db, Optimized(t), r)
  {
    SoundOptimized(t);
    FromIsTree(t);
    ResultIsConjunction(db, t, r);
    ResultIsConjunction(db, Optimized(t), r);
    NothingHolds(db, t, r);
    NothingHolds(db, Optimized(t), r);
    if forall c :: c != Nothing && Count(Optimized(t), c) > 0 ==> Test(db, c, r) {
      forall c | c != Nothing && Count(t, c) > 0 ensures Test(db, c, r) {
        DroppedOn(db, t, r, c);
      }
    }
  }

  /** A row that meets the conditions kept meets those that are dropped with the joins in FROM. */
  lemma DroppedOn(db: Database, t: Plain, r: Row, c: Condition)
    requires Query(t) && FromTables(t) && Sound(t) && OnImplied(From(t), Joins(Wheres(t)))
    requires forall c :: c != Nothing && Count(Optimized(t), c) > 0 ==> Test(db, c, r)
    requires c != Nothing && Count(t, c) > 0
    ensures Test(db, c, r)
  {
    if Count(Optimized(t), c) == 0 {
      SoundOptimized(t);
      FromIsTree(t);
      forall v | v in Joins(Wheres(t)) ensures Test(db, ConditionAt(v), r) {
        InIsCounted(Joins(Wheres(t)), v);
      }
      ImpliedHolds(db, From(t), Joins(Wheres(t)), r, c);
    }
  }

  lemma {:induction false} CountedIn(vs: seq<Val>, c: Condition) returns (v: Val)
    requires CountIn(vs, c) > 0
    ensures v in vs && ConditionAt(v) == c
  {
    var k := |vs| - 1;
    if ConditionAt(vs[k]) == c {
      v := vs[k];
    } else {
      v := CountedIn(vs[..k], c);
    }
  }

  lemma {:induction false} InIsCounted(vs: seq<Val>, v: Val)
    requires v in vs
    ensures CountIn(vs, ConditionAt(v)) > 0
  {
    var k := |vs| - 1;
    if vs[k] != v {
      InIsCounted(vs[..k], v);
    }
  }

  lemma NothingHolds(db: Database, t: Plain, r: Row)
    ensures (forall c :: Count(t, c) > 0 ==> Test(db, c, r)) <==> forall c :: c != Nothing && Count(t, c) > 0 ==>
              Test(db, c, r)
  {
  }

  // -------------------------------------------------------------------------------------------
  // Otherwise it is lost
  // -------------------------------------------------------------------------------------------

  lemma {:induction false} KeysAreTables(db: Database, t: Plain, r: Row)
    requires Shaped(t) && Result(db, t, r)
    ensures r.Keys == Tables(t)
  {
    match t.val {
      case TableBase(_, _) =>
      case TableJoin(_, _, _, _, _) =>
        var p, q :| Result(db, t.left, p) && Result(db, t.right, q) && p.Keys !! q.Keys && r == p + q;
        KeysAreTables(db, t.left, p);
        KeysAreTables(db, t.right, q);
      case _ =>
        KeysAreTables(db, Only(t), r);
    }
  }

  /** Somewhere in the tree no row comes through: a table on both sides of a join, or a condition that never holds. */
  ghost predicate Blocked(db: Database, t: Plain) {
    t.Node? &&
    (|| (t.val.TableJoin? && !(Tables(t.left) !! Tables(t.right)))
     || (forall r: Row :: r.Keys == Tables(t) ==> !Test(db, ConditionAt(t.val), r))
     || Blocked(db, t.left) || Blocked(db, t.right))
  }

  lemma {:induction false} BlockedIsEmpty(db: Database, t: Plain, r: Row)
    requires Shaped(t) && Blocked(db, t)
    ensures !Result(db, t, r)
  {
    if Result(db, t, r) {
      KeysAreTables(db, t, r);
      if t.val.TableJoin? {
        var p, q :| Result(db, t.left, p) && Result(db, t.right, q) && p.Keys !! q.Keys && r == p + q;
        KeysAreTables(db, t.left, p);
        KeysAreTables(db, t.right, q);
        if Blocked(db, t.left) { BlockedIsEmpty(db, t.left, p); }
        if Blocked(db, t.right) { BlockedIsEmpty(db, t.right, q); }
      } else if !t.val.TableBase? {
        if Blocked(db, Only(t)) { BlockedIsEmpty(db, Only(t), r); }
      }
    }
  }

  lemma {:induction false} OverlapBlocks(db: Database, t: Plain)
    requires Overlaps(t)
    ensures Blocked(db, t)
  {
    if Overlaps(t.left) { OverlapBlocks(db, t.left); }
    if Overlaps(t.right) { OverlapBlocks(db, t.right); }
  }

  lemma {:induction false} StaysBlocked(db: Database, t: Plain, v: Val)
    requires Shaped(t) && v.Where? && Blocked(db, t)
    ensures Blocked(db, Placed(t, (), v))
  {
    PlacedKeepsShape(t, v);
    PlacedKeepsShape(t.left, v);
    PlacedKeepsShape(t.right, v);
    OneSided(t.left, v);
    OneSided(t.right, v);
    if Blocked(db, t.left) { StaysBlocked(db, t.left, v); }
    if Blocked(db, t.right) { StaysBlocked(db, t.right, v); }
  }

  lemma {:induction false} AllStayBlocked(db: Database, t: Plain, vs: seq<Val>)
    requires Shaped(t) && (forall v :: v in vs ==> v.Where?)
    ensures Shaped(AllPlaced(t, vs)) && Tables(AllPlaced(t, vs)) == Tables(t)
    ensures Blocked(db, t) ==> Blocked(db, AllPlaced(t, vs))
    decreases |vs|
  {
    if vs != [] {
      PlacedKeepsShape(t, vs[0]);
      if Blocked(db, t) {
        StaysBlocked(db, t, vs[0]);
      }
      AllStayBlocked(db, Placed(t, (), vs[0]), vs[1..]);
    }
  }

  lemma {:induction false} BlockedBelow(db: Database, t: Plain, joins: Plain)
    requires Query(t) && Blocked(db, joins)
    ensures Blocked(db, Replaced(Bare(t), joins))
  {
    if !t.val.TableJoin? {
      FilteredIsQuery(t);
      BlockedBelow(db, t.left, joins);
    }
  }

  /**
   Two rows per table.  One cell, in a first row, differs from all others; one condition fails whenever
   its second table's row is the first.
   */
  ghost function Odd(cell: (string, string), v: Val): Database {
    Database(imap name: string | |name| >= 0 :: 2,
             imap k: (string, string, nat) | |k.0| >= 0 :: if (k.0, k.1) == cell && k.2 == 0 then "odd" else "",
             iset p: (Val, nat, nat) | !(p.0 == v && p.2 == 0) && p.1 >= 0)
  }

  /** The row of second rows in table x and first rows elsewhere. */
  function RowWith(tables: set<string>, x: string): (r: Row)
    ensures r.Keys == tables && forall name :: name in tables ==> r[name] == if name == x then 1 else 0
  {
    map name | name in tables :: if name == x then 1 else 0
  }

  /** The original query has that row. */
  lemma OddRow(t: Plain, cell: (string, string), v: Val, x: string)
    requires Query(t) && FromTables(t) && x in Tables(t) && (cell.0 == x || cell.0 !in Tables(t))
    requires v.Where? ==> Second(v) == x
    ensures Result(Odd(cell, v), t, RowWith(Tables(t), x))
  {
    var db, r := Odd(cell, v), RowWith(Tables(t), x);
    QueryReadable(t);
    ResultIsConjunction(db, t, r);
    forall c | Count(t, c) > 0 ensures Test(db, c, r) {
      if c.Equal? {
        EndsBelow(t, c);
        forall e | e in c.ends ensures Value(db, r, e) == "" {
          assert e.0 in Tables(t);
        }
      }
    }
  }

  lemma {:induction false} EndsBelow(t: Plain, c: Condition)
    requires Readable(t) && Count(t, c) > 0 && c.Equal?
    ensures forall e :: e in c.ends ==> e.0 in Tables(t)
  {
    if ConditionAt(t.val) == c {
      assert forall e :: e in c.ends ==> e.0 in TablesAt(t.val);
    } else if t.left.Node? && Count(t.left, c) > 0 {
      EndsBelow(t.left, c);
    } else if t.right.Node? && Count(t.right, c) > 0 {
      EndsBelow(t.right, c);
    }
  }

  /** Joins that are not chained: a table on both sides, or a condition on a table that is not there yet. */
  lemma {:induction false} UnchainedBlocks(cs: seq<Val>) returns (cell: (string, string))
    requires AreJoins(cs) && cs != [] && !Chained(cs) && forall v :: v in cs ==> v.table != ""
    ensures cell.0 in Covered(cs)
    ensures forall v :: Blocked(Odd(cell, v), JoinTree(cs))
  {
    var k := |cs| - 1;
    var c := cs[k];
    cell := (c.table, c.column);
    assert Tables(Leaf(c.table)) == {c.table} && Tables(Leaf(c.table2)) == {c.table2};
    if k > 0 {
      var left := JoinTree(cs[..k]);
      if !Chained(cs[..k]) {
        cell := UnchainedBlocks(cs[..k]);
      } else {
        JoinTreeReadable(cs[..k]);
        JoinTreeTables(cs[..k], c.table2);
        if c.table2 !in Tables(left) {
          forall v ensures Blocked(Odd(cell, v), JoinTree(cs)) {
            BlindJoin(left, c, v);
          }
        }
      }
    }
  }

  lemma BlindJoin(left: Plain, c: Val, v: Val)
    requires IsJoinCondition(c) && c.table !in Tables(left) && c.table != c.table2
    ensures Blocked(Odd((c.table, c.column), v),
                    Node((), Inner(c.table, c.column, c.table2, c.column2), left, Leaf(c.table2)))
  {
    var db := Odd((c.table, c.column), v);
    var t := Node((), Inner(c.table, c.column, c.table2, c.column2), left, Leaf(c.table2));
    assert Tables(t) == Tables(left) + {c.table2};
    forall r: Row | r.Keys == Tables(t) ensures !Test(db, ConditionAt(t.val), r) {
      var x, y := (c.table, c.column), (c.table2, c.column2);
      assert ConditionAt(t.val) == Equal({x, y}) && x in {x, y} && y in {x, y};
      assert Value(db, r, x) == "odd" && Value(db, r, y) == "";
    }
  }

  /** A predicate on two tables is put over the first and never sees the second. */
  lemma {:induction false} StackBlocks(t: Plain, v: Val)
    requires Stacked(t) && !t.val.TableBase? && TwoTables(v) && v.table in Tables(t)
    ensures Blocked(Odd(("", ""), v), Placed(t, (), v))
  {
    assert Tables(t) == Tables(Only(t));
    if Only(t).val.TableBase? {
      BlindPredicate(Only(t), v);
    } else {
      StackBlocks(Only(t), v);
    }
  }

  predicate TwoTables(v: Val) {
    v.Where? && !IsJoinCondition(v) && v.table2 != "" && v.table2 != v.table && v.table != ""
  }

  lemma BlindPredicate(t: Plain, v: Val)
    requires TwoTables(v) && Tables(t) == {v.table}
    ensures Blocked(Odd(("", ""), v), Node((), v, t, Nil)) && Blocked(Odd(("", ""), v), Node((), v, Nil, t))
  {
    assert Tables(Node((), v, t, Nil)) == {v.table} && Tables(Node((), v, Nil, t)) == {v.table};
  }

  lemma {:induction false} PlacedBlocks(t: Plain, v: Val)
    requires DeepUnder(t) && TwoTables(v) && v.table in Tables(t)
    ensures Blocked(Odd(("", ""), v), Placed(t, (), v))
  {
    if t.val.Clause? {
      PlacedBlocks(t.left, v);
    } else if IsTableOf(t.left, v) {
      assert Deep(t) && !Deep(t.left);
      BlindPredicate(t.left, v);
    } else if IsTableOf(t.right, v) {
      BlindPredicate(t.right, v);
    } else if v.table in Tables(t.right) {
      StackBlocks(t.right, v);
    } else if Deep(t.left) {
      PlacedBlocks(t.left, v);
    } else {
      StackBlocks(t.left, v);
    }
  }

  lemma {:induction false} AllPlacedBlocks(t: Plain, vs: seq<Val>, v: Val)
    requires DeepUnder(t) && (forall w :: w in vs ==> w.Where?) && v in vs && TwoTables(v) && v.table in Tables(t)
    ensures Blocked(Odd(("", ""), v), AllPlaced(t, vs))
    decreases |vs|
  {
    UnderClauses(t, vs[0]);
    PlacedKeepsShape(t, vs[0]);
    if vs[0] == v {
      PlacedBlocks(t, v);
      AllStayBlocked(Odd(("", ""), v), Placed(t, (), v), vs[1..]);
    } else {
      AllPlacedBlocks(Placed(t, (), vs[0]), vs[1..], v);
    }
  }

  /** A query the condition rejects loses rows on some database. */
  lemma MeaningLost(t: Plain) returns (db: Database, r: Row)
    requires Query(t) && FromTables(t) && !Sound(t)
    ensures Result(db, t, r) && !Result(db, Optimized(t), r)
  {
    var vs := Wheres(t);
    var js, ps := Joins(vs), Predicates(vs);
    QueryReadable(t);
    forall v ensures v in js || v in ps ==> v in vs {
      SplitIn(vs, v);
    }
    CoveredIsFrom(js, Tables(t));
    if js != [] && !Chained(js) {
      db, r := UnchainedLoses(t);
    } else if js == [] || Covered(js) != Tables(t) {
      db, r := UncoveredLoses(t);
    } else {
      var v :| v in ps && !OneTable(v, Tables(t));
      db, r := TwoTablesLoses(t, v);
    }
  }

  lemma {:induction false} CoveredIsFrom(cs: seq<Val>, tables: set<string>)
    requires AreJoins(cs) && forall v :: v in cs ==> TablesAt(v) <= tables
    ensures Covered(cs) <= tables
  {
    if cs != [] {
      CoveredIsFrom(cs[..|cs| - 1], tables);
      assert TablesAt(cs[|cs| - 1]) == {cs[|cs| - 1].table, cs[|cs| - 1].table2};
    }
  }

  lemma UnchainedLoses(t: Plain) returns (db: Database, r: Row)
    requires Query(t) && FromTables(t) && Joins(Wheres(t)) != [] && !Chained(Joins(Wheres(t)))
    requires Named(Wheres(t)) && Covered(Joins(Wheres(t))) <= Tables(t)
    requires forall v :: v in Joins(Wheres(t)) || v in Predicates(Wheres(t)) ==> v in Wheres(t)
    ensures Result(db, t, r) && !Result(db, Optimized(t), r)
  {
    var js := Joins(Wheres(t));
    var cell := UnchainedBlocks(js);
    db, r := Odd(cell, Clause("")), RowWith(Tables(t), cell.0);
    OddRow(t, cell, Clause(""), cell.0);
    JoinTreeIsDeep(js);
    ReplacedShape(t, JoinTree(js));
    BlockedBelow(db, t, JoinTree(js));
    AllStayBlocked(db, Rejoined(t), Predicates(Wheres(t)));
    BlockedIsEmpty(db, Optimized(t), r);
  }

  lemma UncoveredLoses(t: Plain) returns (db: Database, r: Row)
    requires Query(t) && FromTables(t) && Named(Wheres(t))
    requires Joins(Wheres(t)) == [] || (Chained(Joins(Wheres(t))) && Covered(Joins(Wheres(t))) != Tables(t))
    requires forall v :: v in Joins(Wheres(t)) || v in Predicates(Wheres(t)) ==> v in Wheres(t)
    ensures Result(db, t, r) && !Result(db, Optimized(t), r)
  {
    var js := Joins(Wheres(t));
    var x := ATable(t);
    db, r := Odd(("", ""), Clause("")), RowWith(Tables(t), x);
    QueryReadable(t);
    OddRow(t, ("", ""), Clause(""), x);
    if js != [] {
      JoinTreeReadable(js);
      JoinTreeIsDeep(js);
    }
    ReplacedShape(t, JoinTree(js));
    AllStayBlocked(db, Rejoined(t), Predicates(Wheres(t)));
    if Result(db, Optimized(t), r) {
      KeysAreTables(db, Optimized(t), r);
    }
  }

  lemma {:induction false} ATable(t: Plain) returns (x: string)
    requires Query(t) || FromTree(t)
    ensures x in Tables(t)
  {
    if t.val.TableBase? {
      x := t.val.tableName;
    } else if t.val.TableJoin? {
      x := ATable(t.left);
    } else {
      FilteredIsQuery(t);
      x := ATable(t.left);
    }
  }

  lemma TwoTablesLoses(t: Plain, v: Val) returns (db: Database, r: Row)
    requires Query(t) && FromTables(t) && Named(Wheres(t)) && Chained(Joins(Wheres(t)))
             && Covered(Joins(Wheres(t))) == Tables(t)
    requires v in Predicates(Wheres(t)) && !OneTable(v, Tables(t))
    requires forall w :: w in Joins(Wheres(t)) || w in Predicates(Wheres(t)) ==> w in Wheres(t)
    ensures Result(db, t, r) && !Result(db, Optimized(t), r)
  {
    var js := Joins(Wheres(t));
    PredicateIsCheck(Wheres(t), v);
    assert TablesAt(v) <= Tables(t) && TwoTables(v);
    db, r := Odd(("", ""), v), RowWith(Tables(t), v.table2);
    QueryReadable(t);
    OddRow(t, ("", ""), v, v.table2);
    JoinTreeReadable(js);
    JoinTreeIsDeep(js);
    ReplacedShape(t, JoinTree(js));
    AllPlacedBlocks(Rejoined(t), Predicates(Wheres(t)), v);
    AllStayBlocked(db, Rejoined(t), Predicates(Wheres(t)));
    BlockedIsEmpty(db, Optimized(t), r);
  }

  lemma {:induction false} PredicateIsCheck(vs: seq<Val>, v: Val)
    requires v in Predicates(vs)
    ensures !IsJoinCondition(v)
  {
    if v in Predicates(vs[..|vs| - 1]) {
      PredicateIsCheck(vs[..|vs| - 1], v);
    }
  }

  /** One row per table; the columns of a group have one value, all others another. */
  ghost function Grouped(group: set<Name>): Database {
    Database(imap name: string | |name| >= 0 :: 1,
             imap k: (string, string, nat) | |k.0| >= 0 :: if (k.0, k.1) in group then "in" else "out",
             iset p: (Val, nat, nat) | p.1 >= 0)
  }

  lemma GroupedValue(group: set<Name>, r: Row, n: Name)
    ensures Value(Grouped(group), r, n) == if n in group then "in" else "out"
  {
  }

  lemma GroupedEqual(group: set<Name>, r: Row, x: Name, y: Name)
    ensures Test(Grouped(group), Equal({x, y}), r) <==> (x in group <==> y in group)
  {
    GroupedValue(group, r, x);
    GroupedValue(group, r, y);
    assert x in {x, y} && y in {x, y};
  }

  /** An ON condition that does not follow from the WHERE clause. */
  lemma {:induction false} NotImplied(f: Plain, cs: seq<Val>) returns (x: Name, y: Name)
    requires AreJoins(cs) && FromTree(f) && !OnImplied(f, cs)
    ensures y !in Spread(cs, {x}) && Count(f, Equal({x, y})) > 0
  {
    x, y := (f.val.leftTable, f.val.leftColumn), (f.val.rightTable, f.val.rightColumn);
    if !OnImplied(f.left, cs) {
      x, y := NotImplied(f.left, cs);
    } else if !OnImplied(f.right, cs) {
      x, y := NotImplied(f.right, cs);
    }
  }

  /** Such a condition is dropped, and rows come through that it would have stopped. */
  lemma OnLost(t: Plain) returns (db: Database, r: Row)
    requires Query(t) && FromTables(t) && Sound(t) && !OnImplied(From(t), Joins(Wheres(t)))
    ensures !Result(db, t, r) && Result(db, Optimized(t), r)
  {
    var js := Joins(Wheres(t));
    FromIsTree(t);
    var x, y := NotImplied(From(t), js);
    var group := Spread(js, {x});
    db, r := Grouped(group), map name | name in Tables(t) :: 0;
    SoundOptimized(t);
    SpreadCloses(js, {x});
    assert !Result(db, t, r) by {
      ResultIsConjunction(db, t, r);
      GroupedEqual(group, r, x, y);
      assert Count(t, Equal({x, y})) > 0;
    }
    forall c | Count(Optimized(t), c) > 0 ensures Test(db, c, r) {
      GroupedMeets(t, group, r, c);
    }
    ResultIsConjunction(db, Optimized(t), r);
  }

  lemma GroupedMeets(t: Plain, group: set<Name>, r: Row, c: Condition)
    requires Query(t) && FromTables(t) && Sound(t) && Count(Optimized(t), c) > 0
    requires forall v :: v in Joins(Wheres(t)) ==> (Left(v) in group <==> Right(v) in group)
    ensures Test(Grouped(group), c, r)
  {
    if c != Nothing {
      SoundOptimized(t);
      if CountIn(Joins(Wheres(t)), c) > 0 {
        var v := CountedIn(Joins(Wheres(t)), c);
        assert c == Equal({Left(v), Right(v)});
        GroupedEqual(group, r, Left(v), Right(v));
      } else {
        var v := CountedIn(Predicates(Wheres(t)), c);
        SplitIn(Wheres(t), v);
        WheresAreWheres(t);
        PredicateCondition(Wheres(t), v);
      }
    }
  }

  /**
   The optimizer keeps the meaning of a query, whatever the data, exactly if the query is sound and
   the ON conditions in FROM, which it drops, follow from the equalities in WHERE.
   */
  lemma MeaningKeptIffSound(t: Plain)
    requires Query(t) && FromTables(t)
    ensures Sound(t) && OnImplied(From(t), Joins(Wheres(t)))
            <==> forall db, r :: Result(db, t, r) <==> Result(db, Optimized(t), r)
  {
    if Sound(t) && !OnImplied(From(t), Joins(Wheres(t))) {
      var db, r := OnLost(t);
    } else if Sound(t) {
      forall db, r ensures Result(db, t, r) <==> Result(db, Optimized(t), r) {
        MeaningKept(db, t, r);
      }
    } else {
      var db, r := MeaningLost(t);
    }
  }

  lemma {:induction false} ProductReadable(t: Plain, cs: seq<Val>)
    requires CrossProduct(t) && AreJoins(cs)
    ensures Readable(t) && OnImplied(t, cs)
  {
    if t.val.TableJoin? {
      ProductReadable(t.left, cs);
      ProductReadable(t.right, cs);
    }
  }

  lemma LinkingFromTables(t: Plain)
    requires Linking(t)
    ensures FromTables(t) && OnImplied(From(t), Joins(Wheres(t)))
  {
    ProductReadable(From(t), Joins(Wheres(t)));
    forall v | v in Wheres(t) ensures TablesAt(v) <= Tables(t) {
      var i :| 0 <= i < |Wheres(t)| && Wheres(t)[i] == v;
      if IsJoinCondition(v) {
        JoinIsCovered(Wheres(t), i);
      } else {
        OtherIsPredicate(Wheres(t), i);
      }
    }
  }

  /** On a linking query the optimizer's result denotes the same relation. */
  lemma OptimizedMeaning(db: Database, t: Plain, r: Row)
    requires Linking(t)
    ensures Result(db, t, r) <==> Result(db, Optimized(t), r)
  {
    LinkingIsSound(t);
    LinkingFromTables(t);
    MeaningKept(db, t, r);
  }

  // -------------------------------------------------------------------------------------------
  // A composite key
  // -------------------------------------------------------------------------------------------

  /** SELECT * FROM A, B WHERE A.x = B.x AND A.y = B.y. */
  function CompositeKey(): Plain {
    var product := Node((), TableJoin("CROSSPRODUCT", "", "", "", ""), Leaf("A"), Leaf("B"));
    Node((), Where("A", "x", "EQUAL", "B", "x", "", ""),
         Node((), Where("A", "y", "EQUAL", "B", "y", "", ""), product, Nil), Nil)
  }

  lemma CompositeConditions()
    ensures var t := CompositeKey();
            && Query(t) && Tables(t) == {"A", "B"} && Predicates(Wheres(t)) == []
            && Wheres(t) == Joins(Wheres(t))
               == [Where("A", "x", "EQUAL", "B", "x", "", ""), Where("A", "y", "EQUAL", "B", "y", "", "")]
  {
    var t := CompositeKey();
    var x, y := Where("A", "x", "EQUAL", "B", "x", "", ""), Where("A", "y", "EQUAL", "B", "y", "", "");
    assert CrossProduct(t.left.left) && Tables(t.left.left) == {"A", "B"};
    assert Wheres(t.left.left) == [];
    assert Wheres(t.left) == [y] && Wheres(t) == [x] + [y] == [x, y];
    assert [x, y][..1] == [x] && [x][..0] == [];
    assert Joins([x]) == [x] && Predicates([x]) == [];
  }

  lemma LeafTables(table: string)
    ensures Tables(Leaf(table)) == {table} && HasTable(Leaf(table), table)
  {
  }

  lemma TwiceJoined(x: Val, y: Val)
    requires IsJoinCondition(x) && IsJoinCondition(y) && x.table == y.table && x.table2 == y.table2
    ensures Overlaps(JoinTree([x, y]))
  {
    var left := JoinTree([x]);
    assert [x, y][..1] == [x];
    assert left.left == Leaf(x.table) && left.right == Leaf(x.table2);
    LeafTables(x.table);
    LeafTables(x.table2);
    assert HasTable(left.right, y.table2);
    assert x.table in Tables(left);
  }

  /**
   Table A enters the joins twice.  `Result` keeps one row number for a table and lets a join combine rows of
   disjoint tables only, so here the optimized query has no rows at all; the query itself can have some.
   */
  lemma CompositeKeyLost() returns (db: Database, r: Row)
    ensures var t := CompositeKey();
            && Query(t) && FromTables(t) && Overlaps(Optimized(t))
            && Result(db, t, r) && forall s :: !Result(db, Optimized(t), s)
  {
    var t := CompositeKey();
    CompositeConditions();
    var js := Joins(Wheres(t));
    TwiceJoined(js[0], js[1]);
    JoinTreeReadable(js);
    OverlapUnreadable(JoinTree(js));
    db, r := MeaningLost(t);
    JoinTreeIsDeep(js);
    ReplacedShape(t, JoinTree(js));
    OverlapBlocks(db, Optimized(t));
    forall s ensures !Result(db, Optimized(t), s) {
      BlockedIsEmpty(db, Optimized(t), s);
    }
  }

  // -------------------------------------------------------------------------------------------
  // An explicit join
  // -------------------------------------------------------------------------------------------

  /** SELECT ... FROM a JOIN b ON a.x = b.y. */
  function ExplicitJoin(clause: string): Plain {
    Node((), Clause(clause), Node((), Inner("a", "x", "b", "y"), Leaf("a"), Leaf("b")), Nil)
  }

  /** Without an equality in WHERE no join is built, and both tables go with the old one. */
  lemma ExplicitJoinLost(clause: string) returns (db: Database, r: Row)
    ensures var t := ExplicitJoin(clause);
            && Query(t) && FromTables(t) && Readable(t) && Tables(t) == {"a", "b"}
            && Count(t, Equal({("a", "x"), ("b", "y")})) == 1
            && Optimized(t) == Node((), Clause(clause), Nil, Nil)
            && Result(db, t, r) && forall s :: !Result(db, Optimized(t), s)
  {
    var t := ExplicitJoin(clause);
    var join := t.left;
    LeafTables("a");
    LeafTables("b");
    assert Tables(join) == {"a", "b"};
    assert FromTree(join) && Readable(join);
    FromIsBare(join);
    assert Wheres(t) == [] && Bare(t) == t;
    var equality := Equal({("a", "x"), ("b", "y")});
    assert Count(Leaf("a"), equality) == 0 && Count(Leaf("b"), equality) == 0;
    assert Joins([]) == [] && Predicates([]) == [] && JoinTree([]) == Nil;
    assert Replaced(join, JoinTree([])) == Nil;
    assert Optimized(t) == Replaced(t, JoinTree([]));
    db, r := MeaningLost(t);
  }
}
