/**
 The plans the late materialization passes get through.

 The passes keep, per base table, either a position list or the values of one column.  What they
 have of a table at an operator is a `Status`, which depends on the plan alone; a plan passes if
 no operator needs a table of which nothing usable is left.
 */
module LatePlans {
  import opened Relational
  import opened PlanTree
  import opened Rewiring

  /** A base table is named after one column, so its parent may read no second one. */
  predicate OneColumnAt(t: Tree) {
    forall c, d, k :: c in t.inputs && d in t.inputs && 0 <= k < |t.subs| && t.subs[k].IsScan() ==>
      c.table in Tables(t.subs[k]) && d.table in Tables(t.subs[k]) ==> c == d
  }

  predicate OneColumnPerScan(t: Tree) {
    OneColumnAt(t) && forall k :: 0 <= k < |t.subs| ==> OneColumnPerScan(t.subs[k])
  }

  // -------------------------------------------------------------------------------------------
  // What a pass has of a table
  // -------------------------------------------------------------------------------------------

  /**
   What an operator finds of a table: the scan itself, a position list, the values of the one column
   needed, nothing, or a node that is taken for a position list and outputs no column of the table.
   */
  datatype Status = OnScan | Listed | Valued | Gone | Useless
  {
    predicate Lost() { Gone? || Useless? }
    predicate Entered() { Listed? || Useless? }
  }

  predicate Only(needed: set<Column>, c: Column) {
    forall d :: d in needed && d.table == c.table ==> d == c
  }

  /** The columns that travel as values. */
  predicate UsesData(hybrid: bool, needed: set<Column>, c: Column) {
    c.table == AGG || c.table == MAP || (hybrid && Only(needed, c))
  }

  /** The one column of the table needed above `sub` has values in `sub`, where the table's status is `s`. */
  predicate Handed(sub: Tree, s: Status, above: set<Column>, table: string) {
    exists c :: c in above && c.table == table && Only(above, c) && (s.Valued? || c in sub.inputs)
  }

  /** The status of a table above `sub`, from its status in `sub`; a Map passes on position lists and no values. */
  function StatusAbove(hybrid: bool, sub: Tree, s: Status, above: set<Column>, table: string): Status {
    if !IsPositional(sub.op) then
      if s.Entered() then s else Gone
    else if hybrid && Handed(sub, s, above, table) then Valued
    else match s
      case OnScan => if Core(sub) then Listed else Useless
      case Listed => Listed
      case _ => Useless
  }

  /** The status of a table in `t`, given the columns needed in `t` or above. */
  function StatusOf(hybrid: bool, t: Tree, needed: set<Column>, table: string): Status {
    if t.subs == [] then OnScan else
      var sub := t.subs[Side(t, table)];
      if sub.IsScan() then OnScan
      else StatusAbove(hybrid, sub, StatusOf(hybrid, sub, needed + ColumnSet(sub.inputs), table), needed, table)
  }

  function Statuses(hybrid: bool, t: Tree, needed: set<Column>): (st: map<string, Status>)
    ensures st.Keys == Tables(t) && forall table :: table in st ==> st[table] == StatusOf(hybrid, t, needed, table)
  {
    map table | table in Tables(t) :: StatusOf(hybrid, t, needed, table)
  }

  // -------------------------------------------------------------------------------------------
  // What the passes get through
  // -------------------------------------------------------------------------------------------

  /** No base column the operator reads is lost. */
  predicate InputsKept(hybrid: bool, t: Tree, needed: set<Column>) {
    forall c :: c in t.inputs && c.table in Tables(t) ==> !StatusOf(hybrid, t, needed, c.table).Lost()
  }

  /** No list is to be composed with one that the child has not got. */
  predicate Composes(hybrid: bool, sub: Tree, needed: set<Column>) {
    IsPositional(sub.op) ==> forall c :: c in needed && c.table in Tables(sub) ==>
      !StatusOf(hybrid, sub, needed + ColumnSet(sub.inputs), c.table).Useless?
  }

  /** The pass meets no failing lookup, given the columns needed above the node. */
  predicate Passes(hybrid: bool, t: Tree, above: set<Column>) {
    && OneColumnAt(t) && InputsKept(hybrid, t, above + ColumnSet(t.inputs))
    && forall k :: 0 <= k < |t.subs| ==>
         && Passes(hybrid, t.subs[k], above + ColumnSet(t.inputs))
         && Composes(hybrid, t.subs[k], above + ColumnSet(t.inputs))
  }

  // -------------------------------------------------------------------------------------------
  // The condition a caller can check
  // -------------------------------------------------------------------------------------------

  predicate MentionsTables(cols: set<Column>, t: Tree) {
    exists c :: c in cols && c.table in Tables(t)
  }

  /** The node stands on a Sort, Group or Map that has only a bare scan below it. */
  predicate OverBare(t: Tree) {
    t.subs != [] && Bare(t.subs[0]) && !t.subs[0].IsScan()
  }

  /** No operator over a bare chain reads a base column: nobody below it outputs the table's positions. */
  predicate NoBareReads(t: Tree) {
    && (OverBare(t) ==> !MentionsTables(ColumnSet(t.inputs), t))
    && forall k :: 0 <= k < |t.subs| ==> NoBareReads(t.subs[k])
  }

  /** Filters and Joins of `u` read `c` or are given its values by the one below, with no other column of the table. */
  predicate Gives(u: Tree, above: set<Column>, c: Column) {
    c in u.inputs
    || (u.subs != [] && !u.subs[Side(u, c.table)].IsScan()
        && Only(above + ColumnSet(u.inputs), c)
        && Gives(u.subs[Side(u, c.table)], above + ColumnSet(u.inputs), c))
  }

  /** Of a table that only a Sort or Group stands on, the column needed above must be the one it reads. */
  predicate ScanKept(t: Tree, above: set<Column>) {
    !Core(t) && |t.subs| == 1 && t.subs[0].IsScan() ==>
      forall c :: c in above && c.table in Tables(t) ==> IsPositional(t.op) && c in t.inputs
  }

  /** At a Map no column needed above may travel as values: they are dropped. */
  predicate MapKept(t: Tree, above: set<Column>) {
    t.op.MapOp? && |t.subs| == 1 && !t.subs[0].IsScan() ==>
      forall c :: c in above && c.table in Tables(t) && Only(above + ColumnSet(t.inputs), c) ==>
        !Gives(t.subs[0], above + ColumnSet(t.inputs), c)
  }

  /** Nothing that is needed gets lost on the way up in the hybrid pass. */
  predicate HybridKeeps(t: Tree, above: set<Column>) {
    && ScanKept(t, above) && MapKept(t, above)
    && forall k :: 0 <= k < |t.subs| ==> HybridKeeps(t.subs[k], above + ColumnSet(t.inputs))
  }

  /** What each of the two passes demands besides one column per scan. */
  predicate Keeps(hybrid: bool, t: Tree) {
    if hybrid then HybridKeeps(t, {}) else NoBareReads(t)
  }

  // -------------------------------------------------------------------------------------------
  // Passing means that nothing needed is lost
  // -------------------------------------------------------------------------------------------

  /** No column needed above `t` is lost on the way through `t`. */
  predicate KeptPast(hybrid: bool, t: Tree, above: set<Column>) {
    forall c :: c in above && c.table in Tables(t) ==>
      !StatusAbove(hybrid, t, StatusOf(hybrid, t, above + ColumnSet(t.inputs), c.table), above, c.table).Lost()
  }

  /** Nor on the way up to `t`. */
  predicate Kept(hybrid: bool, t: Tree, above: set<Column>) {
    && (!t.IsScan() ==> KeptPast(hybrid, t, above))
    && forall k :: 0 <= k < |t.subs| ==> Kept(hybrid, t.subs[k], above + ColumnSet(t.inputs))
  }

  /** Side and status of a table, from the child that has it. */
  lemma StatusStep(hybrid: bool, t: Tree, k: nat, needed: set<Column>, table: string)
    requires WellFormed(t) && k < |t.subs| && table in Tables(t.subs[k])
    ensures Side(t, table) == k && table in Tables(t)
    ensures var sub := t.subs[k];
            StatusOf(hybrid, t, needed, table) == if sub.IsScan() then OnScan else
              StatusAbove(hybrid, sub, StatusOf(hybrid, sub, needed + ColumnSet(sub.inputs), table), needed, table)
  {
    SubsWellFormed(t, k);
    TableOfChild(t, k, table);
  }

  lemma SideHas(t: Tree, table: string)
    requires WellFormed(t) && t.subs != [] && table in Tables(t)
    ensures table in Tables(t.subs[Side(t, table)])
  {
    SubsWellFormed(t, 0);
  }

  /** Only one column of the table can be handed on. */
  lemma HandedIff(sub: Tree, s: Status, above: set<Column>, c: Column)
    requires c in above
    ensures Handed(sub, s, above, c.table) <==> Only(above, c) && (s.Valued? || c in sub.inputs)
  {
  }

  /** What is lost in `t` and not read by it is lost above. */
  lemma LossRises(hybrid: bool, t: Tree, above: set<Column>, c: Column)
    requires InputsKept(hybrid, t, above + ColumnSet(t.inputs)) && c in above && c.table in Tables(t)
    requires StatusOf(hybrid, t, above + ColumnSet(t.inputs), c.table).Lost()
    ensures StatusAbove(hybrid, t, StatusOf(hybrid, t, above + ColumnSet(t.inputs), c.table), above, c.table).Lost()
  {
    HandedIff(t, StatusOf(hybrid, t, above + ColumnSet(t.inputs), c.table), above, c);
  }

  lemma {:induction false} PassesKeeps(hybrid: bool, t: Tree, above: set<Column>)
    requires WellFormed(t) && Passes(hybrid, t, above) && (!t.IsScan() ==> KeptPast(hybrid, t, above))
    ensures Kept(hybrid, t, above) && OneColumnPerScan(t)
  {
    var needed := above + ColumnSet(t.inputs);
    forall k | 0 <= k < |t.subs| ensures Kept(hybrid, t.subs[k], needed) && OneColumnPerScan(t.subs[k]) {
      var sub := t.subs[k];
      SubsWellFormed(t, k);
      forall c | !sub.IsScan() && c in needed && c.table in Tables(sub)
        ensures !StatusAbove(hybrid, sub, StatusOf(hybrid, sub, needed + ColumnSet(sub.inputs), c.table), needed,
                             c.table).Lost()
      {
        StatusStep(hybrid, t, k, needed, c.table);
        if StatusOf(hybrid, t, needed, c.table).Lost() {
          assert c !in t.inputs;
          LossRises(hybrid, t, above, c);
        }
      }
      PassesKeeps(hybrid, sub, needed);
    }
  }

  lemma {:induction false} KeptPasses(hybrid: bool, t: Tree, above: set<Column>)
    requires WellFormed(t) && OneColumnPerScan(t) && Kept(hybrid, t, above)
    ensures Passes(hybrid, t, above)
  {
    var needed := above + ColumnSet(t.inputs);
    forall c | c in t.inputs && c.table in Tables(t)
      ensures !StatusOf(hybrid, t, needed, c.table).Lost()
    {
      if t.subs != [] {
        var k := Side(t, c.table);
        SideHas(t, c.table);
        StatusStep(hybrid, t, k, needed, c.table);
        assert c in needed && Kept(hybrid, t.subs[k], needed);
      }
    }
    forall k | 0 <= k < |t.subs| ensures Passes(hybrid, t.subs[k], needed) && Composes(hybrid, t.subs[k], needed) {
      SubsWellFormed(t, k);
      KeptPasses(hybrid, t.subs[k], needed);
      KeptComposes(hybrid, t.subs[k], needed);
    }
  }

  lemma KeptComposes(hybrid: bool, t: Tree, above: set<Column>)
    requires WellFormed(t) && Kept(hybrid, t, above) && Passes(hybrid, t, above)
    ensures Composes(hybrid, t, above)
  {
    forall c | IsPositional(t.op) && c in above && c.table in Tables(t)
      ensures !StatusOf(hybrid, t, above + ColumnSet(t.inputs), c.table).Useless?
    {
      if StatusOf(hybrid, t, above + ColumnSet(t.inputs), c.table).Useless? {
        LossRises(hybrid, t, above, c);
      }
    }
  }

  // -------------------------------------------------------------------------------------------
  // Where something is lost
  // -------------------------------------------------------------------------------------------

  /** A table travels as values only if one column of it is needed. */
  lemma ValuedIsOnly(hybrid: bool, t: Tree, needed: set<Column>, c: Column)
    requires StatusOf(hybrid, t, needed, c.table).Valued?
    ensures hybrid && (c in needed ==> Only(needed, c))
  {
  }

  /** In a core a needed table has a list, or values of the one column needed, or its scan. */
  lemma {:induction false} CoreStatus(hybrid: bool, t: Tree, needed: set<Column>, c: Column)
    requires Core(t) && c.table in Tables(t) && (hybrid ==> c in needed)
    ensures !StatusOf(hybrid, t, needed, c.table).Lost()
  {
    if t.subs != [] {
      var k := Side(t, c.table);
      var sub := t.subs[k];
      var below := needed + ColumnSet(sub.inputs);
      SideHas(t, c.table);
      SubsWellFormed(t, k);
      StatusStep(hybrid, t, k, needed, c.table);
      CoreStatus(hybrid, sub, below, c);
      if StatusOf(hybrid, sub, below, c.table).Valued? {
        ValuedIsOnly(hybrid, sub, below, c);
        HandedIff(sub, StatusOf(hybrid, sub, below, c.table), needed, c);
      }
    }
  }

  lemma {:induction false} CoreKept(hybrid: bool, t: Tree, above: set<Column>)
    requires Core(t)
    ensures Kept(hybrid, t, above)
  {
    CoreKinds(t);
    forall c | !t.IsScan() && c in above && c.table in Tables(t)
      ensures !StatusAbove(hybrid, t, StatusOf(hybrid, t, above + ColumnSet(t.inputs), c.table), above, c.table).Lost()
    {
      CoreStatus(hybrid, t, above + ColumnSet(t.inputs), c);
    }
    forall k | 0 <= k < |t.subs| ensures Kept(hybrid, t.subs[k], above + ColumnSet(t.inputs)) {
      SubsWellFormed(t, k);
      CoreKept(hybrid, t.subs[k], above + ColumnSet(t.inputs));
    }
  }

  lemma {:induction false} CoreHybridKeeps(t: Tree, above: set<Column>)
    requires Core(t)
    ensures HybridKeeps(t, above)
  {
    CoreKinds(t);
    forall k | 0 <= k < |t.subs| ensures HybridKeeps(t.subs[k], above + ColumnSet(t.inputs)) {
      SubsWellFormed(t, k);
      CoreHybridKeeps(t.subs[k], above + ColumnSet(t.inputs));
    }
  }

  lemma {:induction false} CoreNoBareReads(t: Tree)
    requires Core(t)
    ensures NoBareReads(t) && !OverBare(t)
  {
    forall k | 0 <= k < |t.subs| ensures NoBareReads(t.subs[k]) {
      SubsWellFormed(t, k);
      CoreNoBareReads(t.subs[k]);
    }
  }

  /** Above a Filter or Join a column needed alone of its table travels as values exactly if `Gives` says so. */
  lemma {:induction false} GivesIsValued(u: Tree, above: set<Column>, c: Column)
    requires Core(u) && !u.IsScan() && c in above && c.table in Tables(u)
    ensures StatusAbove(true, u, StatusOf(true, u, above + ColumnSet(u.inputs), c.table), above, c.table)
            == if Only(above, c) && Gives(u, above, c) then Valued else Listed
  {
    var needed := above + ColumnSet(u.inputs);
    var sub := u.subs[Side(u, c.table)];
    CoreKinds(u);
    SideHas(u, c.table);
    SubsWellFormed(u, Side(u, c.table));
    var s := StatusOf(true, u, needed, c.table);
    HandedIff(u, s, above, c);
    if !sub.IsScan() {
      GivesIsValued(sub, needed, c);
    }
    assert s.Valued? <==> !sub.IsScan() && Only(needed, c) && Gives(sub, needed, c);
    CoreStatus(true, u, needed, c);
  }

  /** `ScanKept` and `MapKept` say where a column can get lost. */
  lemma HybridPast(t: Tree, above: set<Column>)
    requires Chain(t) && !Core(t) && OneColumnAt(t) && Kept(true, t.subs[0], above + ColumnSet(t.inputs))
    ensures KeptPast(true, t, above) <==> ScanKept(t, above) && MapKept(t, above)
  {
    var sub, needed := t.subs[0], above + ColumnSet(t.inputs);
    SubsWellFormed(t, 0);
    assert Tables(t) == Tables(sub);
    forall c | c in above && c.table in Tables(t)
      ensures !StatusAbove(true, t, StatusOf(true, t, needed, c.table), above, c.table).Lost()
              <==> if sub.IsScan() then IsPositional(t.op) && Only(above, c) && c in t.inputs
                   else t.op.MapOp? ==> !(Only(needed, c) && Gives(sub, needed, c))
    {
      HybridLoss(t, above, c);
    }
  }

  /** A column needed above a Sort, Group or Map is lost there over a scan, or at a Map because it travels as values. */
  lemma HybridLoss(t: Tree, above: set<Column>, c: Column)
    requires Chain(t) && !Core(t) && c in above && c.table in Tables(t)
    requires Kept(true, t.subs[0], above + ColumnSet(t.inputs))
    ensures var sub, needed := t.subs[0], above + ColumnSet(t.inputs);
            !StatusAbove(true, t, StatusOf(true, t, needed, c.table), above, c.table).Lost()
            <==> if sub.IsScan() then IsPositional(t.op) && Only(above, c) && c in t.inputs
                 else t.op.MapOp? ==> !(Only(needed, c) && Gives(sub, needed, c))
  {
    var sub, needed := t.subs[0], above + ColumnSet(t.inputs);
    SubsWellFormed(t, 0);
    StatusStep(true, t, 0, needed, c.table);
    HandedIff(t, StatusOf(true, t, needed, c.table), above, c);
    if !sub.IsScan() {
      HandedIff(sub, StatusOf(true, sub, needed + ColumnSet(sub.inputs), c.table), needed, c);
      if t.op.MapOp? {
        GivesIsValued(sub, needed, c);
      } else {
        ChainKinds(t);
        assert !StatusOf(true, t, needed, c.table).Lost();
      }
    }
  }

  /** In the hybrid pass nothing is lost exactly if nothing is lost where it can get lost. */
  lemma {:induction false} HybridKeptIff(t: Tree, above: set<Column>)
    requires WellFormed(t) && (Core(t) || Chain(t) || above == {}) && OneColumnPerScan(t)
    ensures Kept(true, t, above) <==> HybridKeeps(t, above)
  {
    if Core(t) {
      CoreKept(true, t, above);
      CoreHybridKeeps(t, above);
    } else {
      assert |t.subs| == 1;
      SubsWellFormed(t, 0);
      HybridKeptIff(t.subs[0], above + ColumnSet(t.inputs));
      OneChild(t, above);
      if Kept(true, t.subs[0], above + ColumnSet(t.inputs)) {
        HybridKeptStep(t, above);
      }
    }
  }

  lemma OneChild(t: Tree, above: set<Column>)
    requires |t.subs| == 1 && !t.IsScan()
    ensures Kept(true, t, above) <==> KeptPast(true, t, above) && Kept(true, t.subs[0], above + ColumnSet(t.inputs))
    ensures HybridKeeps(t, above)
            <==> ScanKept(t, above) && MapKept(t, above) && HybridKeeps(t.subs[0], above + ColumnSet(t.inputs))
  {
  }

  lemma HybridKeptStep(t: Tree, above: set<Column>)
    requires WellFormed(t) && (Chain(t) || above == {}) && OneColumnAt(t) && !Core(t) && |t.subs| == 1
    requires Kept(true, t.subs[0], above + ColumnSet(t.inputs))
    ensures KeptPast(true, t, above) <==> ScanKept(t, above) && MapKept(t, above)
  {
    if Chain(t) {
      HybridPast(t, above);
    }
  }

  /** Without the data path a table is lost exactly above a bare chain. */
  lemma {:induction false} BareIsLost(t: Tree, above: set<Column>, table: string)
    requires WellFormed(t) && !t.IsScan() && table in Tables(t)
    ensures StatusAbove(false, t, StatusOf(false, t, above + ColumnSet(t.inputs), table), above, table).Lost()
            <==> Bare(t)
  {
    var k, needed := Side(t, table), above + ColumnSet(t.inputs);
    SubsWellFormed(t, 0);
    SideHas(t, table);
    StatusStep(false, t, k, needed, table);
    SubsWellFormed(t, k);
    if Core(t) {
      CoreKinds(t);
      CoreStatus(false, t, needed, Column(table, ""));
    } else if !t.subs[0].IsScan() {
      BareIsLost(t.subs[0], needed, table);
    }
  }

  lemma {:induction false} NoBareReadsIffKept(t: Tree, above: set<Column>)
    requires WellFormed(t)
    ensures Kept(false, t, above) <==> NoBareReads(t) && (Bare(t) && !t.IsScan() ==> !MentionsTables(above, t))
  {
    var needed := above + ColumnSet(t.inputs);
    if !t.IsScan() {
      forall c | c in above && c.table in Tables(t)
        ensures StatusAbove(false, t, StatusOf(false, t, needed, c.table), above, c.table).Lost() <==> Bare(t)
      {
        BareIsLost(t, above, c.table);
      }
      assert KeptPast(false, t, above) <==> (Bare(t) ==> !MentionsTables(above, t));
    }
    if Core(t) {
      CoreKept(false, t, above);
      CoreNoBareReads(t);
    } else {
      SubsWellFormed(t, 0);
      NoBareReadsIffKept(t.subs[0], needed);
      assert MentionsTables(needed, t) <==> MentionsTables(above, t) || MentionsTables(ColumnSet(t.inputs), t);
    }
  }

  /** The passes get through exactly the plans that meet a condition a caller can check. */
  lemma PassesWhen(hybrid: bool, t: Tree)
    requires WellFormed(t)
    ensures Passes(hybrid, t, {}) <==> OneColumnPerScan(t) && Keeps(hybrid, t)
  {
    if Passes(hybrid, t, {}) {
      PassesKeeps(hybrid, t, {});
    }
    if OneColumnPerScan(t) && Kept(hybrid, t, {}) {
      KeptPasses(hybrid, t, {});
    }
    if hybrid {
      if OneColumnPerScan(t) { HybridKeptIff(t, {}); }
    } else {
      NoBareReadsIffKept(t, {});
    }
  }

  // -------------------------------------------------------------------------------------------
  // Plans that one of the passes, or both, cannot handle
  // -------------------------------------------------------------------------------------------

  function ScanOf(scan: PlanNode, a: Column): Tree {
    Tree(scan, FetchOp(true), [a], [a], [])
  }

  lemma ScanShape(scan: PlanNode, a: Column)
    requires a.table !in {"", MAP, AGG}
    ensures var t := ScanOf(scan, a);
            Core(t) && Bare(t) && Tables(t) == {a.table} && OneColumnPerScan(t) && NoBareReads(t)
  {
  }

  function Ordered(sort: PlanNode, scan: PlanNode, a: Column): Tree {
    Tree(sort, SortOp([true]), [a], [Column("SORT", a.name)], [ScanOf(scan, a)])
  }

  lemma OrderedShape(sort: PlanNode, scan: PlanNode, a: Column)
    requires a.table !in {"", MAP, AGG, "SORT"}
    ensures var t := Ordered(sort, scan, a);
            && Chain(t) && !Core(t) && Bare(t) && Tables(t) == {a.table} && OneColumnPerScan(t) && NoBareReads(t)
            && HybridKeeps(t, {a})
  {
    ScanShape(scan, a);
    CoreHybridKeeps(ScanOf(scan, a), {a} + ColumnSet([a]));
    assert Ordered(sort, scan, a).subs == [ScanOf(scan, a)];
  }

  /** A Select over a bare chain that reads a column of the table. */
  lemma ReadsBare(t: Tree, a: Column)
    requires t.op.SelectOp? && |t.subs| == 1 && Chain(t.subs[0]) && Bare(t.subs[0]) && !t.subs[0].IsScan()
    requires t.inputs == [a] && a.table in Tables(t.subs[0]) && OneColumnPerScan(t.subs[0])
    ensures ChainPlan(t) && OneColumnPerScan(t) && !NoBareReads(t)
  {
    assert OverBare(t) && a in ColumnSet(t.inputs) && a.table in Tables(t);
  }

  /** The hybrid pass gets through if it gets the column past the chain. */
  lemma SelectBare(t: Tree, a: Column)
    requires t.op.SelectOp? && |t.subs| == 1 && Chain(t.subs[0]) && Bare(t.subs[0]) && !t.subs[0].IsScan()
    requires t.inputs == [a] && a.table in Tables(t.subs[0])
    requires OneColumnPerScan(t.subs[0]) && HybridKeeps(t.subs[0], {a})
    ensures ChainPlan(t) && OneColumnPerScan(t) && !NoBareReads(t) && !Passes(false, t, {}) && Passes(true, t, {})
  {
    ReadsBare(t, a);
    OneChild(t, {});
    assert {} + ColumnSet(t.inputs) == {a};
    PassesWhen(false, t);
    PassesWhen(true, t);
  }

  /** SELECT a FROM T ORDER BY a. */
  function OrderedScan(select: PlanNode, sort: PlanNode, scan: PlanNode, a: Column): Tree {
    Tree(select, SelectOp, [a], [a], [Ordered(sort, scan, a)])
  }

  /**
   Sorting a bare table: the first late pass looks for the table's positions in the Sort and finds none,
   the hybrid one moves the column's values.
   */
  lemma OrderedScanFails(select: PlanNode, sort: PlanNode, scan: PlanNode, a: Column)
    requires a.table !in {"", MAP, AGG, "SORT"}
    ensures var t := OrderedScan(select, sort, scan, a);
            ChainPlan(t) && OneColumnPerScan(t) && !NoBareReads(t) && !Passes(false, t, {}) && Passes(true, t, {})
  {
    var t := OrderedScan(select, sort, scan, a);
    OrderedShape(sort, scan, a);
    SelectBare(t, a);
  }

  function Compared(filter: PlanNode, scan: PlanNode, a: Column, b: Column): Tree {
    Tree(filter, FilterOp(EQ, []), [a, b], [a], [ScanOf(scan, a)])
  }

  lemma ComparedShape(filter: PlanNode, scan: PlanNode, a: Column, b: Column)
    requires a.table !in {"", MAP, AGG} && b.table == a.table && a != b
    ensures var t := Compared(filter, scan, a, b);
            Core(t) && !Bare(t) && Tables(t) == {a.table} && !OneColumnAt(t) && NoBareReads(t)
  {
    var t := Compared(filter, scan, a, b);
    ScanShape(scan, a);
    assert t.subs == [ScanOf(scan, a)];
    assert t.inputs[0] == a && t.inputs[1] == b;
  }

  /** SELECT a FROM T WHERE a = b. */
  function ComparedScan(select: PlanNode, filter: PlanNode, scan: PlanNode, a: Column, b: Column): Tree {
    Tree(select, SelectOp, [a], [a], [Compared(filter, scan, a, b)])
  }

  /** A Filter over two columns of one table: one of them is lost. */
  lemma ComparedScanFails(hybrid: bool, select: PlanNode, filter: PlanNode, scan: PlanNode, a: Column, b: Column)
    requires a.table !in {"", MAP, AGG} && b.table == a.table && a != b
    ensures var t := ComparedScan(select, filter, scan, a, b);
            CorePlan(t) && Keeps(hybrid, t) && !OneColumnPerScan(t) && !Passes(hybrid, t, {})
  {
    var t := ComparedScan(select, filter, scan, a, b);
    ComparedShape(filter, scan, a, b);
    assert t.subs == [Compared(filter, scan, a, b)];
    assert CorePlan(t) && !OverBare(t);
    CoreHybridKeeps(t.subs[0], {} + ColumnSet(t.inputs));
    PassesWhen(hybrid, t);
  }

  function JoinedByKey(join: PlanNode, left: PlanNode, right: PlanNode, fk: Column, k: Column): Tree {
    Tree(join, JoinOp(EQ), [fk, k], [fk, k], [ScanOf(left, fk), ScanOf(right, k)])
  }

  function Multiplied(map_: PlanNode, below: Tree, x: Column, y: Column): Tree {
    Tree(map_, MapOp(MUL), [x, y], [Column(MAP, x.name + "*" + y.name)], [below])
  }

  /** The sum of a Map's results for every value of `k`. */
  function SummedBy(group: PlanNode, below: Tree, product: Column, k: Column): Tree {
    Tree(group, GroupOp([true], true), [k, product],
         [Column("GROUP", k.name), Column("GROUP", k.name + "_srt"), Column("GROUP", k.name + "_clus"),
          Column(AGG, "SUM")], [below])
  }

  function SelectSums(select: PlanNode, summed: Tree, k: Column): Tree {
    Tree(select, SelectOp, [k, Column(AGG, "SUM")], [k, Column(AGG, "SUM")], [summed])
  }

  lemma SelectSumsShape(select: PlanNode, summed: Tree, k: Column)
    requires Chain(summed) && k.table in Tables(summed) && Column(AGG, "SUM") in Computed(summed)
    ensures ChainPlan(SelectSums(select, summed, k))
  {
    var t := SelectSums(select, summed, k);
    assert forall c :: c in t.inputs ==> Available(t.subs[0], c);
  }

  /** SELECT d.k, SUM(lo.x * lo.y) FROM lo, d WHERE lo.fk = d.k GROUP BY d.k. */
  function KeySums(select: PlanNode, group: PlanNode, map_: PlanNode, joined: Tree, x: Column, y: Column, k: Column)
    : Tree
  {
    var mapped := Multiplied(map_, joined, x, y);
    SelectSums(select, SummedBy(group, mapped, mapped.outputs[0], k), k)
  }

  /** Above a table that has been moved the first pass meets no difficulty. */
  predicate Lifted(t: Tree) {
    !t.IsScan() && !Bare(t) && OneColumnPerScan(t) && NoBareReads(t)
  }

  lemma AboveLifted(t: Tree)
    requires |t.subs| == 1 && !t.IsScan() && Lifted(t.subs[0])
    ensures Lifted(t) && Tables(t) == Tables(t.subs[0])
  {
  }

  lemma JoinedShape(join: PlanNode, left: PlanNode, right: PlanNode, fk: Column, k: Column)
    requires fk.table != k.table && fk.table !in {"", MAP, AGG} && k.table !in {"", MAP, AGG}
    ensures var t := JoinedByKey(join, left, right, fk, k); Core(t) && Tables(t) == {fk.table, k.table}
  {
    ScanShape(left, fk);
    ScanShape(right, k);
    assert JoinedByKey(join, left, right, fk, k).subs == [ScanOf(left, fk), ScanOf(right, k)];
  }

  /** A Join reads one column of each side. */
  lemma OneOfEach(t: Tree)
    requires |t.subs| == |t.inputs| == 2 && Tables(t.subs[0]) !! Tables(t.subs[1])
    requires t.inputs[0].table in Tables(t.subs[0]) && t.inputs[1].table in Tables(t.subs[1])
    ensures OneColumnAt(t)
  {
    forall c, d, k | c in t.inputs && d in t.inputs && 0 <= k < |t.subs|
      && c.table in Tables(t.subs[k]) && d.table in Tables(t.subs[k])
      ensures c == d
    {
      assert c == t.inputs[k] && d == t.inputs[k];
    }
  }

  lemma JoinLifts(t: Tree)
    requires |t.subs| == 2 && !t.IsScan() && OneColumnAt(t) && NoBareReads(t)
    requires OneColumnPerScan(t.subs[0]) && OneColumnPerScan(t.subs[1])
    ensures Lifted(t)
  {
    forall k | 0 <= k < |t.subs| ensures OneColumnPerScan(t.subs[k]) {
      assert k == 0 || k == 1;
    }
  }

  lemma MultipliedShape(map_: PlanNode, below: Tree, x: Column, y: Column)
    requires Core(below) && x.table in Tables(below) && y.table in Tables(below)
    ensures var t := Multiplied(map_, below, x, y); Chain(t) && !Core(t) && Computed(t) == {t.outputs[0]}
  {
    TableNames(below);
    assert Multiplied(map_, below, x, y).subs == [below];
  }

  lemma SummedShape(group: PlanNode, below: Tree, product: Column, k: Column)
    requires Chain(below) && Computed(below) == {product} && product.table == MAP
    requires k.table in Tables(below) && "GROUP" !in Tables(below)
    ensures var t := SummedBy(group, below, product, k);
            Chain(t) && !Core(t) && Column(AGG, "SUM") in Computed(t) && Tables(t) == Tables(below)
  {
    var t := SummedBy(group, below, product, k);
    TableNames(below);
    assert t.subs == [below];
    assert forall c :: c in t.inputs ==> c == k || c == product;
  }

  /** What a Map two operators below drops is dropped. */
  lemma DroppedAtMap(t: Tree, u: Tree, mapped: Tree)
    requires t.subs == [u] && u.subs == [mapped]
    requires !MapKept(mapped, {} + ColumnSet(t.inputs) + ColumnSet(u.inputs))
    ensures !HybridKeeps(t, {})
  {
    assert !HybridKeeps(mapped, {} + ColumnSet(t.inputs) + ColumnSet(u.inputs));
    assert u.subs[0] == mapped && !HybridKeeps(u, {} + ColumnSet(t.inputs));
    assert t.subs[0] == u;
  }

  lemma KeyIsDropped(map_: PlanNode, joined: Tree, x: Column, y: Column, k: Column, above: set<Column>)
    requires k in above && Only(above, k) && k.table !in {x.table, y.table}
    requires k in joined.inputs && k.table in Tables(joined) && !joined.IsScan()
    ensures !MapKept(Multiplied(map_, joined, x, y), above)
  {
    var mapped := Multiplied(map_, joined, x, y);
    assert mapped.subs == [joined];
    assert Only(above + ColumnSet(mapped.inputs), k) && Gives(joined, above + ColumnSet(mapped.inputs), k);
  }

  /** Grouping by a column that the operator below the Map reads, the only one of its table. */
  lemma KeySumsOver(select: PlanNode, group: PlanNode, map_: PlanNode, joined: Tree, x: Column, y: Column, k: Column)
    requires Core(joined) && Lifted(joined) && k in joined.inputs && "GROUP" !in Tables(joined)
    requires x.table in Tables(joined) && y.table in Tables(joined) && k.table in Tables(joined) - {x.table, y.table}
    ensures var t := KeySums(select, group, map_, joined, x, y, k); ChainPlan(t) && Lifted(t)
  {
    var mapped := Multiplied(map_, joined, x, y);
    var summed := SummedBy(group, mapped, mapped.outputs[0], k);
    MultipliedShape(map_, joined, x, y);
    AboveLifted(mapped);
    SummedShape(group, mapped, mapped.outputs[0], k);
    AboveLifted(summed);
    SelectSumsShape(select, summed, k);
    AboveLifted(SelectSums(select, summed, k));
  }

  lemma KeySumsDrop(select: PlanNode, group: PlanNode, map_: PlanNode, joined: Tree, x: Column, y: Column, k: Column)
    requires Core(joined) && !joined.IsScan() && k in joined.inputs
    requires k.table in Tables(joined) - {x.table, y.table}
    ensures !HybridKeeps(KeySums(select, group, map_, joined, x, y, k), {})
  {
    var mapped := Multiplied(map_, joined, x, y);
    var product := mapped.outputs[0];
    var summed := SummedBy(group, mapped, product, k);
    var above := {k, Column(AGG, "SUM"), product};
    TableNames(joined);
    KeyIsDropped(map_, joined, x, y, k, above);
    assert {} + ColumnSet([k, Column(AGG, "SUM")]) + ColumnSet([k, product]) == above;
    DroppedAtMap(SelectSums(select, summed, k), summed, mapped);
  }

  /**
   Grouping by a join key above a Map: the values of the key, the only column of its table that is needed,
   are dropped at the Map, and the hybrid pass has kept no position list of the table.
   */
  lemma KeySumsFail(select: PlanNode, group: PlanNode, map_: PlanNode, join: PlanNode, left: PlanNode, right: PlanNode,
                    fk: Column, x: Column, y: Column, k: Column)
    requires fk.table == x.table == y.table != k.table
    requires fk.table !in {"", MAP, AGG, "GROUP"} && k.table !in {"", MAP, AGG, "GROUP"}
    ensures var t := KeySums(select, group, map_, JoinedByKey(join, left, right, fk, k), x, y, k);
            && ChainPlan(t) && OneColumnPerScan(t) && NoBareReads(t)
            && Passes(false, t, {}) && !HybridKeeps(t, {}) && !Passes(true, t, {})
  {
    var joined := JoinedByKey(join, left, right, fk, k);
    JoinedShape(join, left, right, fk, k);
    ScanShape(left, fk);
    ScanShape(right, k);
    OneOfEach(joined);
    CoreNoBareReads(joined);
    JoinLifts(joined);
    assert joined.inputs[1] == k;
    KeySumsOver(select, group, map_, joined, x, y, k);
    KeySumsDrop(select, group, map_, joined, x, y, k);
    PassesWhen(false, KeySums(select, group, map_, joined, x, y, k));
    PassesWhen(true, KeySums(select, group, map_, joined, x, y, k));
  }
}
