/**
 `mergeSortIntoGroupIfSubset`: a Sort on grouping columns is left to the Group below it.
 */
module SortMerge {
  import opened Relational
  import opened PlanTree
  import opened Rewiring

  // -------------------------------------------------------------------------------------------
  // Ordered rows and groups
  // -------------------------------------------------------------------------------------------

  type Record = map<Column, int>

  function Value(r: Record, c: Column): int {
    if c in r then r[c] else 0
  }

  /** `r` may stand before `s` under these columns and directions. */
  predicate Before(cols: seq<Column>, ascending: seq<bool>, r: Record, s: Record) {
    cols == [] || ascending == [] ||
    var x, y := Value(r, cols[0]), Value(s, cols[0]);
    if x == y then Before(cols[1..], ascending[1..], r, s) else (x < y) == ascending[0]
  }

  predicate Ordered(cols: seq<Column>, ascending: seq<bool>, rows: seq<Record>) {
    forall i, j :: 0 <= i < j < |rows| ==> Before(cols, ascending, rows[i], rows[j])
  }

  predicate Agree(cols: seq<Column>, r: Record, s: Record) {
    forall c :: c in cols ==> Value(r, c) == Value(s, c)
  }

  predicate From(rel: seq<Record>, rows: seq<Record>) {
    forall i :: 0 <= i < |rows| ==> rows[i] in rel
  }

  predicate Apart(cols: seq<Column>, rows: seq<Record>) {
    forall i, j :: 0 <= i < j < |rows| ==> !Agree(cols, rows[i], rows[j])
  }

  predicate Represented(cols: seq<Column>, rel: seq<Record>, rows: seq<Record>) {
    forall r :: r in rel ==> exists i :: 0 <= i < |rows| && Agree(cols, r, rows[i])
  }

  /** One row for each group. */
  predicate Groups(cols: seq<Column>, rel: seq<Record>, rows: seq<Record>) {
    From(rel, rows) && Apart(cols, rows) && Represented(cols, rel, rows)
  }

  /** What a Sort over a Group may output. */
  ghost predicate SortedGroups(groupCols: seq<Column>, sortCols: seq<Column>, ascending: seq<bool>, rel: seq<Record>,
                               rows: seq<Record>) {
    && Ordered(sortCols, ascending, rows)
    && exists groups :: Groups(groupCols, rel, groups) && multiset(groups) == multiset(rows)
  }

  // -------------------------------------------------------------------------------------------
  // The merged Group
  // -------------------------------------------------------------------------------------------

  predicate Subset(sortCols: seq<Column>, groupCols: seq<Column>) {
    forall i :: 0 <= i < |sortCols| ==> sortCols[i] in groupCols
  }

  /** The grouping columns that the Sort does not mention, in their order. */
  function Remaining(groupCols: seq<Column>, sortCols: seq<Column>): seq<Column> {
    if groupCols == [] then [] else
      var k := |groupCols| - 1;
      Remaining(groupCols[..k], sortCols) + if groupCols[k] in sortCols then [] else [groupCols[k]]
  }

  function Ascending(n: nat): (r: seq<bool>)
    ensures |r| == n && forall i :: 0 <= i < n ==> r[i]
  {
    seq(n, i => true)
  }

  function MergedCols(groupCols: seq<Column>, sortCols: seq<Column>): seq<Column> {
    sortCols + Remaining(groupCols, sortCols)
  }

  function MergedOrders(groupCols: seq<Column>, sortCols: seq<Column>, ascending: seq<bool>): seq<bool> {
    ascending + Ascending(|Remaining(groupCols, sortCols)|)
  }

  lemma OneMore(cols: seq<Column>, d: Column, c: Column)
    ensures multiset(cols + [d])[c] == multiset(cols)[c] + if c == d then 1 else 0
  {
  }

  lemma {:induction false} RemainingCount(groupCols: seq<Column>, sortCols: seq<Column>, c: Column)
    ensures multiset(Remaining(groupCols, sortCols))[c] == if c in sortCols then 0 else multiset(groupCols)[c]
  {
    if groupCols != [] {
      var k := |groupCols| - 1;
      RemainingCount(groupCols[..k], sortCols, c);
      OneMore(groupCols[..k], groupCols[k], c);
      assert groupCols == groupCols[..k] + [groupCols[k]];
      var before := Remaining(groupCols[..k], sortCols);
      if groupCols[k] in sortCols {
        assert Remaining(groupCols, sortCols) == before;
      } else {
        assert Remaining(groupCols, sortCols) == before + [groupCols[k]];
        OneMore(before, groupCols[k], c);
      }
    }
  }

  /**
   The merged Group groups by the same columns: exactly a permutation if the Sort names each of its
   columns as often as the Group.
   */
  lemma MergedIsPermutation(groupCols: seq<Column>, sortCols: seq<Column>)
    requires Subset(sortCols, groupCols)
    ensures forall c :: c in MergedCols(groupCols, sortCols) <==> c in groupCols
    ensures multiset(MergedCols(groupCols, sortCols)) == multiset(groupCols)
            <==> forall c :: c in sortCols ==> multiset(sortCols)[c] == multiset(groupCols)[c]
  {
    var merged := MergedCols(groupCols, sortCols);
    forall c ensures multiset(merged)[c] == if c in sortCols then multiset(sortCols)[c] else multiset(groupCols)[c] {
      RemainingCount(groupCols, sortCols, c);
      assert multiset(merged) == multiset(sortCols) + multiset(Remaining(groupCols, sortCols));
    }
    forall c ensures c in merged <==> c in groupCols {
      assert c in merged <==> multiset(merged)[c] > 0;
    }
    if multiset(merged) == multiset(groupCols) {
      assert forall c :: c in sortCols ==> multiset(merged)[c] == multiset(sortCols)[c];
    }
  }

  /** The same partition into groups. */
  lemma SamePartition(groupCols: seq<Column>, sortCols: seq<Column>, rel: seq<Record>, rows: seq<Record>)
    requires Subset(sortCols, groupCols)
    ensures Groups(MergedCols(groupCols, sortCols), rel, rows) <==> Groups(groupCols, rel, rows)
  {
    MergedIsPermutation(groupCols, sortCols);
    forall r, s ensures Agree(MergedCols(groupCols, sortCols), r, s) <==> Agree(groupCols, r, s) {}
  }

  /** An order on more columns is an order on the first ones. */
  lemma {:induction false} LongerOrder(cols: seq<Column>, more: seq<Column>, ascending: seq<bool>, orders: seq<bool>,
                                       r: Record, s: Record)
    requires |cols| == |ascending| && Before(cols + more, ascending + orders, r, s)
    ensures Before(cols, ascending, r, s)
  {
    if cols != [] {
      assert (cols + more)[1..] == cols[1..] + more && (ascending + orders)[1..] == ascending[1..] + orders;
      if Value(r, cols[0]) == Value(s, cols[0]) {
        LongerOrder(cols[1..], more, ascending[1..], orders, r, s);
      }
    }
  }

  /** Whatever the merged Group outputs, the Sort over the Group could have output. */
  lemma MergedRefines(groupCols: seq<Column>, sortCols: seq<Column>, ascending: seq<bool>, rel: seq<Record>,
                      rows: seq<Record>)
    requires Subset(sortCols, groupCols) && |sortCols| == |ascending|
    requires Groups(MergedCols(groupCols, sortCols), rel, rows)
    requires Ordered(MergedCols(groupCols, sortCols), MergedOrders(groupCols, sortCols, ascending), rows)
    ensures SortedGroups(groupCols, sortCols, ascending, rel, rows)
  {
    SamePartition(groupCols, sortCols, rel, rows);
    var rest := Remaining(groupCols, sortCols);
    forall i, j | 0 <= i < j < |rows| ensures Before(sortCols, ascending, rows[i], rows[j]) {
      LongerOrder(sortCols, rest, ascending, Ascending(|rest|), rows[i], rows[j]);
    }
  }

  // -------------------------------------------------------------------------------------------
  // The pass as a function
  // -------------------------------------------------------------------------------------------

  /** A unary Sort over a Group whose columns it orders. */
  predicate Merges(t: Tree) {
    && t.op.SortOp? && |t.subs| == 1 && t.subs[0].op.GroupOp?
    && Subset(t.inputs, t.subs[0].inputs)
  }

  function MergedAll(ts: seq<Tree>): (r: seq<Tree>)
    ensures |r| == |ts| && forall i :: 0 <= i < |ts| ==> r[i] == Merged(ts[i])
  {
    if ts == [] then [] else [Merged(ts[0])] + MergedAll(ts[1..])
  }

  function Merged(t: Tree): Tree {
    if Merges(t) then
      var group := t.subs[0];
      Tree(group.node, GroupOp(MergedOrders(group.inputs, t.inputs, t.op.ascending), group.op.hasAgg),
           MergedCols(group.inputs, t.inputs), group.outputs, MergedAll(group.subs))
    else Tree(t.node, t.op, t.inputs, t.outputs, MergedAll(t.subs))
  }

  // -------------------------------------------------------------------------------------------
  // What stays
  // -------------------------------------------------------------------------------------------

  /** All of xs occurs in ys, in this order. */
  predicate Within(xs: seq<Column>, ys: seq<Column>) {
    xs == [] || (ys != [] && var i, k := |xs| - 1, |ys| - 1;
                 (xs[i] == ys[k] && Within(xs[..i], ys[..k])) || Within(xs, ys[..k]))
  }

  /** The Sort's columns with their directions, then the Group's other columns in their order, ascending. */
  predicate SortedFirst(sort: Tree, groupCols: seq<Column>, u: Tree)
    requires sort.op.SortOp? && u.op.GroupOp?
  {
    var n, m := |sort.inputs|, |sort.op.ascending|;
    && sort.inputs <= u.inputs && Within(u.inputs[n..], groupCols)
    && (forall c :: c in u.inputs[n..] ==> c !in sort.inputs)
    && sort.op.ascending <= u.op.sortOrders && |u.op.sortOrders| - m == |u.inputs| - n
    && forall i :: m <= i < |u.op.sortOrders| ==> u.op.sortOrders[i]
  }

  lemma {:induction false} RemainingWithin(groupCols: seq<Column>, sortCols: seq<Column>)
    ensures Within(Remaining(groupCols, sortCols), groupCols)
    ensures forall c :: c in Remaining(groupCols, sortCols) ==> c !in sortCols
  {
    if groupCols != [] {
      var k := |groupCols| - 1;
      var rest := Remaining(groupCols[..k], sortCols);
      RemainingWithin(groupCols[..k], sortCols);
      if groupCols[k] !in sortCols {
        assert (rest + [groupCols[k]])[..|rest|] == rest;
        assert Within(rest + [groupCols[k]], groupCols);
      } else {
        assert Remaining(groupCols, sortCols) == rest && Within(rest, groupCols[..k]);
      }
    }
  }

  /** A Sort over a Group that groups by all its columns is gone; every other node stands where it stood. */
  ghost predicate Keeps(t: Tree, u: Tree)
    decreases t, 1
  {
    if t.op.SortOp? && |t.subs| == 1 && t.subs[0].op.GroupOp? && (forall c :: c in t.inputs ==> c in t.subs[0].inputs)
    then
      var group := t.subs[0];
      && u.op.GroupOp? && u.op.hasAgg == group.op.hasAgg && (forall c :: c in u.inputs <==> c in group.inputs)
      && SortedFirst(t, group.inputs, u) && Stands(group, u)
    else u.op == t.op && u.inputs == t.inputs && Stands(t, u)
  }

  /** The same object with the same outputs, over what is kept of its children. */
  ghost predicate Stands(t: Tree, u: Tree)
    decreases t, 0
  {
    u.node == t.node && u.outputs == t.outputs && |u.subs| == |t.subs|
    && forall i :: 0 <= i < |t.subs| ==> Keeps(t.subs[i], u.subs[i])
  }

  lemma {:induction false} MergedKeeps(t: Tree)
    ensures Keeps(t, Merged(t))
    decreases t, 1
  {
    if Merges(t) {
      var group := t.subs[0];
      BelowKept(group, Merged(t));
      MergedIsPermutation(group.inputs, t.inputs);
      RemainingWithin(group.inputs, t.inputs);
      assert Merged(t).inputs[|t.inputs|..] == Remaining(group.inputs, t.inputs);
    } else {
      BelowKept(t, Merged(t));
    }
  }

  lemma {:induction false} BelowKept(t: Tree, u: Tree)
    requires u.node == t.node && u.outputs == t.outputs && u.subs == MergedAll(t.subs)
    ensures Stands(t, u)
    decreases t, 0
  {
    forall i | 0 <= i < |t.subs| ensures Keeps(t.subs[i], u.subs[i]) {
      MergedKeeps(t.subs[i]);
    }
  }

  lemma {:induction false} CoreStays(t: Tree)
    requires Core(t)
    ensures Merged(t) == t
  {
    forall i | 0 <= i < |t.subs| ensures Merged(t.subs[i]) == t.subs[i] {
      CoreSubs(t, i);
      CoreStays(t.subs[i]);
    }
    CoreKinds(t);
    assert MergedAll(t.subs) == t.subs;
  }

  /** The merged chain reads and offers what the chain read and offered. */
  lemma {:induction false} ChainStays(t: Tree)
    requires Chain(t)
    ensures Chain(Merged(t)) && Tables(Merged(t)) == Tables(t) && Computed(Merged(t)) == Computed(t)
    ensures Core(Merged(t)) ==> Core(t)
  {
    if Core(t) {
      CoreStays(t);
    } else if Merges(t) {
      ChainStays(t.subs[0].subs[0]);
      MergedChain(t);
    } else {
      ChainSubs(t, 0);
      ChainStays(t.subs[0]);
      assert Merged(t).subs == [Merged(t.subs[0])];
      if t.op.MapOp? {
        CoreStays(t.subs[0]);
        assert Merged(t) == t;
      }
    }
  }

  lemma MergedChain(t: Tree)
    requires Chain(t) && !Core(t) && Merges(t) && |t.subs[0].subs| == 1
    requires var b := t.subs[0].subs[0];
             Chain(Merged(b)) && Tables(Merged(b)) == Tables(b) && Computed(Merged(b)) == Computed(b)
    ensures Chain(Merged(t)) && Tables(Merged(t)) == Tables(t) && Computed(Merged(t)) == Computed(t)
    ensures !Core(Merged(t))
  {
    var group, u := t.subs[0], Merged(t);
    SortOverGroup(t);
    MergedIsPermutation(group.inputs, t.inputs);
    assert u.inputs[0] == t.inputs[0] && u.subs == [Merged(group.subs[0])] by {
      assert MergedAll(group.subs)[0] == Merged(group.subs[0]);
    }
    GroupStays(group, u);
  }

  /** The Group below a Sort of a chain. */
  lemma SortOverGroup(t: Tree)
    requires Chain(t) && t.op.SortOp? && |t.subs| == 1 && t.subs[0].op.GroupOp?
    ensures var group := t.subs[0];
            && Chain(group) && |t.inputs| > 0
            && Tables(group) == Tables(t) && Computed(group) == Computed(t)
  {
  }

  /** A Group over an equal chain that reads the same columns. */
  lemma GroupStays(t: Tree, u: Tree)
    requires Chain(t) && t.op.GroupOp? && u.op.GroupOp? && u.op.hasAgg == t.op.hasAgg && u.outputs == t.outputs
    requires |u.inputs| > 0 && (forall c :: c in u.inputs ==> c in t.inputs) && |u.subs| == |t.subs| == 1
    requires Chain(u.subs[0]) && Tables(u.subs[0]) == Tables(t.subs[0]) && Computed(u.subs[0]) == Computed(t.subs[0])
    ensures Chain(u) && !Core(u) && Tables(u) == Tables(t) && Computed(u) == Computed(t)
  {
  }

  /** The plan the materialization passes get is as well-formed as the plan before. */
  lemma StaysWellFormed(t: Tree)
    requires WellFormed(t)
    ensures WellFormed(Merged(t)) && Tables(Merged(t)) == Tables(t)
  {
    if Core(t) {
      CoreStays(t);
    } else if Chain(t) {
      ChainStays(t);
    } else {
      ChainStays(t.subs[0]);
      assert Merged(t).subs == [Merged(t.subs[0])];
      if Core(t.subs[0]) {
        CoreStays(t.subs[0]);
      }
    }
  }

  // -------------------------------------------------------------------------------------------
  // The whole plan
  // -------------------------------------------------------------------------------------------

  /** What the other operators may output for given inputs: any relation. */
  datatype Step = Step(op: Op, inputs: seq<Column>, rels: seq<seq<Record>>, rows: seq<Record>)

  /** `rows` is a legal output of the plan; a Group's is ordered by its columns and directions. */
  ghost predicate Yields(steps: iset<Step>, t: Tree, rows: seq<Record>) {
    if t.op.GroupOp? && |t.subs| == 1 then
      exists rel :: Yields(steps, t.subs[0], rel) && Groups(t.inputs, rel, rows)
        && Ordered(t.inputs, t.op.sortOrders, rows)
    else if t.op.SortOp? && |t.subs| == 1 then
      exists rel :: Yields(steps, t.subs[0], rel) && multiset(rel) == multiset(rows)
        && Ordered(t.inputs, t.op.ascending, rows)
    else
      exists rels :: AllYield(steps, t.subs, rels) && Step(t.op, t.inputs, rels, rows) in steps
  }

  ghost predicate AllYield(steps: iset<Step>, ts: seq<Tree>, rels: seq<seq<Record>>) {
    |rels| == |ts| && forall i :: 0 <= i < |ts| ==> Yields(steps, ts[i], rels[i])
  }

  /** Every Sort names a direction for each of its columns, every Group has one child. */
  predicate Complete(t: Tree) {
    && (t.op.SortOp? ==> |t.inputs| == |t.op.ascending|) && (t.op.GroupOp? ==> |t.subs| == 1)
    && forall i :: 0 <= i < |t.subs| ==> Complete(t.subs[i])
  }

  lemma {:induction false} BeforeTotal(cols: seq<Column>, ascending: seq<bool>, r: Record, s: Record)
    ensures Before(cols, ascending, r, s) || Before(cols, ascending, s, r)
  {
    if cols != [] && ascending != [] {
      BeforeTotal(cols[1..], ascending[1..], r, s);
    }
  }

  lemma {:induction false} BeforeTransitive(cols: seq<Column>, ascending: seq<bool>, r: Record, s: Record, u: Record)
    requires Before(cols, ascending, r, s) && Before(cols, ascending, s, u)
    ensures Before(cols, ascending, r, u)
  {
    if cols != [] && ascending != [] && Value(r, cols[0]) == Value(s, cols[0]) == Value(u, cols[0]) {
      BeforeTransitive(cols[1..], ascending[1..], r, s, u);
    }
  }

  /** Where a row goes among ordered rows. */
  function Inserted(cols: seq<Column>, ascending: seq<bool>, r: Record, rows: seq<Record>): (s: seq<Record>)
    ensures forall x :: x in s <==> x == r || x in rows
    ensures multiset(s) == multiset([r]) + multiset(rows)
  {
    if rows == [] then [r]
    else if Before(cols, ascending, r, rows[0]) then
      assert multiset([r] + rows) == multiset([r]) + multiset(rows);
      [r] + rows
    else
      assert rows == [rows[0]] + rows[1..];
      [rows[0]] + Inserted(cols, ascending, r, rows[1..])
  }

  lemma {:induction false} InsertedOrdered(cols: seq<Column>, ascending: seq<bool>, r: Record, rows: seq<Record>)
    requires Ordered(cols, ascending, rows)
    ensures Ordered(cols, ascending, Inserted(cols, ascending, r, rows))
  {
    if rows != [] {
      if Before(cols, ascending, r, rows[0]) {
        forall i | 0 <= i < |rows| ensures Before(cols, ascending, r, rows[i]) {
          if i > 0 {
            BeforeTransitive(cols, ascending, r, rows[0], rows[i]);
          }
        }
      } else {
        BeforeTotal(cols, ascending, r, rows[0]);
        InsertedOrdered(cols, ascending, r, rows[1..]);
        assert forall x :: x in Inserted(cols, ascending, r, rows[1..]) ==> Before(cols, ascending, rows[0], x);
      }
    }
  }

  lemma {:induction false} InsertedApart(key: seq<Column>, ascending: seq<bool>, r: Record, rows: seq<Record>,
                                         cols: seq<Column>)
    requires Apart(cols, rows) && forall x :: x in rows ==> !Agree(cols, r, x)
    ensures Apart(cols, Inserted(key, ascending, r, rows))
  {
    if rows != [] && !Before(key, ascending, r, rows[0]) {
      InsertedApart(key, ascending, r, rows[1..], cols);
      assert forall x :: x in rows[1..] ==> !Agree(cols, rows[0], x);
      assert Agree(cols, rows[0], r) ==> Agree(cols, r, rows[0]);
      assert forall x :: x in Inserted(key, ascending, r, rows[1..]) ==> !Agree(cols, rows[0], x);
    }
  }

  /** Rows can be put into any order, and stay one row for each group. */
  lemma {:induction false} Arranged(key: seq<Column>, ascending: seq<bool>, rows: seq<Record>, cols: seq<Column>)
    returns (s: seq<Record>)
    ensures Ordered(key, ascending, s) && multiset(s) == multiset(rows) && (forall x :: x in s <==> x in rows)
    ensures Apart(cols, rows) ==> Apart(cols, s)
  {
    if rows == [] {
      s := [];
    } else {
      var rest := Arranged(key, ascending, rows[1..], cols);
      s := Inserted(key, ascending, rows[0], rest);
      InsertedOrdered(key, ascending, rows[0], rest);
      assert rows == [rows[0]] + rows[1..];
      if Apart(cols, rows) {
        assert forall x :: x in rows[1..] ==> !Agree(cols, rows[0], x);
        InsertedApart(key, ascending, rows[0], rest, cols);
      }
    }
  }

  /** One merged node: what its Group outputs, the Sort could have output over the unmerged Group's output. */
  lemma MergedNodeRefines(steps: iset<Step>, t: Tree, rel: seq<Record>, rows: seq<Record>)
    requires Merges(t) && Complete(t) && |t.subs[0].subs| == 1 && Yields(steps, t.subs[0].subs[0], rel)
    requires Groups(MergedCols(t.subs[0].inputs, t.inputs), rel, rows)
    requires Ordered(MergedCols(t.subs[0].inputs, t.inputs), MergedOrders(t.subs[0].inputs, t.inputs, t.op.ascending),
                     rows)
    ensures Yields(steps, t, rows)
  {
    var group := t.subs[0];
    MergedRefines(group.inputs, t.inputs, t.op.ascending, rel, rows);
    SamePartition(group.inputs, t.inputs, rel, rows);
    var groups := Arranged(group.inputs, group.op.sortOrders, rows, group.inputs);
    GroupsArranged(group.inputs, rel, rows, groups);
    GroupYields(steps, group, rel, groups);
    SortYields(steps, t, groups, rows);
  }

  lemma GroupsArranged(cols: seq<Column>, rel: seq<Record>, rows: seq<Record>, groups: seq<Record>)
    requires Groups(cols, rel, rows) && Apart(cols, groups) && multiset(groups) == multiset(rows)
    ensures Groups(cols, rel, groups)
  {
    StillFrom(rel, rows, groups);
    StillRepresented(cols, rel, rows, groups);
  }

  lemma StillFrom(rel: seq<Record>, rows: seq<Record>, groups: seq<Record>)
    requires From(rel, rows) && multiset(groups) == multiset(rows)
    ensures From(rel, groups)
  {
    forall i | 0 <= i < |groups| ensures groups[i] in rel {
      var j := SameMember(groups, rows, i);
    }
  }

  lemma StillRepresented(cols: seq<Column>, rel: seq<Record>, rows: seq<Record>, groups: seq<Record>)
    requires Represented(cols, rel, rows) && multiset(groups) == multiset(rows)
    ensures Represented(cols, rel, groups)
  {
    forall r | r in rel ensures exists i :: 0 <= i < |groups| && Agree(cols, r, groups[i]) {
      var i :| 0 <= i < |rows| && Agree(cols, r, rows[i]);
      var j := SameMember(rows, groups, i);
    }
  }

  lemma SameMember(rows: seq<Record>, others: seq<Record>, i: nat) returns (j: nat)
    requires multiset(rows) == multiset(others) && i < |rows|
    ensures j < |others| && others[j] == rows[i]
  {
    assert rows[i] in multiset(rows);
    assert rows[i] in others;
    j :| 0 <= j < |others| && others[j] == rows[i];
  }

  lemma GroupYields(steps: iset<Step>, t: Tree, rel: seq<Record>, rows: seq<Record>)
    requires t.op.GroupOp? && |t.subs| == 1 && Yields(steps, t.subs[0], rel)
    requires Groups(t.inputs, rel, rows) && Ordered(t.inputs, t.op.sortOrders, rows)
    ensures Yields(steps, t, rows)
  {
  }

  lemma SortYields(steps: iset<Step>, t: Tree, rel: seq<Record>, rows: seq<Record>)
    requires t.op.SortOp? && |t.subs| == 1 && Yields(steps, t.subs[0], rel)
    requires multiset(rel) == multiset(rows) && Ordered(t.inputs, t.op.ascending, rows)
    ensures Yields(steps, t, rows)
  {
  }

  lemma {:induction false} AllRefine(steps: iset<Step>, ts: seq<Tree>, rels: seq<seq<Record>>)
    requires (forall i :: 0 <= i < |ts| ==> Complete(ts[i])) && AllYield(steps, MergedAll(ts), rels)
    ensures AllYield(steps, ts, rels)
    decreases ts
  {
    forall i | 0 <= i < |ts| ensures Yields(steps, ts[i], rels[i]) {
      MergedPlanRefines(steps, ts[i], rels[i]);
    }
  }

  /** Whatever the merged plan may output, the plan may output. */
  lemma {:induction false} MergedPlanRefines(steps: iset<Step>, t: Tree, rows: seq<Record>)
    requires Complete(t) && Yields(steps, Merged(t), rows)
    ensures Yields(steps, t, rows)
    decreases t
  {
    if Merges(t) {
      var group := t.subs[0];
      var rel :| Yields(steps, Merged(t).subs[0], rel) && Groups(Merged(t).inputs, rel, rows)
                 && Ordered(Merged(t).inputs, Merged(t).op.sortOrders, rows);
      MergedPlanRefines(steps, group.subs[0], rel);
      MergedNodeRefines(steps, t, rel, rows);
    } else if (t.op.GroupOp? || t.op.SortOp?) && |t.subs| == 1 {
      assert Merged(t).subs == [Merged(t.subs[0])];
      forall rel | Yields(steps, Merged(t.subs[0]), rel) ensures Yields(steps, t.subs[0], rel) {
        MergedPlanRefines(steps, t.subs[0], rel);
      }
    } else {
      var rels :| AllYield(steps, Merged(t).subs, rels) && Step(t.op, t.inputs, rels, rows) in steps;
      AllRefine(steps, t.subs, rels);
    }
  }

  lemma {:induction false} MergedNodes(t: Tree)
    ensures Nodes(Merged(t)) <= Nodes(t)
    decreases t, 1
  {
    MergedAllNodes(t.subs);
    if Merges(t) {
      MergedAllNodes(t.subs[0].subs);
      MemberNodes(t.subs, 0);
    }
  }

  lemma {:induction false} MergedAllNodes(ts: seq<Tree>)
    ensures NodesOf(MergedAll(ts)) <= NodesOf(ts)
    decreases ts, 0
  {
    if ts != [] {
      MergedNodes(ts[0]);
      MergedAllNodes(ts[1..]);
    }
  }

  // -------------------------------------------------------------------------------------------
  // The pass, in place
  // -------------------------------------------------------------------------------------------

  method CheckSubset(sortCols: seq<Column>, groupCols: seq<Column>) returns (isSubset: bool)
    ensures isSubset == Subset(sortCols, groupCols)
  {
    isSubset := true;
    for i := 0 to |sortCols|
      invariant isSubset && forall k :: 0 <= k < i ==> sortCols[k] in groupCols
    {
      if sortCols[i] !in groupCols {
        return false;
      }
    }
  }

  /** The Group takes the Sort's columns and orders first, then its own remaining columns. */
  method TakeOrder(group: PlanNode, sortCols: seq<Column>, ascending: seq<bool>)
    requires group.op.GroupOp?
    modifies group`inputs, group`op
    ensures group.inputs == MergedCols(old(group.inputs), sortCols)
    ensures group.op == GroupOp(MergedOrders(old(group.inputs), sortCols, ascending), old(group.op.hasAgg))
  {
    var cols, orders := sortCols, ascending;
    for i := 0 to |group.inputs|
      invariant cols == sortCols + Remaining(group.inputs[..i], sortCols)
      invariant orders == ascending + Ascending(|Remaining(group.inputs[..i], sortCols)|)
    {
      assert group.inputs[..i + 1][..i] == group.inputs[..i];
      if group.inputs[i] !in sortCols {
        cols := cols + [group.inputs[i]];
        orders := orders + [true];
      }
    }
    assert group.inputs[..|group.inputs|] == group.inputs;
    group.inputs, group.op := cols, GroupOp(orders, group.op.hasAgg);
  }

  method MergeChildren(children: seq<PlanNode>, ghost ts: seq<Tree>) returns (children': seq<PlanNode>)
    requires Shapes(ts) && AllUnshared(ts) && |children| == |ts| && forall i :: 0 <= i < |ts| ==>
               children[i] == ts[i].node
    modifies NodesOf(ts)
    ensures Shapes(MergedAll(ts)) && AllUnshared(MergedAll(ts))
    ensures |children'| == |ts| && forall i :: 0 <= i < |ts| ==> children'[i] == Merged(ts[i]).node
    decreases ts, 0
  {
    if children == [] {
      return [];
    }
    assert old(allocated(Nodes(ts[0]))) && old(allocated(NodesOf(ts[1..])));
    MergedNodes(ts[0]);
    MergedAllNodes(ts[1..]);
    var first := MergeSortIntoGroup(children[0], ts[0]);
    assert allocated(Nodes(Merged(ts[0])));
    var rest := MergeChildren(children[1..], ts[1..]);
    assert MergedAll(ts)[1..] == MergedAll(ts[1..]);
    children' := [first] + rest;
  }

  method MergeBelow(node: PlanNode, ghost t: Tree)
    requires Shape(t) && Unshared(t) && node == t.node
    modifies Nodes(t)
    ensures var u := Tree(t.node, t.op, t.inputs, t.outputs, MergedAll(t.subs)); Shape(u) && Unshared(u)
    decreases t.subs, 1
  {
    assert old(allocated(NodesOf(t.subs)));
    MergedAllNodes(t.subs);
    var children := MergeChildren(node.children, t.subs);
    assert allocated(NodesOf(MergedAll(t.subs)));
    node.children := children;
  }

  /** The result takes the place of `node` in its parent. */
  method MergeSortIntoGroup(node: PlanNode, ghost t: Tree) returns (node': PlanNode)
    requires Shape(t) && Unshared(t) && node == t.node
    modifies Nodes(t)
    ensures Shape(Merged(t)) && Unshared(Merged(t)) && node' == Merged(t).node
    ensures Keeps(t, Merged(t)) && (WellFormed(t) ==> WellFormed(Merged(t)))
    decreases t
  {
    MergedKeeps(t);
    if WellFormed(t) {
      StaysWellFormed(t);
    }
    assert old(allocated(NodesOf(t.subs)));
    assert t.subs != [] ==> Shape(t.subs[0]) && Unshared(t.subs[0]);
    if node.op.SortOp? && |node.children| == 1 && node.children[0].op.GroupOp? {
      var isSubset := CheckSubset(node.inputs, node.children[0].inputs);
      if isSubset {
        var group := node.children[0];
        ghost var below := t.subs[0];
        MemberNodes(t.subs, 0);
        assert old(allocated(NodesOf(below.subs)));
        TakeOrder(group, node.inputs, node.op.ascending);
        MergeBelow(group, Tree(group, group.op, group.inputs, below.outputs, below.subs));
        return group;
      }
    }
    MergeBelow(node, t);
    return node;
  }
}
