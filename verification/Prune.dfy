/**
 `pruneTree`: drop the nodes of a database plan that mean nothing here, without touching the
 order of joins and base tables.
 */
module Prune {
  import opened QueryPlan

  const HASH := {"Hash"}
  const GATHER := {"Gather", "Gather Merge"}
  const JOIN := {"Nested Loop", "Hash Join"}
  const AGGREGATE := {"Aggregate"}
  const BITMAP := {"Bitmap Heap Scan", "Bitmap Index Scan"}
  const SCAN := {"Index Scan", "Seq Scan"}
  const SORT := {"Incremental Sort", "Sort"}

  predicate Is(raw: Option<Raw>, types: set<string>) {
    raw.Some? && raw.value.nodeType in types
  }

  function Convert(raw: Raw): Abstract {
    if raw.nodeType in JOIN then Join(None, "", "")
    else if raw.nodeType in AGGREGATE then Agg
    else if raw.nodeType in SORT then Sort
    else if raw.nodeType in SCAN || raw.nodeType in BITMAP then
      Source(if raw.baseTable.Some? then raw.baseTable.value else "", [])
    else if raw.nodeType == "Limit" then Result
    else Blank
  }

  // -------------------------------------------------------------------------------------------
  // The pass as a function
  // -------------------------------------------------------------------------------------------

  /** Down the left spine, the first node of these types gives way to its only child. */
  function Without(t: Plan, types: set<string>): Plan {
    if Is(t.raw, types) then if |t.subs| == 1 then t.subs[0] else t
    else if t.subs == [] then t
    else t.(subs := [Without(t.subs[0], types)] + t.subs[1..])
  }

  function Merged(raw: Raw, child: Raw): Raw {
    raw.(filter := if raw.filter.None? then child.filter else raw.filter, index := if raw.index == "" then child.index
         else raw.index)
  }

  function Collapsed(t: Plan): Plan {
    if Is(t.raw, BITMAP) && |t.subs| == 1 && Is(t.subs[0].raw, BITMAP) then
      t.(raw := Some(Merged(t.raw.value, t.subs[0].raw.value)), subs := t.subs[0].subs)
    else t
  }

  /** An aggregate over a sort becomes a sort over an aggregate. */
  function Exchanged(t: Plan): Plan {
    if t.data.Agg? && t.subs != [] && t.subs[0].data.Sort? then
      var child := t.subs[0];
      Plan(t.at, child.raw, child.data, [Plan(child.at, t.raw, t.data, child.subs)] + t.subs[1..])
    else t
  }

  function PrunedAll(ts: seq<Plan>): (r: seq<Plan>)
    ensures |r| == |ts| && forall i :: 0 <= i < |ts| ==> r[i] == Pruned(ts[i])
  {
    if ts == [] then [] else [Pruned(ts[0])] + PrunedAll(ts[1..])
  }

  /** A node whose children have been pruned. */
  function PrunedHere(t: Plan): Plan {
    if t.raw.None? then t
    else if Is(t.raw, HASH) && |t.subs| == 1 then t.subs[0]
    else if Is(t.raw, GATHER) && |t.subs| == 1 then Without(t.subs[0], AGGREGATE)
    else Kept(t)
  }

  function Kept(t: Plan): Plan
    requires t.raw.Some?
  {
    var sorted := if Is(t.raw, SORT) && |t.subs| == 1 then t.(subs := [Without(t.subs[0], SORT)]) else t;
    var collapsed := Collapsed(sorted);
    Exchanged(collapsed.(data := Convert(collapsed.raw.value)))
  }

  function Pruned(t: Plan): Plan {
    PrunedHere(t.(subs := PrunedAll(t.subs)))
  }

  // -------------------------------------------------------------------------------------------
  // Joins and base tables
  // -------------------------------------------------------------------------------------------

  /** Ordered joins over base tables. */
  datatype Skeleton = Base(table: Option<string>) | Joined(left: Skeleton, right: Skeleton)

  /** Unary nodes do not show; a bitmap scan is the base table of its topmost node. */
  function SkeletonOf(t: Plan): Skeleton {
    if |t.subs| >= 2 then Joined(SkeletonOf(t.subs[0]), SkeletonOf(t.subs[1]))
    else if |t.subs| == 1 && !Is(t.raw, BITMAP) then SkeletonOf(t.subs[0])
    else Base(if t.raw.Some? then t.raw.value.baseTable else None)
  }

  const UNARY := HASH + GATHER + AGGREGATE + SORT

  /**
   Joins are binary; Hash, Gather, Aggregate and Sort are unary; scans are leaves, bitmap scans may
   sit on bitmap scans.
   */
  predicate Shaped(t: Plan) {
    && t.raw.Some?
    && (forall i :: 0 <= i < |t.subs| ==> Shaped(t.subs[i]))
    && (Is(t.raw, BITMAP) ==> |t.subs| == 0 || (|t.subs| == 1 && Is(t.subs[0].raw, BITMAP)))
    && (Is(t.raw, UNARY) ==> |t.subs| == 1)
    && |t.subs| <= 2
    && (Is(t.raw, JOIN) <==> |t.subs| == 2)
  }

  lemma {:induction false} WithoutKeeps(t: Plan, types: set<string>)
    requires Shaped(t) && types <= UNARY
    ensures Shaped(Without(t, types)) && SkeletonOf(Without(t, types)) == SkeletonOf(t)
    ensures Is(Without(t, types).raw, BITMAP) ==> Without(t, types) == t || (|t.subs| == 1 && !Is(t.raw, BITMAP))
  {
    if !Is(t.raw, types) && t.subs != [] {
      WithoutKeeps(t.subs[0], types);
    }
  }

  /** No Hash or Gather node, no bitmap over a bitmap, and the abstract data says what the raw data says. */
  predicate Clean(t: Plan) {
    && t.raw.Some? && !Is(t.raw, HASH) && !Is(t.raw, GATHER) && t.data == Convert(t.raw.value)
    && (Is(t.raw, BITMAP) ==> t.subs == [])
    && forall i :: 0 <= i < |t.subs| ==> Clean(t.subs[i])
  }

  /** How many Sorts lie on the left spine. */
  function SpineSorts(t: Plan): nat {
    (if Is(t.raw, SORT) then 1 else 0) + if t.subs == [] then 0 else SpineSorts(t.subs[0])
  }

  lemma {:induction false} WithoutClean(t: Plan, types: set<string>)
    requires Clean(t) && Shaped(t) && types <= UNARY
    ensures Clean(Without(t, types))
    ensures types == SORT ==> SpineSorts(Without(t, types)) == if SpineSorts(t) > 0 then SpineSorts(t) - 1 else 0
    ensures types !! SORT ==> SpineSorts(Without(t, types)) == SpineSorts(t)
  {
    if !Is(t.raw, types) && t.subs != [] {
      WithoutClean(t.subs[0], types);
    }
  }

  /** What pruning establishes. */
  predicate Tidy(t: Plan) {
    Shaped(t) && Clean(t) && SpineSorts(t) <= 1
  }

  predicate TidyBelow(t: Plan) {
    Shaped(t) && forall i :: 0 <= i < |t.subs| ==> Tidy(t.subs[i])
  }

  lemma ExchangedKeeps(t: Plan)
    requires Tidy(t)
    ensures Tidy(Exchanged(t)) && SkeletonOf(Exchanged(t)) == SkeletonOf(t)
  {
    if t.data.Agg? && t.subs != [] && t.subs[0].data.Sort? {
      var child := t.subs[0];
      var lower := Plan(child.at, t.raw, t.data, child.subs);
      assert Clean(child) && Shaped(child);
      assert Is(child.raw, SORT) && Is(t.raw, AGGREGATE);
      assert Shaped(lower) && Clean(lower) && SkeletonOf(lower) == SkeletonOf(child);
      assert Exchanged(t).subs == [lower] && SpineSorts(Exchanged(t)) == 1 + SpineSorts(lower)
             && SpineSorts(lower) == SpineSorts(child) - 1;
    }
  }

  lemma SortKept(t: Plan)
    requires TidyBelow(t) && Is(t.raw, SORT)
    ensures Tidy(Kept(t)) && SkeletonOf(Kept(t)) == SkeletonOf(t)
  {
    var child := Without(t.subs[0], SORT);
    WithoutKeeps(t.subs[0], SORT);
    WithoutClean(t.subs[0], SORT);
    var u := t.(subs := [child], data := Sort);
    assert u.subs == [child];
    assert Shaped(u) && Clean(u);
    assert Kept(t) == u by {
      assert Exchanged(u) == u;
    }
    assert SpineSorts(u) == 1 + SpineSorts(child);
    assert SkeletonOf(u) == SkeletonOf(child);
  }

  lemma OthersKept(t: Plan)
    requires TidyBelow(t) && !Is(t.raw, SORT) && !Is(t.raw, HASH) && !Is(t.raw, GATHER) && !Is(t.raw, BITMAP)
    ensures Tidy(Kept(t)) && SkeletonOf(Kept(t)) == SkeletonOf(t)
  {
    var u := t.(data := Convert(t.raw.value));
    assert Shaped(u) && Clean(u) && SkeletonOf(u) == SkeletonOf(t);
    assert SpineSorts(u) <= 1;
    ExchangedKeeps(u);
  }

  lemma BitmapKept(t: Plan)
    requires TidyBelow(t) && Is(t.raw, BITMAP)
    ensures Tidy(Kept(t)) && SkeletonOf(Kept(t)) == SkeletonOf(t) && Is(Kept(t).raw, BITMAP)
  {
    var u := Collapsed(t);
    assert u.subs == [] && u.raw.value.nodeType == t.raw.value.nodeType
           && u.raw.value.baseTable == t.raw.value.baseTable;
    assert Kept(t) == u.(data := Convert(u.raw.value));
  }

  lemma HereKeeps(t: Plan)
    requires TidyBelow(t)
    ensures Tidy(PrunedHere(t)) && SkeletonOf(PrunedHere(t)) == SkeletonOf(t)
    ensures Is(t.raw, BITMAP) ==> Is(PrunedHere(t).raw, BITMAP)
  {
    if Is(t.raw, HASH) {
    } else if Is(t.raw, GATHER) {
      WithoutKeeps(t.subs[0], AGGREGATE);
      WithoutClean(t.subs[0], AGGREGATE);
    } else if Is(t.raw, SORT) {
      SortKept(t);
    } else if Is(t.raw, BITMAP) {
      BitmapKept(t);
    } else {
      OthersKept(t);
    }
  }

  /**
   The same joins over the same base tables in the same order; no Hash or Gather; at most one Sort
   on the left spine.
   */
  lemma {:induction false} PruneKeepsSkeleton(t: Plan)
    requires Shaped(t)
    ensures Tidy(Pruned(t)) && SkeletonOf(Pruned(t)) == SkeletonOf(t)
    ensures Is(t.raw, BITMAP) ==> Is(Pruned(t).raw, BITMAP)
  {
    var u := t.(subs := PrunedAll(t.subs));
    forall i | 0 <= i < |t.subs| ensures ChildPruned(t.subs[i], u.subs[i]) {
      PruneKeepsSkeleton(t.subs[i]);
    }
    AfterChildren(t, u);
    HereKeeps(u);
  }

  predicate ChildPruned(child: Plan, u: Plan) {
    Tidy(u) && SkeletonOf(u) == SkeletonOf(child) && (Is(child.raw, BITMAP) ==> Is(u.raw, BITMAP))
  }

  lemma AfterChildren(t: Plan, u: Plan)
    requires Shaped(t) && u.raw == t.raw && |u.subs| == |t.subs|
    requires forall j :: 0 <= j < |t.subs| ==> ChildPruned(t.subs[j], u.subs[j])
    ensures TidyBelow(u) && SkeletonOf(u) == SkeletonOf(t)
  {
  }
}
