/**
 A pruned plan is what enriching works on: a join tree over the base tables of the database's plan.
 */
module PrunedPlan {
  import opened QueryPlan
  import opened Prune
  import Enrich

  /** Scans, and only they, are leaves; a bitmap scan may stand on one. */
  predicate Leaves(t: Plan) {
    && (!Is(t.raw, BITMAP) ==> (t.subs == [] <==> Is(t.raw, SCAN)))
    && forall i :: 0 <= i < |t.subs| ==> Leaves(t.subs[i])
  }

  function Bases(s: Skeleton): set<string> {
    match s
    case Base(table) => {if table.Some? then table.value else ""}
    case Joined(left, right) => Bases(left) + Bases(right)
  }

  /** No base table on both sides of a join. */
  predicate Apart(s: Skeleton) {
    s.Joined? ==> Bases(s.left) !! Bases(s.right) && Apart(s.left) && Apart(s.right)
  }

  lemma {:induction false} WithoutLeaves(t: Plan, types: set<string>)
    requires Shaped(t) && Leaves(t) && types <= UNARY
    ensures Leaves(Without(t, types))
  {
    if !Is(t.raw, types) && t.subs != [] {
      WithoutLeaves(t.subs[0], types);
    }
  }

  lemma HereLeaves(t: Plan)
    requires TidyBelow(t) && Leaves(t)
    ensures Leaves(PrunedHere(t))
  {
    if |t.subs| == 1 {
      WithoutLeaves(t.subs[0], AGGREGATE);
      WithoutLeaves(t.subs[0], SORT);
    }
    if Is(t.raw, SORT) {
      assert PrunedHere(t) == t.(subs := [Without(t.subs[0], SORT)], data := Sort);
    } else if !Is(t.raw, HASH) && !Is(t.raw, GATHER) {
      KeptLeaves(t);
    }
  }

  lemma KeptLeaves(t: Plan)
    requires TidyBelow(t) && Leaves(t) && !Is(t.raw, SORT) && !Is(t.raw, HASH) && !Is(t.raw, GATHER)
    ensures Leaves(Kept(t))
  {
    var u := Collapsed(t);
    if Is(t.raw, BITMAP) {
      assert u.subs == [] && Kept(t) == u.(data := Convert(u.raw.value));
    } else if Convert(t.raw.value).Agg? && t.subs[0].data.Sort? {
      var child := t.subs[0];
      var lower := Plan(child.at, t.raw, Agg, child.subs);
      assert Kept(t) == Plan(t.at, child.raw, child.data, [lower]);
    } else {
      assert Kept(t) == t.(data := Convert(t.raw.value));
    }
  }

  lemma {:induction false} LeavesStay(t: Plan)
    requires Shaped(t) && Leaves(t)
    ensures Leaves(Pruned(t))
  {
    var u := t.(subs := PrunedAll(t.subs));
    forall i | 0 <= i < |t.subs| ensures Leaves(u.subs[i]) && ChildPruned(t.subs[i], u.subs[i]) {
      LeavesStay(t.subs[i]);
      PruneKeepsSkeleton(t.subs[i]);
    }
    AfterChildren(t, u);
    HereLeaves(u);
  }

  /** The abstract data of a pruned tree name the base tables its raw data name. */
  lemma {:induction false} DataTables(u: Plan)
    requires Shaped(u) && Clean(u) && Leaves(u)
    ensures Enrich.TablesOf(u) == Bases(SkeletonOf(u))
    ensures Enrich.JoinTree(u) <==> Apart(SkeletonOf(u))
  {
    if |u.subs| == 2 {
      DataTables(u.subs[0]);
      DataTables(u.subs[1]);
      assert u.subs == [u.subs[0], u.subs[1]];
      Enrich.PairTables(u.subs[0], u.subs[1]);
    } else if |u.subs| == 1 {
      DataTables(u.subs[0]);
      assert u.subs[1..] == [] && Enrich.TablesOfAll([]) == {};
    }
  }

  /**
   What pruning leaves has the base tables of the plan, and enriching applies exactly if no table is joined
   with itself.
   */
  lemma ReadyToEnrich(t: Plan)
    requires Shaped(t) && Leaves(t)
    ensures var u := Pruned(t);
            && Enrich.TablesOf(u) == Bases(SkeletonOf(t))
            && (Enrich.JoinTree(u) <==> Apart(SkeletonOf(t)))
  {
    PruneKeepsSkeleton(t);
    LeavesStay(t);
    DataTables(Pruned(t));
  }
}
