/**
 `pruneTree` on the objects that hold a plan.
 */
module PruneInPlace {
  import opened QueryPlan
  import opened Prune
  import opened PruneSpine

  /** Objects of a pruned tree are objects of the tree. */
  lemma {:induction false} WithoutNodes(t: Plan, types: set<string>)
    ensures Nodes(Without(t, types)) <= Nodes(t)
  {
    if t.subs != [] {
      MemberNodes(t.subs, 0);
      if !Is(t.raw, types) {
        WithoutNodes(t.subs[0], types);
        assert Without(t, types).subs[1..] == t.subs[1..];
      }
    }
  }

  /** `removeDeepAggregate` and `removeDeepSort`: the result takes the place of `node` in its parent. */
  method RemoveDeep(node: JsonNode, types: set<string>, ghost t: Plan) returns (node': JsonNode)
    requires Holds(t) && node == t.at
    modifies Nodes(t)
    ensures Holds(Without(t, types)) && node' == Without(t, types).at
    decreases t
  {
    node' := node;
    if Is(node.raw, types) {
      if |node.children| == 1 {
        node' := node.children[0];
      }
    } else if node.children != [] {
      assert old(allocated(Nodes(t.subs[0]))) && old(allocated(NodesOf(t.subs[1..])));
      WithoutNodes(t.subs[0], types);
      ghost var u := t.(subs := [Without(t.subs[0], types)] + t.subs[1..]);
      assert u.subs[1..] == t.subs[1..] && u == Without(t, types);
      var child := RemoveDeep(node.children[0], types, t.subs[0]);
      assert allocated(Nodes(Without(t.subs[0], types)));
      label removed:
      node.children := [child] + node.children[1..];
      Stays@removed(Without(t.subs[0], types));
      AllStay(t.subs[1..]);
    }
  }

  lemma {:induction false} PrunedAllNodes(ts: seq<Plan>)
    ensures NodesOf(PrunedAll(ts)) <= NodesOf(ts)
    decreases ts, 0
  {
    if ts != [] {
      PrunedNodes(ts[0]);
      PrunedAllNodes(ts[1..]);
    }
  }

  lemma {:induction false} PrunedNodes(t: Plan)
    ensures Nodes(Pruned(t)) <= Nodes(t)
    decreases t, 1
  {
    PrunedAllNodes(t.subs);
    HereNodes(t.(subs := PrunedAll(t.subs)));
  }

  lemma HereNodes(t: Plan)
    ensures Nodes(PrunedHere(t)) <= Nodes(t)
  {
    if t.raw.Some? {
      if |t.subs| == 1 {
        MemberNodes(t.subs, 0);
        WithoutNodes(t.subs[0], AGGREGATE);
        WithoutNodes(t.subs[0], SORT);
      }
      var sorted := if Is(t.raw, SORT) && |t.subs| == 1 then t.(subs := [Without(t.subs[0], SORT)]) else t;
      assert sorted.subs == t.subs || (sorted.subs[1..] == [] && NodesOf(sorted.subs) == Nodes(sorted.subs[0]) + {});
      CollapsedNodes(sorted);
      var collapsed := Collapsed(sorted);
      ExchangedNodes(collapsed.(data := Convert(collapsed.raw.value)));
    }
  }

  lemma CollapsedNodes(t: Plan)
    ensures Nodes(Collapsed(t)) <= Nodes(t)
  {
    if |t.subs| == 1 {
      assert NodesOf(t.subs) == Nodes(t.subs[0]) + NodesOf(t.subs[1..]);
    }
  }

  lemma ExchangedNodes(t: Plan)
    ensures Nodes(Exchanged(t)) == Nodes(t)
  {
    if t.data.Agg? && t.subs != [] && t.subs[0].data.Sort? {
      var u := Exchanged(t);
      assert u.subs[1..] == t.subs[1..] && Nodes(u.subs[0]) == Nodes(t.subs[0]);
    }
  }

  /** Children first, each slot taking the result. */
  method PruneChildren(children: seq<JsonNode>, ghost ts: seq<Plan>) returns (children': seq<JsonNode>)
    requires AllHold(ts) && |children| == |ts| && forall i :: 0 <= i < |ts| ==> children[i] == ts[i].at
    modifies NodesOf(ts)
    ensures AllHold(PrunedAll(ts)) && |children'| == |ts| && forall i :: 0 <= i < |ts| ==>
              children'[i] == Pruned(ts[i]).at
    decreases ts, 0
  {
    if children == [] {
      return [];
    }
    assert old(allocated(Nodes(ts[0]))) && old(allocated(NodesOf(ts[1..])));
    PrunedNodes(ts[0]);
    PrunedAllNodes(ts[1..]);
    var first := PruneTree(children[0], ts[0]);
    assert allocated(Nodes(Pruned(ts[0])));
    label first:
    var rest := PruneChildren(children[1..], ts[1..]);
    Stays@first(Pruned(ts[0]));
    assert PrunedAll(ts)[1..] == PrunedAll(ts[1..]);
    children' := [first] + rest;
  }

  /** The objects come to hold the pruned plan; `PrunedTo` says what that is. */
  method PruneTree(node: JsonNode, ghost t: Plan) returns (node': JsonNode)
    requires Holds(t) && node == t.at
    modifies Nodes(t)
    ensures Holds(Pruned(t)) && node' == Pruned(t).at
    ensures Shaped(t) ==> Tidy(Pruned(t)) && SkeletonOf(Pruned(t)) == SkeletonOf(t) && PrunedTo(t, Pruned(t))
    decreases t, |t.subs| + 1
  {
    assert old(allocated(NodesOf(t.subs)));
    PrunedAllNodes(t.subs);
    var children := PruneChildren(node.children, t.subs);
    ghost var u := t.(subs := PrunedAll(t.subs));
    assert allocated(NodesOf(u.subs));
    label pruned:
    node.children := children;
    AllStay@pruned(u.subs);
    node' := PruneHere(node, u);
    if Shaped(t) {
      PruneKeepsSkeleton(t);
      SpinePruned(t);
    }
  }

  /** Everything the pass does to one node once its children are done. */
  method PruneHere(node: JsonNode, ghost t: Plan) returns (node': JsonNode)
    requires Holds(t) && node == t.at
    modifies Nodes(t)
    ensures Holds(PrunedHere(t)) && node' == PrunedHere(t).at
  {
    if node.raw.None? {
      return node;
    }
    if Is(node.raw, HASH) && |node.children| == 1 {
      return node.children[0];
    }
    if Is(node.raw, GATHER) && |node.children| == 1 {
      node' := RemoveDeep(node.children[0], AGGREGATE, t.subs[0]);
      return;
    }
    node' := node;
    ghost var sorted := if Is(t.raw, SORT) && |t.subs| == 1 then t.(subs := [Without(t.subs[0], SORT)]) else t;
    ghost var collapsed := Collapsed(sorted);
    if |t.subs| == 1 { SortedNodes(t); }
    CollapsedNodes(sorted);
    DropSort(node, t);
    Collapse(node, sorted);
    node.data := Convert(node.raw.value);
    assert old(allocated(Nodes(t)));
    assert allocated(NodesOf(collapsed.subs));
    Exchange(node, collapsed.(data := Convert(collapsed.raw.value)));
  }

  lemma SortedNodes(t: Plan)
    requires |t.subs| == 1
    ensures NodesOf([Without(t.subs[0], SORT)]) <= NodesOf(t.subs)
  {
    MemberNodes(t.subs, 0);
    WithoutNodes(t.subs[0], SORT);
    assert NodesOf([Without(t.subs[0], SORT)]) == Nodes(Without(t.subs[0], SORT)) + NodesOf([]);
  }

  method DropSort(node: JsonNode, ghost t: Plan)
    requires Holds(t) && node == t.at
    modifies Nodes(t)
    ensures Holds(if Is(t.raw, SORT) && |t.subs| == 1 then t.(subs := [Without(t.subs[0], SORT)]) else t)
  {
    if Is(node.raw, SORT) && |node.children| == 1 {
      SortedNodes(t);
      assert old(allocated(Nodes(t.subs[0])));
      ghost var u := Without(t.subs[0], SORT);
      WithoutNodes(t.subs[0], SORT);
      var child := RemoveDeep(node.children[0], SORT, t.subs[0]);
      assert allocated(Nodes(u));
      label removed:
      node.children := [child];
      Stays@removed(u);
      assert AllHold([u]) by { assert [u][1..] == []; }
    }
  }

  method Collapse(node: JsonNode, ghost t: Plan)
    requires Holds(t) && node == t.at
    modifies node
    ensures Holds(Collapsed(t))
  {
    assert t.subs != [] ==> Holds(t.subs[0]);
    if Is(node.raw, BITMAP) && |node.children| == 1 && Is(node.children[0].raw, BITMAP) {
      var child := node.children[0];
      ghost var subs := t.subs[0].subs;
      MemberNodes(t.subs, 0);
      assert Holds(t.subs[0]) && AllHold(subs) && child == t.subs[0].at && NodesOf(subs) <= Nodes(t.subs[0]);
      assert old(allocated(NodesOf(subs)));
      node.raw := Some(Merged(node.raw.value, child.raw.value));
      node.children := child.children;
      AllStay(subs);
    }
  }

  method Exchange(node: JsonNode, ghost t: Plan)
    requires Holds(t) && node == t.at
    modifies Nodes(t)
    ensures Holds(Exchanged(t))
  {
    assert t.subs != [] ==> Holds(t.subs[0]);
    if node.data.Agg? && node.children != [] && node.children[0].data.Sort? {
      var child := node.children[0];
      ghost var lower, rest := t.subs[0], t.subs[1..];
      assert Holds(lower) && AllHold(lower.subs) && AllHold(rest) && child == lower.at;
      assert child !in NodesOf(lower.subs) && Nodes(lower) !! NodesOf(rest);
      assert old(allocated(NodesOf(lower.subs))) && old(allocated(NodesOf(rest)));
      node.data, child.data := child.data, node.data;
      node.raw, child.raw := child.raw, node.raw;
      AllStay(lower.subs);
      AllStay(rest);
      ghost var u := Exchanged(t);
      assert u.subs[1..] == rest && Nodes(u.subs[0]) == Nodes(lower);
    }
  }
}
