/**
 `to_sequence_children_list`: a depth-first post-order over the plan, which may share nodes.
 */
module Sequence {
  import opened PlanTree
  import opened PhysicalPlan

  ghost predicate Closed(c: set<PlanNode>)
    reads c
  {
    forall n :: n in c ==> forall i :: 0 <= i < |n.children| ==> n.children[i] in c
  }

  /** `done` is finished work: its children have all been visited. */
  ghost predicate ChildrenVisited(done: set<PlanNode>, visited: set<PlanNode>)
    reads done
  {
    forall n :: n in done ==> forall i :: 0 <= i < |n.children| ==> n.children[i] in visited
  }

  /** Every listed node comes after all of its children. */
  ghost predicate ChildrenFirst(list: seq<PlanNode>)
    reads list
  {
    forall k :: 0 <= k < |list| ==> forall i :: 0 <= i < |list[k].children| ==> list[k].children[i] in list[..k]
  }

  ghost predicate NoRepeats(list: seq<PlanNode>) {
    forall i, j :: 0 <= i < j < |list| ==> list[i] != list[j]
  }

  /** The visited nodes are the listed ones and those whose visit is still open. */
  ghost predicate Bookkeeping(visited: set<PlanNode>, list: seq<PlanNode>, open: set<PlanNode>, s: set<PlanNode>)
    reads s
  {
    && visited <= s && NoRepeats(list)
    && (forall n :: n in visited ==> n in open || n in list)
    && open <= visited && (forall n :: n in list ==> n in visited && n !in open)
    && ChildrenVisited(visited - open, visited)
    && (Acyclic(s) ==> ChildrenFirst(list))
  }

  lemma Listed(visited: set<PlanNode>, list: seq<PlanNode>, open: set<PlanNode>, cur: PlanNode, s: set<PlanNode>)
    requires Bookkeeping(visited, list, open + {cur}, s) && cur !in open && cur in visited
    requires forall i :: 0 <= i < |cur.children| ==> cur.children[i] in visited
    requires Acyclic(s) ==> forall n :: n in open ==> n.worth.rank > cur.worth.rank
    ensures Bookkeeping(visited, list + [cur], open, s)
  {
    var list' := list + [cur];
    assert visited - open == visited - (open + {cur}) + {cur};
    if Acyclic(s) {
      forall k, i | 0 <= k < |list'| && 0 <= i < |list'[k].children|
        ensures list'[k].children[i] in list'[..k]
      {
        if k < |list| {
          assert list'[..k] == list[..k];
        } else {
          assert list'[..k] == list;
          assert cur.children[i].worth.rank < cur.worth.rank;
        }
      }
    }
  }

  lemma Opened(visited: set<PlanNode>, list: seq<PlanNode>, open: set<PlanNode>, cur: PlanNode, s: set<PlanNode>)
    requires Bookkeeping(visited, list, open, s) && cur in s && cur !in visited
    ensures Bookkeeping(visited + {cur}, list, open + {cur}, s)
  {
    assert visited + {cur} - (open + {cur}) == visited - open;
  }

  /** `within` stands for any part of the plan that is closed under children; nothing outside it is visited. */
  method ToSequenceSub(cur: PlanNode, visited0: set<PlanNode>, list0: seq<PlanNode>,
                       ghost open: set<PlanNode>, ghost within: set<PlanNode>, ghost s: set<PlanNode>)
    returns (visited: set<PlanNode>, list: seq<PlanNode>)
    requires Closed(s) && cur in s && cur !in visited0
    requires Bookkeeping(visited0, list0, open, s)
    requires Acyclic(s) ==> forall n :: n in open ==> n.worth.rank > cur.worth.rank
    ensures Bookkeeping(visited, list, open, s)
    ensures visited0 + {cur} <= visited && list0 <= list && |list| > 0 && list[|list| - 1] == cur
    ensures Closed(within) && cur in within ==> visited <= visited0 + within
    decreases s - visited0
  {
    visited, list := visited0 + {cur}, list0;
    Opened(visited0, list0, open, cur, s);
    for k := 0 to |cur.children|
      invariant Bookkeeping(visited, list, open + {cur}, s)
      invariant visited0 + {cur} <= visited && list0 <= list
      invariant forall i :: 0 <= i < k ==> cur.children[i] in visited
      invariant Closed(within) && cur in within ==> visited <= visited0 + within
    {
      var child := cur.children[k];
      if child !in visited {
        visited, list := ToSequenceSub(child, visited, list, open + {cur}, within, s);
      }
    }
    Listed(visited, list, open, cur, s);
    list := list + [cur];
  }

  /** Children-first order of the nodes reachable from the root, each once. */
  method ToSequence(root: PlanNode, ghost within: set<PlanNode>, ghost s: set<PlanNode>) returns (list: seq<PlanNode>)
    requires Closed(s) && root in s
    ensures NoRepeats(list) && |list| > 0 && list[|list| - 1] == root
    ensures Closed(set n | n in list)
    ensures Closed(within) && root in within ==> forall n :: n in list ==> n in within
    ensures Acyclic(s) ==> ChildrenFirst(list)
  {
    var visited;
    visited, list := ToSequenceSub(root, {}, [], {}, within, s);
    assert visited == set n | n in list;
  }
}
