/**
 The first optimizer as the source runs it: nodes are spliced, copied and dropped in place.
 A ghost tree says which object holds which node.
 */
module OptimizerOne {
  import opened Ast
  import opened Pushdown

  class AstNode {
    var val: Val
    var left: AstNode?
    var right: AstNode?

    constructor (val: Val)
      ensures this.val == val && left == null && right == null
    {
      this.val, left, right := val, null, null;
    }
  }

  type Held = Ast<AstNode>

  function Ref(t: Held): AstNode? {
    if t.Nil? then null else t.at
  }

  ghost function Nodes(t: Held): set<AstNode> {
    if t.Nil? then {} else {t.at} + Nodes(t.left) + Nodes(t.right)
  }

  /** The objects form exactly this tree. */
  ghost predicate Holds(t: Held)
    reads Nodes(t)
  {
    t.Node? ==>
      && t.at.val == t.val && t.at.left == Ref(t.left) && t.at.right == Ref(t.right)
      && t.at !in Nodes(t.left) && t.at !in Nodes(t.right) && Nodes(t.left) !! Nodes(t.right)
      && Holds(t.left) && Holds(t.right)
  }

  /** Condition nodes that hang on nothing yet. */
  ghost predicate Loose(ns: seq<AstNode>, vs: seq<Val>)
    reads ns
  {
    && |ns| == |vs|
    && (forall i :: 0 <= i < |ns| ==> ns[i].val == vs[i] && ns[i].left == null && ns[i].right == null)
    && (forall i, j :: 0 <= i < j < |ns| ==> ns[i] != ns[j])
  }

  // -------------------------------------------------------------------------------------------
  // The tree without its objects
  // -------------------------------------------------------------------------------------------

  lemma {:induction false} StripKeeps(t: Held, table: string)
    ensures Wheres(Strip(t)) == Wheres(t) && HasTable(Strip(t), table) == HasTable(t, table)
    ensures Strip(Bare(t)) == Bare(Strip(t))
  {
    if t.Node? {
      StripKeeps(t.left, table);
      StripKeeps(t.right, table);
    }
  }

  lemma StripLeaf(leaf: Held)
    requires leaf.Node? && leaf.left.Nil? && leaf.right.Nil?
    ensures Strip(leaf) == Node((), leaf.val, Nil, Nil) && Nodes(leaf) == {leaf.at}
  {
    assert Strip(leaf.left) == Nil && Strip(leaf.right) == Nil;
  }

  lemma {:induction false} StripReplaced(t: Held, j: Held)
    ensures Strip(Replaced(t, j)) == Replaced(Strip(t), Strip(j))
  {
    if t.Node? {
      StripReplaced(t.left, j);
    }
  }

  lemma {:induction false} StripPlaced(t: Held, at: AstNode, v: Val)
    ensures Strip(Placed(t, at, v)) == Placed(Strip(t), (), v)
    ensures Places(Strip(t), v) == Places(t, v)
  {
    if t.Node? {
      StripPlaced(t.left, at, v);
      StripPlaced(t.right, at, v);
      assert IsTableOf(Strip(t.left), v) == IsTableOf(t.left, v)
             && IsTableOf(Strip(t.right), v) == IsTableOf(t.right, v);
      var nil: Held := Nil;
      assert Strip(nil) == Nil;
      if IsTableOf(t.left, v) {
        assert Strip(Node(at, v, t.left, nil)) == Node((), v, Strip(t.left), Nil);
      } else if IsTableOf(t.right, v) {
        assert Strip(Node(at, v, nil, t.right)) == Node((), v, Nil, Strip(t.right));
      }
    }
  }

  lemma {:induction false} PlacedNodes(t: Held, at: AstNode, v: Val)
    ensures Nodes(Placed(t, at, v)) <= Nodes(t) + {at}
  {
    if t.Node? {
      PlacedNodes(t.left, at, v);
      PlacedNodes(t.right, at, v);
      if IsTableOf(t.left, v) {
        var w := Node(at, v, t.left, Nil);
        assert Nodes(w) == Nodes(t.left) + {at};
      } else if IsTableOf(t.right, v) {
        var w := Node(at, v, Nil, t.right);
        assert Nodes(w) == Nodes(t.right) + {at};
      }
    }
  }

  lemma {:induction false} BareNodes(t: Held)
    ensures Nodes(Bare(t)) <= Nodes(t)
  {
    if t.Node? {
      BareNodes(t.left);
      BareNodes(t.right);
    }
  }

  // -------------------------------------------------------------------------------------------
  // The passes
  // -------------------------------------------------------------------------------------------

  function IsTableInAst(node: AstNode?, table: string, ghost t: Held): (found: bool)
    requires Holds(t) && node == Ref(t)
    reads Nodes(t)
    ensures found == HasTable(t, table)
    decreases t
  {
    if node == null then false
    else if node.val.TableBase? then node.val.tableName == table
    else if node.val.TableJoin? then IsTableInAst(node.left, table, t.left) || IsTableInAst(node.right, table, t.right)
    else false
  }

  twostate lemma Stays(t: Held)
    requires old(allocated(t)) && old(Holds(t))
    requires old(allocated(Nodes(t))) && unchanged(Nodes(t))
    ensures Holds(t)
    decreases t
  {
  }

  function Push(vs: seq<Val>, v: Val, joins: bool): seq<Val> {
    if v.Where? && IsJoinCondition(v) == joins then vs + [v] else vs
  }

  function PushAll(vs: seq<Val>, us: seq<Val>, joins: bool): seq<Val> {
    if us == [] then vs else Push(PushAll(vs, us[..|us| - 1], joins), us[|us| - 1], joins)
  }

  /** The list `vs` with the conditions of the tree pushed on: the join equalities, or the others. */
  function Taken<T>(t: Ast<T>, vs: seq<Val>, joins: bool): seq<Val> {
    if t.Nil? then vs else Taken(t.right, Taken(t.left, Push(vs, t.val, joins), joins), joins)
  }

  lemma {:induction false} PushConcat(vs: seq<Val>, us: seq<Val>, ws: seq<Val>, joins: bool)
    ensures PushAll(vs, us + ws, joins) == PushAll(PushAll(vs, us, joins), ws, joins)
  {
    if ws == [] {
      assert us + ws == us;
    } else {
      var k := |ws| - 1;
      PushConcat(vs, us, ws[..k], joins);
      assert (us + ws)[..|us| + k] == us + ws[..k] && (us + ws)[|us| + k] == ws[k];
    }
  }

  lemma {:induction false} TakenArePushed(t: Held, vs: seq<Val>, joins: bool)
    ensures Taken(t, vs, joins) == PushAll(vs, Wheres(t), joins)
  {
    if t.Node? {
      var first := if t.val.Where? then [t.val] else [];
      var vs1 := Push(vs, t.val, joins);
      assert vs1 == PushAll(vs, first, joins);
      TakenArePushed(t.left, vs1, joins);
      TakenArePushed(t.right, Taken(t.left, vs1, joins), joins);
      PushConcat(vs, first, Wheres(t.left), joins);
      PushConcat(vs, first + Wheres(t.left), Wheres(t.right), joins);
    }
  }

  lemma {:induction false} PushedAreSplit(us: seq<Val>)
    requires forall i :: 0 <= i < |us| ==> us[i].Where?
    ensures PushAll([], us, true) == Joins(us) && PushAll([], us, false) == Predicates(us)
  {
    if us != [] {
      PushedAreSplit(us[..|us| - 1]);
    }
  }

  lemma TakenAreSplit(t: Held)
    ensures Taken(t, [], true) == Joins(Wheres(Strip(t))) && Taken(t, [], false) == Predicates(Wheres(Strip(t)))
    ensures Strip(Bare(t)) == Bare(Strip(t))
  {
    StripKeeps(t, "");
    WheresAreWheres(t);
    PushedAreSplit(Wheres(t));
    TakenArePushed(t, [], true);
    TakenArePushed(t, [], false);
  }

  /** The left child first, then the right one. */
  method ExtractBelow(left: AstNode?, right: AstNode?, predicates0: seq<AstNode>, joins0: seq<AstNode>,
                      ghost t: Held, ghost ps: seq<Val>, ghost js: seq<Val>)
    returns (left': AstNode?, right': AstNode?, predicates: seq<AstNode>, joins: seq<AstNode>)
    requires t.Node? && Holds(t.left) && Holds(t.right) && Nodes(t.left) !! Nodes(t.right)
    requires left == Ref(t.left) && right == Ref(t.right)
    requires Loose(predicates0, ps) && Loose(joins0, js)
    requires forall n :: n in predicates0 || n in joins0 ==> n !in Nodes(t.left) && n !in Nodes(t.right)
    modifies Nodes(t.left), Nodes(t.right)
    ensures left' == Ref(Bare(t.left)) && Holds(Bare(t.left)) && right' == Ref(Bare(t.right)) && Holds(Bare(t.right))
    ensures Loose(predicates, Taken(t.right, Taken(t.left, ps, false), false))
    ensures Loose(joins, Taken(t.right, Taken(t.left, js, true), true))
    ensures forall n :: n in predicates ==> n in predicates0 || fresh(n)
    ensures forall n :: n in joins ==> n in joins0 || fresh(n)
    decreases t, 0
  {
    assert old(allocated(Nodes(t.left))) && old(allocated(Nodes(t.right)));
    left', predicates, joins := ExtractPredicate(left, predicates0, joins0, t.left, ps, js);
    Stays(t.right);
    BareNodes(t.left);
    assert allocated(Nodes(Bare(t.left)));
    label leftDone:
    right', predicates, joins := ExtractPredicate(right, predicates, joins, t.right,
                                                  Taken(t.left, ps, false), Taken(t.left, js, true));
    Stays@leftDone(Bare(t.left));
  }

  method ExtractPredicate(root: AstNode?, predicates0: seq<AstNode>, joins0: seq<AstNode>,
                          ghost t: Held, ghost ps: seq<Val>, ghost js: seq<Val>)
    returns (root': AstNode?, predicates: seq<AstNode>, joins: seq<AstNode>)
    requires Holds(t) && root == Ref(t)
    requires Loose(predicates0, ps) && Loose(joins0, js)
    requires forall n :: n in predicates0 || n in joins0 ==> n !in Nodes(t)
    modifies Nodes(t)
    ensures root' == Ref(Bare(t)) && Holds(Bare(t))
    ensures Loose(predicates, Taken(t, ps, false)) && Loose(joins, Taken(t, js, true))
    ensures forall n :: n in predicates ==> n in predicates0 || fresh(n)
    ensures forall n :: n in joins ==> n in joins0 || fresh(n)
    decreases t
  {
    root', predicates, joins := root, predicates0, joins0;
    if root == null {
      return;
    }
    BareNodes(t.left);
    BareNodes(t.right);
    assert old(allocated(Nodes(t.left))) && old(allocated(Nodes(t.right)));
    if root.val.Where? {
      root', predicates, joins := ExtractWhere(root, predicates, joins, t, ps, js);
    } else {
      var left, right;
      left, right, predicates, joins := ExtractBelow(root.left, root.right, predicates, joins, t, ps, js);
      assert allocated(Nodes(Bare(t.left))) && allocated(Nodes(Bare(t.right)));
      label below:
      root.left, root.right := left, right;
      Stays@below(Bare(t.left));
      Stays@below(Bare(t.right));
    }
  }

  /** A copy of the WHERE node is kept, its left child takes its place. */
  method ExtractWhere(root: AstNode, predicates0: seq<AstNode>, joins0: seq<AstNode>,
                      ghost t: Held, ghost ps: seq<Val>, ghost js: seq<Val>)
    returns (root': AstNode?, predicates: seq<AstNode>, joins: seq<AstNode>)
    requires Holds(t) && root == Ref(t) && t.val.Where?
    requires Loose(predicates0, ps) && Loose(joins0, js)
    requires forall n :: n in predicates0 || n in joins0 ==> n !in Nodes(t)
    modifies Nodes(t)
    ensures root' == Ref(Bare(t)) && Holds(Bare(t))
    ensures Loose(predicates, Taken(t, ps, false)) && Loose(joins, Taken(t, js, true))
    ensures forall n :: n in predicates ==> n in predicates0 || fresh(n)
    ensures forall n :: n in joins ==> n in joins0 || fresh(n)
    decreases t, 1
  {
    predicates, joins := predicates0, joins0;
    assert old(allocated(Nodes(t.left))) && old(allocated(Nodes(t.right)));
    var copy := new AstNode(root.val);
    if root.val.operatorType == "EQUAL" && root.val.table2 != "" {
      joins := joins + [copy];
    } else {
      predicates := predicates + [copy];
    }
    var leftChild, rightChild := root.left, root.right;
    root.left, root.right := null, null;
    Stays(t.left);
    Stays(t.right);
    var rest;
    root', rest, predicates, joins := ExtractBelow(leftChild, rightChild, predicates, joins, t,
                                                   Push(ps, t.val, false), Push(js, t.val, true));
  }

  method BuildJoin(joins: seq<AstNode>, ghost vs: seq<Val>) returns (root: AstNode?, ghost j: Held)
    requires Loose(joins, vs) && AreJoins(vs)
    ensures Holds(j) && fresh(Nodes(j)) && root == Ref(j)
    ensures Strip(j) == JoinTree(vs)
  {
    if joins == [] {
      return null, Nil;
    }
    var e := joins[0].val;
    var first := new AstNode(TableBase(e.table, ""));
    ghost var leaf: Held := Node(first, TableBase(e.table, ""), Nil, Nil);
    StripLeaf(leaf);
    root, j := NewJoin(first, leaf, e.table, e.column, e.table2, e.column2);
    assert vs[..1] == [vs[0]];
    for i := 1 to |joins|
      invariant Holds(j) && fresh(Nodes(j)) && root == Ref(j)
      invariant Strip(j) == JoinTree(vs[..i])
    {
      e := joins[i].val;
      var t1, c1, t2, c2 := e.table, e.column, e.table2, e.column2;
      StripKeeps(j, t2);
      if IsTableInAst(root, t2, j) {
        t1, c1, t2, c2 := t2, c2, t1, c1;
      }
      assert vs[..i + 1][..i] == vs[..i];
      root, j := NewJoin(root, j, t1, c1, t2, c2);
    }
    assert vs[..|joins|] == vs;
  }

  method NewJoin(left: AstNode?, ghost l: Held, t1: string, c1: string, t2: string, c2: string)
    returns (root: AstNode, ghost j: Held)
    requires Holds(l) && left == Ref(l)
    ensures Holds(j) && j.Node? && root == j.at && j.left == l
    ensures forall n :: n in Nodes(j) ==> n in Nodes(l) || fresh(n)
    ensures Strip(j) == Node((), Inner(t1, c1, t2, c2), Strip(l), Leaf(t2))
  {
    root := new AstNode(Inner(t1, c1, t2, c2));
    var table := new AstNode(TableBase(t2, ""));
    root.left, root.right := left, table;
    ghost var leaf: Held := Node(table, TableBase(t2, ""), Nil, Nil);
    j := Node(root, Inner(t1, c1, t2, c2), l, leaf);
    assert old(allocated(Nodes(l)));
    StripLeaf(leaf);
    Stays(l);
  }

  method OptimizeCrossProduct(root: AstNode?, joinroot: AstNode?, ghost t: Held, ghost j: Held)
    returns (root': AstNode?)
    requires Holds(t) && root == Ref(t) && Holds(j) && joinroot == Ref(j) && Nodes(t) !! Nodes(j)
    modifies Nodes(t)
    ensures root' == Ref(Replaced(t, j)) && Holds(Replaced(t, j)) && Nodes(Replaced(t, j)) <= Nodes(t) + Nodes(j)
    decreases t
  {
    if root == null {
      return null;
    }
    if root.val.TableJoin? {
      return joinroot;
    }
    assert old(allocated(Nodes(t.left))) && old(allocated(Nodes(t.right)));
    var child := OptimizeCrossProduct(root.left, joinroot, t.left, j);
    root.left := child;
    Stays(t.right);
    return root;
  }

  method PlacePredicate(root: AstNode?, cond: AstNode, ghost t: Held)
    requires Holds(t) && root == Ref(t) && cond !in Nodes(t) && cond.val.Where?
    requires Places(t, cond.val) <= 1
    requires Places(t, cond.val) == 1 ==> cond.left == null && cond.right == null
    modifies Nodes(t), cond
    ensures Holds(Placed(t, cond, old(cond.val))) && root == Ref(Placed(t, cond, old(cond.val)))
    ensures cond.val == old(cond.val)
    ensures old(allocated(Nodes(t)))
    ensures old(Places(t, cond.val)) == 0 ==>
              Placed(t, cond, old(cond.val)) == t && unchanged(Nodes(t)) && unchanged(cond)
    decreases t, 1
  {
    if root == null {
      return;
    }
    if root.left != null && IsTable(root.left, cond) {
      Splice(root, cond, true, t);
      return;
    }
    if root.right != null && IsTable(root.right, cond) {
      Splice(root, cond, false, t);
      return;
    }
    PlaceBelow(root, cond, t);
  }

  /** Put the predicate between the node and the table on its left or right. */
  method Splice(root: AstNode, cond: AstNode, left: bool, ghost t: Held)
    requires Holds(t) && root == Ref(t) && cond !in Nodes(t) && cond.left == null && cond.right == null
    modifies root, cond
    ensures cond.val == old(cond.val)
    ensures Holds(if left then Node(t.at, t.val, Node(cond, cond.val, t.left, Nil), t.right)
                  else Node(t.at, t.val, t.left, Node(cond, cond.val, Nil, t.right)))
    ensures old(allocated(Nodes(t)))
  {
    assert old(allocated(Nodes(t.left))) && old(allocated(Nodes(t.right)));
    if left {
      cond.left := root.left;
      root.left := cond;
    } else {
      cond.right := root.right;
      root.right := cond;
    }
    Stays(t.left);
    Stays(t.right);
    assert Holds(if left then Node(cond, cond.val, t.left, Nil) else Node(cond, cond.val, Nil, t.right));
  }

  /** Neither child is the table: go on on both sides. */
  method PlaceBelow(root: AstNode, cond: AstNode, ghost t: Held)
    requires Holds(t) && root == Ref(t) && cond !in Nodes(t) && cond.val.Where?
    requires !IsTableOf(t.left, cond.val) && !IsTableOf(t.right, cond.val) && Places(t, cond.val) <= 1
    requires Places(t, cond.val) == 1 ==> cond.left == null && cond.right == null
    modifies Nodes(t), cond
    ensures Holds(Placed(t, cond, old(cond.val))) && root == Ref(Placed(t, cond, old(cond.val)))
    ensures cond.val == old(cond.val)
    ensures old(allocated(Nodes(t)))
    ensures old(Places(t, cond.val)) == 0 ==>
              Placed(t, cond, old(cond.val)) == t && unchanged(Nodes(t)) && unchanged(cond)
    decreases t, 0
  {
    ghost var v := cond.val;
    assert old(allocated(Nodes(t)));
    assert old(allocated(Nodes(t.left))) && old(allocated(Nodes(t.right)));
    PlacedNodes(t.left, cond, v);
    PlacedNodes(t.right, cond, v);
    PlacePredicate(root.left, cond, t.left);
    Stays(t.right);
    assert allocated(Nodes(Placed(t.left, cond, v)));
    label placedLeft:
    PlacePredicate(root.right, cond, t.right);
    if Places(t.left, v) == 1 {
      Stays@placedLeft(Placed(t.left, cond, v));
    } else {
      Stays(t.left);
    }
  }

  predicate IsTable(n: AstNode, cond: AstNode)
    reads n, cond
  {
    n.val.TableBase? && cond.val.Where? &&
    (cond.val.table == n.val.tableName || cond.val.table == n.val.tableAlias)
  }

  /** Splice the predicates in, one after the other. */
  method PlaceAll(root: AstNode?, predicates: seq<AstNode>, ghost t: Held, ghost vs: seq<Val>) returns (ghost u: Held)
    requires Holds(t) && root == Ref(t) && OnePlaceEach(Strip(t), vs)
    requires Loose(predicates, vs) && forall n :: n in predicates ==> n !in Nodes(t)
    requires forall v :: v in vs ==> v.Where?
    modifies Nodes(t), predicates
    ensures Holds(u) && root == Ref(u) && Strip(u) == AllPlaced(Strip(t), vs)
    decreases |predicates|
  {
    if predicates == [] {
      return t;
    }
    var p := predicates[0];
    StripPlaced(t, p, vs[0]);
    PlacedNodes(t, p, vs[0]);
    PlacePredicate(root, p, t);
    u := PlaceAll(root, predicates[1..], Placed(t, p, vs[0]), vs[1..]);
  }

  method JoinInsteadOfProduct(root: AstNode?, joins: seq<AstNode>, ghost t: Held, ghost vs: seq<Val>)
    returns (root': AstNode?, ghost u: Held)
    requires Holds(t) && root == Ref(t) && Loose(joins, vs) && AreJoins(vs)
    modifies Nodes(t)
    ensures Holds(u) && root' == Ref(u) && Strip(u) == Replaced(Strip(t), JoinTree(vs))
    ensures forall n :: n in Nodes(u) ==> n in Nodes(t) || fresh(n)
  {
    assert old(allocated(Nodes(t)));
    var joinroot;
    ghost var j;
    joinroot, j := BuildJoin(joins, vs);
    Stays(t);
    StripReplaced(t, j);
    root' := OptimizeCrossProduct(root, joinroot, t, j);
    u := Replaced(t, j);
  }

  /** The first two steps: conditions out, joins in. */
  method Rejoin(root: AstNode?, ghost t: Held, ghost ps: seq<Val>, ghost js: seq<Val>)
    returns (root': AstNode?, predicates: seq<AstNode>, ghost u: Held)
    requires Holds(t) && root == Ref(t)
    requires ps == Taken(t, [], false) && js == Taken(t, [], true) && AreJoins(js)
    modifies Nodes(t)
    ensures Holds(u) && root' == Ref(u) && forall n :: n in Nodes(u) ==> n in Nodes(t) || fresh(n)
    ensures Strip(u) == Replaced(Strip(Bare(t)), JoinTree(js))
    ensures Loose(predicates, ps) && forall n :: n in predicates ==> fresh(n) && n !in Nodes(u)
  {
    BareNodes(t);
    var joins;
    root', predicates, joins := ExtractPredicate(root, [], [], t, [], []);
    assert old(allocated(Nodes(t)));
    root', u := JoinInsteadOfProduct(root', joins, Bare(t), js);
  }

  /** The whole pass: the objects end up forming the optimized tree, unless a predicate has two places to go. */
  method OptimizerOne(root: AstNode?, ghost t: Held) returns (root': AstNode?, ghost u: Held)
    requires Holds(t) && root == Ref(t) && Placeable(Strip(t))
    modifies Nodes(t)
    ensures Holds(u) && root' == Ref(u) && Strip(u) == Optimized(Strip(t))
  {
    TakenAreSplit(t);
    WheresAreWheres(Strip(t));
    forall v | v in Predicates(Wheres(Strip(t))) ensures v.Where? {
      SplitIn(Wheres(Strip(t)), v);
    }
    var predicates;
    ghost var ps := Taken(t, [], false);
    root', predicates, u := Rejoin(root, t, ps, Taken(t, [], true));
    u := PlaceAll(root', predicates, u, ps);
  }
}
