/**
 `Renamer`: give every output in the plan a fresh name and let every input follow the child that
 supplies it.  Nodes may be shared; each is renamed once.
 */
module Renaming {
  import opened Relational
  import opened PlanTree
  import opened PhysicalPlan
  import opened Names
  import opened Sequence

  /** A node as it was before renaming. */
  datatype Original = Original(op: Op, inputs: seq<Column>, outputs: seq<Column>, children: seq<PlanNode>, rank: nat)

  type Registry = map<PlanNode, map<string, string>>

  // -------------------------------------------------------------------------------------------
  // What a plan must look like
  // -------------------------------------------------------------------------------------------

  predicate Offers(o: Original, key: string) {
    if o.op.FetchOp? then |o.inputs| > 0 && o.inputs[0].name == key
    else exists j :: 0 <= j < |o.outputs| && o.outputs[j].name == key
  }

  /** Child i supplies input i, and names do not mislead the queues. */
  ghost predicate Linked(n: PlanNode, orig: map<PlanNode, Original>)
    requires n in orig
  {
    var o := orig[n];
    && (o.op.FetchOp? ==> |o.inputs| > 0 && o.children == [])
    && (!o.op.FetchOp? ==>
          && |o.children| == |o.inputs|
          && (forall i :: 0 <= i < |o.children| ==>
                o.children[i] in orig && orig[o.children[i]].rank < o.rank
                  && Offers(orig[o.children[i]], o.inputs[i].name))
          && (forall i, j :: 0 <= i < j < |o.outputs| ==> o.outputs[i].name != o.outputs[j].name)
          // the earlier children that offer a slot's name are those whose own slot reads it
          && (forall i, j :: 0 <= j < i < |o.children| && Offers(orig[o.children[j]], o.inputs[i].name) ==>
                o.inputs[j].name == o.inputs[i].name))
  }

  ghost predicate Plan(orig: map<PlanNode, Original>) {
    forall n {:trigger Linked(n, orig)} :: n in orig ==> Linked(n, orig)
  }

  // -------------------------------------------------------------------------------------------
  // The names given to one node
  // -------------------------------------------------------------------------------------------

  function NewName(outputs: seq<Column>, from: nat, j: nat): string
    requires j < |outputs|
  {
    Name(outputs[j].name, (from + j) % WRAP)
  }

  lemma Unwrapped(os: seq<Column>, from: nat, i: nat)
    requires i < |os| && from + i < WRAP
    ensures NewName(os, from, i) == Name(os[i].name, from + i)
  {
    assert (from + i) % WRAP == from + i;
  }

  lemma NewNamesDiffer(os: seq<Column>, from: nat, i: nat, ps: seq<Column>, from': nat, j: nat)
    requires i < |os| && j < |ps| && from + i < WRAP && from' + j < WRAP && from + i != from' + j
    ensures NewName(os, from, i) != NewName(ps, from', j)
  {
    Unwrapped(os, from, i);
    Unwrapped(ps, from', j);
    NamesDiffer(os[i].name, from + i, ps[j].name, from' + j);
  }

  /** Outputs with different names get different names, even if the counter wraps in between. */
  lemma StillApart(os: seq<Column>, from: nat, i: nat, j: nat)
    requires i < |os| && j < |os| && os[i].name != os[j].name
    ensures NewName(os, from, i) != NewName(os, from, j)
  {
    if (from + i) % WRAP == (from + j) % WRAP {
      PrefixesDiffer(os[i].name, os[j].name, (from + i) % WRAP);
    } else {
      NamesDiffer(os[i].name, (from + i) % WRAP, os[j].name, (from + j) % WRAP);
    }
  }

  /** The column stands where it stood. */
  lemma SamePlace(os: seq<Column>, c: Column, os': seq<Column>, c': Column, j: nat)
    requires |os'| == |os| && j < |os| && os[j].name == c.name && os'[j].name == c'.name && c'.table == c.table
    requires forall k :: 0 <= k < |os| ==> os'[k].table == os[k].table
    requires forall k :: 0 <= k < |os| && k != j ==> os[k].name != c.name && os'[k].name != c'.name
    ensures IndexOf(os', c') == IndexOf(os, c)
  {
    if os[j] == c {
      assert os'[j] == c';
    }
  }

  predicate SameTables(cols: seq<Column>, cols': seq<Column>) {
    |cols'| == |cols| && forall j :: 0 <= j < |cols| ==> cols'[j].table == cols[j].table
  }

  /** Old output name to new output name. */
  function Renames(outputs: seq<Column>, from: nat): map<string, string> {
    if outputs == [] then map[] else
      var k := |outputs| - 1;
      Renames(outputs[..k], from)[outputs[k].name := NewName(outputs, from, k)]
  }

  lemma RenamesNext(outputs: seq<Column>, from: nat, j: nat)
    requires j < |outputs|
    ensures Renames(outputs[..j + 1], from) == Renames(outputs[..j], from)[outputs[j].name := NewName(outputs, from, j)]
  {
    assert outputs[..j + 1][..j] == outputs[..j];
  }

  lemma {:induction false} RenamesAt(outputs: seq<Column>, from: nat, j: nat)
    requires j < |outputs|
    requires forall i, k :: 0 <= i < k < |outputs| ==> outputs[i].name != outputs[k].name
    ensures outputs[j].name in Renames(outputs, from)
    ensures Renames(outputs, from)[outputs[j].name] == NewName(outputs, from, j)
  {
    if j < |outputs| - 1 {
      RenamesAt(outputs[..|outputs| - 1], from, j);
    }
  }

  lemma {:induction false} RenamesKeys(outputs: seq<Column>, from: nat, key: string)
    ensures key in Renames(outputs, from) <==> exists j :: 0 <= j < |outputs| && outputs[j].name == key
  {
    if outputs != [] {
      var k := |outputs| - 1;
      RenamesKeys(outputs[..k], from, key);
      if j :| 0 <= j < k && outputs[j].name == key {
        assert outputs[..k][j].name == key;
      }
    }
  }

  lemma RenamesAll(outputs: seq<Column>, from: nat)
    ensures forall key :: key in Renames(outputs, from) <==> exists j :: 0 <= j < |outputs| && outputs[j].name == key
  {
    forall key ensures key in Renames(outputs, from) <==> exists j :: 0 <= j < |outputs| && outputs[j].name == key {
      RenamesKeys(outputs, from, key);
    }
  }

  /** The new name under which `n` offers `key`; Fetches keep their column names. */
  function OutName(registry: Registry, orig: map<PlanNode, Original>, n: PlanNode, key: string): string {
    if n in registry && key in registry[n] then registry[n][key] else key
  }

  // -------------------------------------------------------------------------------------------
  // Queues of candidates
  // -------------------------------------------------------------------------------------------

  /** The names the first i children offer for `key`, in child order. */
  ghost function Queue(registry: Registry, orig: map<PlanNode, Original>, children: seq<PlanNode>, key: string)
      : seq<string>
    requires forall c :: c in children ==> c in orig
  {
    if children == [] then [] else
      var k := |children| - 1;
      Queue(registry, orig, children[..k], key)
      + if Offers(orig[children[k]], key) then [OutName(registry, orig, children[k], key)] else []
  }

  /** How many of the first i input columns read `key`. */
  function Reads(inputs: seq<Column>, key: string): (r: nat)
    ensures r <= |inputs|
  {
    if inputs == [] then 0 else
      var k := |inputs| - 1;
      Reads(inputs[..k], key) + if inputs[k].name == key then 1 else 0
  }

  /** Before slot i, as many names were offered for its key as were read. */
  lemma {:induction false} OfferedIsRead(registry: Registry, orig: map<PlanNode, Original>, n: PlanNode, i: nat, m: nat)
    requires n in orig && Linked(n, orig) && !orig[n].op.FetchOp? && m <= i < |orig[n].inputs|
    ensures forall c :: c in orig[n].children[..m] ==> c in orig
    ensures |Queue(registry, orig, orig[n].children[..m], orig[n].inputs[i].name)|
            == Reads(orig[n].inputs[..m], orig[n].inputs[i].name)
  {
    var o := orig[n];
    assert forall c :: c in o.children ==> c in orig;
    if m > 0 {
      var k, key := m - 1, o.inputs[i].name;
      OfferedIsRead(registry, orig, n, i, k);
      QueueNext(registry, orig, o.children, k, key);
      OneRead(o.inputs, k, key);
      OffersItsOwn(orig, n, i, k);
    }
  }

  /** An earlier child offers a slot's name exactly if its own slot reads it. */
  lemma OffersItsOwn(orig: map<PlanNode, Original>, n: PlanNode, i: nat, k: nat)
    requires n in orig && Linked(n, orig) && !orig[n].op.FetchOp? && k < i < |orig[n].inputs|
    ensures orig[n].children[k] in orig
    ensures var o := orig[n];
            Offers(orig[o.children[k]], o.inputs[i].name) <==> o.inputs[k].name == o.inputs[i].name
  {
  }

  lemma {:induction false} QueueGrows(registry: Registry, orig: map<PlanNode, Original>, children: seq<PlanNode>,
                                      m: nat, key: string)
    requires m <= |children| && forall c :: c in children ==> c in orig
    ensures Queue(registry, orig, children[..m], key) <= Queue(registry, orig, children, key)
  {
    if m < |children| {
      var k := |children| - 1;
      assert children[..k][..m] == children[..m];
      QueueGrows(registry, orig, children[..k], m, key);
    } else {
      assert children[..m] == children;
    }
  }

  /** The queue entry a slot meets is the one its own child supplied. */
  lemma FrontIsOwn(registry: Registry, orig: map<PlanNode, Original>, n: PlanNode, i: nat)
    requires n in orig && Linked(n, orig) && !orig[n].op.FetchOp? && i < |orig[n].inputs|
    ensures forall c :: c in orig[n].children ==> c in orig
    ensures var o := orig[n]; var key := o.inputs[i].name;
            var q := Queue(registry, orig, o.children, key);
            var r := Reads(o.inputs[..i], key);
            r < |q| && q[r] == OutName(registry, orig, o.children[i], key)
  {
    var o := orig[n];
    var key := o.inputs[i].name;
    OfferedIsRead(registry, orig, n, i, i);
    assert o.children[..i + 1][..i] == o.children[..i];
    assert Queue(registry, orig, o.children[..i + 1], key) ==
           Queue(registry, orig, o.children[..i], key) + [OutName(registry, orig, o.children[i], key)];
    QueueGrows(registry, orig, o.children, i + 1, key);
  }

  predicate Registered(registry: Registry, orig: map<PlanNode, Original>) {
    forall n :: n in registry ==> n in orig && !orig[n].op.FetchOp?
  }

  /** Names already given out do not change when other nodes are renamed. */
  ghost predicate Extends(registry: Registry, more: Registry, orig: map<PlanNode, Original>) {
    && Registered(registry, orig) && Registered(more, orig)
    && (forall n :: n in registry ==> n in more && more[n] == registry[n])
  }

  predicate Ready(registry: Registry, orig: map<PlanNode, Original>, n: PlanNode) {
    n in orig && (orig[n].op.FetchOp? || n in registry)
  }

  lemma {:induction false} QueueStays(registry: Registry, more: Registry, orig: map<PlanNode, Original>,
                                      children: seq<PlanNode>, key: string)
    requires Extends(registry, more, orig)
    requires forall c :: c in children ==> c in orig && Ready(registry, orig, c)
    ensures Queue(registry, orig, children, key) == Queue(more, orig, children, key)
  {
    if children != [] {
      QueueStays(registry, more, orig, children[..|children| - 1], key);
      assert Ready(registry, orig, children[|children| - 1]);
    }
  }

  // -------------------------------------------------------------------------------------------
  // The renamer
  // -------------------------------------------------------------------------------------------

  type Candidates = map<string, seq<string>>

  function Waiting(candidates: Candidates, key: string): seq<string> {
    if key in candidates then candidates[key] else []
  }

  /** One child's offers, put behind those of the children before it. */
  function AddOffers(candidates: Candidates, offers: map<string, string>): (r: Candidates)
    ensures forall key :: Waiting(r, key) == Waiting(candidates, key) + if key in offers then [offers[key]] else []
  {
    map key | key in candidates.Keys + offers.Keys ::
      Waiting(candidates, key) + if key in offers then [offers[key]] else []
  }

  function NewOutputs(outputs: seq<Column>, from: nat): (r: seq<Column>)
    ensures |r| == |outputs|
  {
    seq(|outputs|, j requires 0 <= j < |outputs| => Column(outputs[j].table, NewName(outputs, from, j)))
  }

  /** A renamed output stays in its table, and its old name starts the new one. */
  ghost predicate OutputsKept(before: seq<Column>, after: seq<Column>) {
    && |before| == |after|
    && forall j :: 0 <= j < |after| ==> after[j].table == before[j].table && before[j].name + "_" <= after[j].name
  }

  /** The first j outputs have been renamed, the others are untouched. */
  ghost predicate NamedUpTo(j: nat, now: seq<Column>, outputs: seq<Column>, from: nat) {
    && j <= |now| == |outputs|
    && (forall k :: 0 <= k < j ==> now[k] == Column(outputs[k].table, NewName(outputs, from, k)))
    && (forall k :: j <= k < |outputs| ==> now[k] == outputs[k])
  }

  lemma NamedNext(j: nat, now: seq<Column>, outputs: seq<Column>, from: nat)
    requires j < |now| && NamedUpTo(j, now, outputs, from)
    ensures NamedUpTo(j + 1, now[j := Column(now[j].table, NewName(outputs, from, j))], outputs, from)
  {
  }

  lemma NamedAll(now: seq<Column>, outputs: seq<Column>, from: nat)
    requires NamedUpTo(|outputs|, now, outputs, from)
    ensures now == NewOutputs(outputs, from) && OutputsKept(outputs, now)
  {
  }

  /** Input i carries the name under which child i offers it. */
  ghost predicate Follows(inputs: seq<Column>, o: Original, registry: Registry, orig: map<PlanNode, Original>) {
    && |inputs| == |o.inputs| == |o.children|
    && forall i :: 0 <= i < |inputs| ==>
         inputs[i] == Column(o.inputs[i].table, OutName(registry, orig, o.children[i], o.inputs[i].name))
  }

  /** The first i inputs follow their children, the others are untouched. */
  ghost predicate FollowsUpTo(i: nat, inputs: seq<Column>, o: Original, registry: Registry,
                              orig: map<PlanNode, Original>) {
    && i <= |inputs| == |o.inputs| == |o.children|
    && (forall k :: i <= k < |inputs| ==> inputs[k] == o.inputs[k])
    && (forall k :: 0 <= k < i ==>
          inputs[k] == Column(o.inputs[k].table, OutName(registry, orig, o.children[k], o.inputs[k].name)))
  }

  /** A queue after `r` reads: the last candidate is never consumed. */
  function Left(q: seq<string>, r: nat): seq<string> {
    if r < |q| then q[r..] else if q == [] then [] else q[|q| - 1..]
  }

  /** The candidates after the first i slots have been read. */
  ghost predicate Pending(candidates: Candidates, registry: Registry, orig: map<PlanNode, Original>, o: Original,
                          i: nat) {
    && i <= |o.inputs| && (forall c :: c in o.children ==> c in orig)
    && forall key :: Waiting(candidates, key) ==
         Left(Queue(registry, orig, o.children, key), Reads(o.inputs[..i], key))
  }

  lemma StartReading(candidates: Candidates, registry: Registry, orig: map<PlanNode, Original>, o: Original)
    requires Collected(candidates, registry, orig, o, |o.children|)
    ensures Pending(candidates, registry, orig, o, 0)
  {
    assert o.children[..|o.children|] == o.children;
  }

  lemma ReadOne(candidates: Candidates, registry: Registry, orig: map<PlanNode, Original>, n: PlanNode, i: nat)
    requires n in orig && Linked(n, orig) && !orig[n].op.FetchOp? && i < |orig[n].inputs|
    requires Pending(candidates, registry, orig, orig[n], i)
    ensures var o := orig[n];
            var key := o.inputs[i].name;
            var q := Waiting(candidates, key);
            && q != [] && q[0] == OutName(registry, orig, o.children[i], key)
            && Pending(if |q| > 1 then candidates[key := q[1..]] else candidates, registry, orig, o, i + 1)
  {
    var o := orig[n];
    var key := o.inputs[i].name;
    FrontIsOwn(registry, orig, n, i);
    var q := Waiting(candidates, key);
    var after := if |q| > 1 then candidates[key := q[1..]] else candidates;
    LeftNext(Queue(registry, orig, o.children, key), Reads(o.inputs[..i], key));
    forall other
      ensures Waiting(after, other) == Left(Queue(registry, orig, o.children, other), Reads(o.inputs[..i + 1], other)) {
      OneRead(o.inputs, i, other);
      assert other != key ==> Waiting(after, other) == Waiting(candidates, other);
    }
  }

  lemma OneRead(inputs: seq<Column>, i: nat, key: string)
    requires i < |inputs|
    ensures Reads(inputs[..i + 1], key) == Reads(inputs[..i], key) + if inputs[i].name == key then 1 else 0
  {
    assert inputs[..i + 1][..i] == inputs[..i];
  }

  lemma LeftNext(q: seq<string>, r: nat)
    requires r < |q|
    ensures Left(q, r) != [] && Left(q, r)[0] == q[r]
    ensures Left(q, r + 1) == if |Left(q, r)| > 1 then Left(q, r)[1..] else Left(q, r)
  {
  }

  lemma FollowsStays(inputs: seq<Column>, o: Original, registry: Registry, more: Registry,
                     orig: map<PlanNode, Original>)
    requires Follows(inputs, o, registry, orig) && Extends(registry, more, orig)
    requires forall c :: c in o.children ==> c in orig && Ready(registry, orig, c)
    ensures Follows(inputs, o, more, orig)
  {
    forall i | 0 <= i < |inputs|
      ensures OutName(registry, orig, o.children[i], o.inputs[i].name)
              == OutName(more, orig, o.children[i], o.inputs[i].name)
    {
      assert o.children[i] in o.children;
    }
  }

  /** `candidates` holds what the first k children offer. */
  ghost predicate Collected(candidates: Candidates, registry: Registry, orig: map<PlanNode, Original>, o: Original,
                            k: nat) {
    && k <= |o.children|
    && (forall c :: c in o.children[..k] ==> c in orig && Ready(registry, orig, c))
    && (forall key :: Waiting(candidates, key) == Queue(registry, orig, o.children[..k], key))
  }

  /** What a renamed node, or a Fetch, offers its parents. */
  ghost predicate OffersOf(offers: map<string, string>, registry: Registry, n: PlanNode, orig: map<PlanNode, Original>)
    requires n in orig
  {
    forall key :: (key in offers <==> Offers(orig[n], key))
               && (key in offers ==> offers[key] == OutName(registry, orig, n, key))
  }

  lemma FetchOffers(registry: Registry, n: PlanNode, orig: map<PlanNode, Original>)
    requires Registered(registry, orig) && n in orig && orig[n].op.FetchOp? && |orig[n].inputs| > 0
    ensures var key := orig[n].inputs[0].name; OffersOf(map[key := key], registry, n, orig)
  {
  }

  lemma QueueNext(registry: Registry, orig: map<PlanNode, Original>, children: seq<PlanNode>, k: nat, key: string)
    requires k < |children| && forall c :: c in children[..k + 1] ==> c in orig
    ensures children[k] in orig && forall c :: c in children[..k] ==> c in orig
    ensures Queue(registry, orig, children[..k + 1], key)
            == Queue(registry, orig, children[..k], key)
               + if Offers(orig[children[k]], key) then [OutName(registry, orig, children[k], key)] else []
  {
    assert children[k] == children[..k + 1][k] && children[..k + 1][..k] == children[..k];
  }

  lemma CollectKey(candidates: Candidates, registry: Registry, more: Registry, orig: map<PlanNode, Original>,
                   o: Original, k: nat, offers: map<string, string>, key: string)
    requires k < |o.children| && (forall c :: c in o.children[..k] ==> c in orig && Ready(registry, orig, c))
    requires Waiting(candidates, key) == Queue(registry, orig, o.children[..k], key) && o.children[k] in orig
    requires Extends(registry, more, orig) && OffersOf(offers, more, o.children[k], orig)
    ensures forall c :: c in o.children[..k + 1] ==> c in orig
    ensures Waiting(AddOffers(candidates, offers), key) == Queue(more, orig, o.children[..k + 1], key)
  {
    assert o.children[..k + 1][..k] == o.children[..k];
    QueueStays(registry, more, orig, o.children[..k], key);
    QueueNext(more, orig, o.children, k, key);
    assert Waiting(AddOffers(candidates, offers), key)
           == Waiting(candidates, key) + if key in offers then [offers[key]] else [];
  }

  lemma CollectOne(candidates: Candidates, registry: Registry, more: Registry, orig: map<PlanNode, Original>,
                   o: Original, k: nat, offers: map<string, string>)
    requires Collected(candidates, registry, orig, o, k) && k < |o.children| && o.children[k] in orig
    requires Extends(registry, more, orig) && Ready(more, orig, o.children[k])
    requires OffersOf(offers, more, o.children[k], orig)
    ensures Collected(AddOffers(candidates, offers), more, orig, o, k + 1)
  {
    assert o.children[..k + 1][..k] == o.children[..k];
    forall key ensures Waiting(AddOffers(candidates, offers), key) == Queue(more, orig, o.children[..k + 1], key) {
      CollectKey(candidates, registry, more, orig, o, k, offers, key);
    }
  }

  /** One node being renamed. */
  datatype Step = Step(r: Renamer, node: PlanNode, orig: map<PlanNode, Original>)

  /** Everything but `node` is as before, and `node` has been renamed. */
  twostate predicate Stepped(x: Step)
    reads x.r, x.r.gen, x.orig.Keys, x.node
  {
    && old(x.r.Valid(x.orig)) && x.r.gen.Valid() && x.node in x.orig && !x.orig[x.node].op.FetchOp?
       && x.node !in old(x.r.registry)
    && x.node in x.r.registry && x.r.registry == old(x.r.registry)[x.node := x.r.registry[x.node]]
    && x.r.first == old(x.r.first)[x.node := old(x.r.gen.issued)]
    && x.r.gen.issued == old(x.r.gen.issued) + |x.orig[x.node].outputs|
    && x.r.registry[x.node] == Renames(x.orig[x.node].outputs, x.r.first[x.node])
    && x.node.outputs == NewOutputs(x.orig[x.node].outputs, x.r.first[x.node])
    && Follows(x.node.inputs, x.orig[x.node], old(x.r.registry), x.orig) && x.r.Kept(x.node, x.orig)
    && (forall c :: c in x.orig[x.node].children ==> c in x.orig && Ready(old(x.r.registry), x.orig, c))
    && unchanged(x.orig.Keys - {x.node})
  }

  twostate lemma StepRenames(x: Step)
    requires Stepped(x)
    ensures forall n {:trigger x.r.Renamed(n, x.orig)} :: n in x.r.registry ==> x.r.Renamed(n, x.orig)
  {
    assert Extends(old(x.r.registry), x.r.registry, x.orig);
    forall n | n in x.r.registry ensures x.r.Renamed(n, x.orig) {
      assert n != x.node ==> old(x.r.Renamed(n, x.orig));
      FollowsStays(n.inputs, x.orig[n], old(x.r.registry), x.r.registry, x.orig);
    }
  }

  twostate lemma StepKeeps(x: Step)
    requires Stepped(x)
    ensures forall n {:trigger x.r.Kept(n, x.orig)} :: n in x.orig ==> x.r.Kept(n, x.orig)
    ensures forall n {:trigger x.r.Fresh(n, x.orig)} :: n in x.orig && n !in x.r.registry ==> x.r.Fresh(n, x.orig)
  {
    forall n | n in x.orig ensures x.r.Kept(n, x.orig) {
      if n != x.node {
        assert old(x.r.Kept(n, x.orig));
      }
    }
    forall n | n in x.orig && n !in x.r.registry ensures x.r.Fresh(n, x.orig) {
      assert old(x.r.Fresh(n, x.orig));
    }
  }

  twostate lemma StepApart(x: Step)
    requires Stepped(x)
    ensures forall m, n {:trigger x.r.Apart(m, n, x.orig)} :: m in x.r.registry && n in x.r.registry && m != n ==>
      m in x.r.first && n in x.r.first && m in x.orig && n in x.orig && x.r.Apart(m, n, x.orig)
  {
    forall m, n | m in x.r.registry && n in x.r.registry && m != n
      ensures m in x.r.first && n in x.r.first && m in x.orig && n in x.orig && x.r.Apart(m, n, x.orig)
    {
      if m != x.node && n != x.node {
        assert old(x.r.Apart(m, n, x.orig));
      } else {
        assert old(x.r.Renamed(if m == x.node then n else m, x.orig));
      }
    }
  }

  twostate lemma NodeAdded(x: Step)
    requires Stepped(x)
    ensures x.r.Valid(x.orig)
  {
    StepRenames(x);
    StepKeeps(x);
    StepApart(x);
    assert Registered(x.r.registry, x.orig);
  }

  class Renamer {
    const gen: NameGenerator
    var registry: Registry
    ghost var first: map<PlanNode, nat>

    ghost predicate Renamed(n: PlanNode, orig: map<PlanNode, Original>)
      reads this, gen, n
    {
      && n in registry && n in first && n in orig && !orig[n].op.FetchOp?
      && registry[n] == Renames(orig[n].outputs, first[n])
      && n.outputs == NewOutputs(orig[n].outputs, first[n])
      && Follows(n.inputs, orig[n], registry, orig)
      && (forall c :: c in orig[n].children ==> Ready(registry, orig, c))
      && first[n] + |orig[n].outputs| <= gen.issued
    }

    ghost predicate Apart(m: PlanNode, n: PlanNode, orig: map<PlanNode, Original>)
      requires m in first && n in first && m in orig && n in orig
      reads this
    {
      first[m] + |orig[m].outputs| <= first[n] || first[n] + |orig[n].outputs| <= first[m]
    }

    ghost predicate Kept(n: PlanNode, orig: map<PlanNode, Original>)
      requires n in orig
      reads n
    {
      n.op == orig[n].op && n.children == orig[n].children
    }

    ghost predicate Fresh(n: PlanNode, orig: map<PlanNode, Original>)
      requires n in orig
      reads n
    {
      n.inputs == orig[n].inputs && n.outputs == orig[n].outputs
    }

    ghost predicate Valid(orig: map<PlanNode, Original>)
      reads this, gen, orig.Keys
    {
      && gen.Valid() && registry.Keys == first.Keys && Registered(registry, orig)
      && (forall n {:trigger Kept(n, orig)} :: n in orig ==> Kept(n, orig))
      && (forall n {:trigger Fresh(n, orig)} :: n in orig && n !in registry ==> Fresh(n, orig))
      && (forall n {:trigger Renamed(n, orig)} :: n in registry ==> Renamed(n, orig))
      && (forall m, n {:trigger Apart(m, n, orig)} :: m in registry && n in registry && m != n ==> Apart(m, n, orig))
    }

    constructor (gen: NameGenerator)
      ensures this.gen == gen && registry == map[] && first == map[]
    {
      this.gen, registry, first := gen, map[], map[];
    }

    method FollowChildren(node: PlanNode, candidates0: Candidates, ghost orig: map<PlanNode, Original>)
      requires node in orig && Linked(node, orig) && !orig[node].op.FetchOp? && node.inputs == orig[node].inputs
      requires node.children == orig[node].children
      requires Pending(candidates0, registry, orig, orig[node], 0)
      modifies node`inputs
      ensures Follows(node.inputs, orig[node], registry, orig)
    {
      var candidates := candidates0;
      ghost var o := orig[node];
      if node.children != [] {
        for i := 0 to |node.inputs|
          invariant FollowsUpTo(i, node.inputs, o, registry, orig)
          invariant Pending(candidates, registry, orig, o, i)
        {
          var key := node.inputs[i].name;
          assert node.inputs[i] == o.inputs[i];
          ReadOne(candidates, registry, orig, node, i);
          var q := Waiting(candidates, key);
          node.inputs := node.inputs[i := Column(node.inputs[i].table, q[0])];
          if |q| > 1 {
            candidates := candidates[key := q[1..]];
          }
        }
      }
    }

    method NameOutputs(node: PlanNode) returns (mine: map<string, string>)
      requires gen.Valid()
      modifies node`outputs, gen
      ensures gen.Valid() && gen.issued == old(gen.issued) + |old(node.outputs)|
      ensures node.outputs == NewOutputs(old(node.outputs), old(gen.issued))
      ensures OutputsKept(old(node.outputs), node.outputs)
      ensures mine == Renames(old(node.outputs), old(gen.issued))
    {
      mine := map[];
      ghost var o, from := node.outputs, gen.issued;
      for j := 0 to |node.outputs|
        invariant gen.Valid() && gen.issued == from + j
        invariant NamedUpTo(j, node.outputs, o, from)
        invariant mine == Renames(o[..j], from)
      {
        NamedNext(j, node.outputs, o, from);
        RenamesNext(o, from, j);
        var raw := node.outputs[j].name;
        var name := gen.Next(raw);
        node.outputs := node.outputs[j := Column(node.outputs[j].table, name)];
        mine := mine[raw := name];
      }
      assert o[..|o|] == o;
      NamedAll(node.outputs, o, from);
    }

    lemma OffersAll(n: PlanNode, orig: map<PlanNode, Original>)
      requires n in orig && Renamed(n, orig)
      ensures OffersOf(registry[n], registry, n, orig)
    {
      RenamesAll(orig[n].outputs, first[n]);
    }

    /** What one call leaves alone. */
    twostate predicate Grown(orig: map<PlanNode, Original>, rank: nat)
      reads this, gen
    {
      && Extends(old(registry), registry, orig) && old(gen.issued) <= gen.issued
      && (forall n :: n in registry ==> n in old(registry) || (n in orig && orig[n].rank < rank))
    }

    method Collect(node: PlanNode, ghost orig: map<PlanNode, Original>) returns (candidates: Candidates)
      requires Valid(orig) && Plan(orig) && node in orig && !orig[node].op.FetchOp?
      modifies this, gen, orig.Keys`inputs, orig.Keys`outputs
      ensures Valid(orig)
      ensures Collected(candidates, registry, orig, orig[node], |orig[node].children|)
      ensures Grown(orig, orig[node].rank)
      decreases orig[node].rank, 0
    {
      ghost var o := orig[node];
      candidates := map[];
      assert Kept(node, orig) && Linked(node, orig);
      for k := 0 to |node.children|
        invariant Valid(orig) && node.children == o.children
        invariant Collected(candidates, registry, orig, o, k)
        invariant Grown(orig, o.rank)
      {
        ghost var before := registry;
        var offers := Process(node.children[k], orig);
        CollectOne(candidates, before, registry, orig, o, k, offers);
        candidates := AddOffers(candidates, offers);
        assert Kept(node, orig);
      }
    }

    method RenameColumns(node: PlanNode, candidates: Candidates, ghost orig: map<PlanNode, Original>)
      returns (offers: map<string, string>)
      requires gen.Valid() && node in orig && Linked(node, orig) && !orig[node].op.FetchOp?
      requires Kept(node, orig) && Fresh(node, orig)
      requires Collected(candidates, registry, orig, orig[node], |orig[node].children|)
      modifies gen, node`inputs, node`outputs
      ensures gen.Valid() && gen.issued == old(gen.issued) + |orig[node].outputs|
      ensures Follows(node.inputs, orig[node], registry, orig)
      ensures node.outputs == NewOutputs(orig[node].outputs, old(gen.issued))
      ensures offers == Renames(orig[node].outputs, old(gen.issued))
    {
      StartReading(candidates, registry, orig, orig[node]);
      FollowChildren(node, candidates, orig);
      offers := NameOutputs(node);
    }

    method Register(node: PlanNode, candidates: Candidates, ghost orig: map<PlanNode, Original>)
      returns (offers: map<string, string>)
      requires Valid(orig) && Plan(orig) && node in orig && !orig[node].op.FetchOp? && node !in registry
      requires Collected(candidates, registry, orig, orig[node], |orig[node].children|)
      modifies this, gen, node`inputs, node`outputs
      ensures Valid(orig)
      ensures registry == old(registry)[node := offers] && old(gen.issued) <= gen.issued
    {
      assert Kept(node, orig) && Fresh(node, orig) && Linked(node, orig);
      assert forall c :: c in orig[node].children ==> c in orig && Ready(registry, orig, c) by {
        assert orig[node].children[..|orig[node].children|] == orig[node].children;
      }
      offers := RenameColumns(node, candidates, orig);
      registry, first := registry[node := offers], first[node := gen.issued - |node.outputs|];
      NodeAdded(Step(this, node, orig));
    }

    method Process(node: PlanNode, ghost orig: map<PlanNode, Original>) returns (offers: map<string, string>)
      requires Valid(orig) && Plan(orig) && node in orig
      modifies this, gen, orig.Keys`inputs, orig.Keys`outputs
      ensures Valid(orig) && Ready(registry, orig, node) && OffersOf(offers, registry, node, orig)
      ensures Grown(orig, orig[node].rank + 1)
      decreases orig[node].rank, 1, 1
    {
      assert Kept(node, orig) && Linked(node, orig);
      if node in registry {
        OffersAll(node, orig);
        return registry[node];
      }
      assert Fresh(node, orig);
      if node.op.FetchOp? {
        FetchOffers(registry, node, orig);
        return map[node.inputs[0].name := node.inputs[0].name];
      }
      offers := Rename(node, orig);
    }

    /** Children first, then the node itself. */
    method Rename(node: PlanNode, ghost orig: map<PlanNode, Original>) returns (offers: map<string, string>)
      requires Valid(orig) && Plan(orig) && node in orig && node !in registry && !orig[node].op.FetchOp?
      modifies this, gen, orig.Keys`inputs, orig.Keys`outputs
      ensures Valid(orig) && Ready(registry, orig, node) && OffersOf(offers, registry, node, orig)
      ensures Grown(orig, orig[node].rank + 1)
      decreases orig[node].rank, 1, 0
    {
      var candidates := Collect(node, orig);
      ghost var below := registry;
      assert node !in below && Registered(below, orig) && Extends(old(registry), below, orig);
      offers := Register(node, candidates, orig);
      assert Extends(old(registry), registry, orig);
      assert Renamed(node, orig);
      OffersAll(node, orig);
    }

    /** What has been dealt with: the renamed nodes and the Fetches. */
    ghost function Reached(orig: map<PlanNode, Original>): set<PlanNode>
      reads this
    {
      set n | n in orig && Ready(registry, orig, n)
    }

    lemma ReachedIsClosed(orig: map<PlanNode, Original>)
      requires Valid(orig) && Plan(orig)
      ensures Closed(Reached(orig))
    {
      forall n, i | n in Reached(orig) && 0 <= i < |n.children| ensures n.children[i] in Reached(orig) {
        assert Kept(n, orig);
        assert Linked(n, orig) && n.children[i] in orig[n].children;
        assert orig[n].op.FetchOp? || Renamed(n, orig);
      }
    }

    lemma SeparateNodes(list: seq<PlanNode>, i: nat, j: nat, orig: map<PlanNode, Original>)
      requires Valid(orig) && gen.issued <= WRAP && NoRepeats(list) && i < |list| && j < |list|
      requires list[i] in Reached(orig) && list[j] in Reached(orig)
      ensures Separate(list, i, j)
    {
      assert Kept(list[i], orig) && Kept(list[j], orig);
      if !list[i].op.FetchOp? && !list[j].op.FetchOp? {
        forall p, q | 0 <= p < |list[i].outputs| && 0 <= q < |list[j].outputs| && (i != j || p != q)
          ensures list[i].outputs[p].name != list[j].outputs[q].name
        {
          SingleAssignment(list[i], p, list[j], q, orig);
        }
      }
    }

    lemma ReadsAreDefined(list: seq<PlanNode>, k: nat, orig: map<PlanNode, Original>)
      requires Valid(orig) && Plan(orig) && ChildrenFirst(list) && k < |list| && list[k] in Reached(orig)
      ensures DefinedBefore(list, k)
    {
      var n := list[k];
      assert Kept(n, orig);
      if !n.op.FetchOp? {
        assert Renamed(n, orig);
        forall i | 0 <= i < |n.inputs| ensures Writes(n.children[i], n.inputs[i].name) {
          var _ := InputFollowsChild(n, i, orig);
        }
      }
    }

    /** A base column name that was not made up by the generator is written by no renamed node. */
    lemma BaseNameApart(list: seq<PlanNode>, i: nat, j: nat, orig: map<PlanNode, Original>)
      requires Valid(orig) && gen.issued <= WRAP && i < |list| && j < |list|
      requires list[i] in Reached(orig) && list[j] in Reached(orig)
      requires list[i].op.FetchOp? && |list[i].inputs| > 0 && !Generated(list[i].inputs[0].name, gen.issued)
      ensures list[j].op.FetchOp? ||
              forall q :: 0 <= q < |list[j].outputs| ==> list[j].outputs[q].name != list[i].inputs[0].name
    {
      var n := list[j];
      assert Kept(n, orig);
      if !n.op.FetchOp? {
        assert Renamed(n, orig);
        forall q | 0 <= q < |n.outputs| ensures n.outputs[q].name != list[i].inputs[0].name {
          Unwrapped(orig[n].outputs, first[n], q);
        }
      }
    }

    lemma Finished(list: seq<PlanNode>, orig: map<PlanNode, Original>)
      requires Valid(orig) && Plan(orig) && NoRepeats(list) && ChildrenFirst(list)
      requires forall n :: n in list ==> n in Reached(orig)
      ensures gen.issued <= WRAP ==> forall i, j :: 0 <= i < |list| && 0 <= j < |list| ==> Separate(list, i, j)
      ensures gen.issued <= WRAP ==> forall i, j :: 0 <= i < |list| && 0 <= j < |list| ==>
                BaseApart(list, i, j, gen.issued)
      ensures forall k :: 0 <= k < |list| ==> DefinedBefore(list, k)
      ensures forall n :: n in list ==> n in orig && (n.op.FetchOp? || n in registry)
    {
      if gen.issued <= WRAP {
        forall i, j | 0 <= i < |list| && 0 <= j < |list| ensures Separate(list, i, j) {
          SeparateNodes(list, i, j, orig);
        }
        forall i, j | 0 <= i < |list| && 0 <= j < |list| ensures BaseApart(list, i, j, gen.issued) {
          if list[i].op.FetchOp? && |list[i].inputs| > 0 && !Generated(list[i].inputs[0].name, gen.issued) {
            BaseNameApart(list, i, j, orig);
          }
        }
      }
      forall k | 0 <= k < |list| ensures DefinedBefore(list, k) {
        ReadsAreDefined(list, k, orig);
      }
      forall n | n in list ensures n in orig && (n.op.FetchOp? || n in registry) {
        assert n in Reached(orig) && Kept(n, orig);
      }
    }

    /** As long as the counter has not wrapped, no two outputs in the plan share a name. */
    lemma SingleAssignment(m: PlanNode, i: nat, n: PlanNode, j: nat, orig: map<PlanNode, Original>)
      requires Valid(orig) && gen.issued <= WRAP
      requires m in registry && n in registry && i < |m.outputs| && j < |n.outputs| && (m != n || i != j)
      ensures m.outputs[i].name != n.outputs[j].name
    {
      assert Renamed(m, orig) && Renamed(n, orig) && (m != n ==> Apart(m, n, orig));
      NewNamesDiffer(orig[m].outputs, first[m], i, orig[n].outputs, first[n], j);
    }

    /** An output keeps its table and its place, and its name is the start of the new one. */
    lemma OutputKept(n: PlanNode, j: nat, orig: map<PlanNode, Original>)
      requires Valid(orig) && n in registry && j < |n.outputs|
      ensures n in orig && |n.outputs| == |orig[n].outputs|
      ensures n.outputs[j].table == orig[n].outputs[j].table && orig[n].outputs[j].name + "_" <= n.outputs[j].name
    {
      assert Renamed(n, orig);
    }

    /** Columns keep their tables and their places; a Fetch stays as it was. */
    lemma TablesKept(n: PlanNode, orig: map<PlanNode, Original>)
      requires Valid(orig) && n in orig && Ready(registry, orig, n)
      ensures SameTables(orig[n].outputs, n.outputs) && SameTables(orig[n].inputs, n.inputs)
    {
      if n in registry {
        assert Renamed(n, orig);
      } else {
        assert Fresh(n, orig);
      }
    }

    /**
     Input i is found among the outputs of child i where it was found before, table included, and is
     missing there if it was missing before.
     */
    lemma SlotKept(n: PlanNode, i: nat, orig: map<PlanNode, Original>)
      requires Valid(orig) && Plan(orig) && n in registry && i < |n.inputs|
      ensures n in orig && |n.children| == |n.inputs| == |orig[n].inputs| && n.children[i] in orig
      ensures var child := n.children[i];
              && |child.outputs| == |orig[child].outputs|
              && IndexOf(child.outputs, n.inputs[i]) == IndexOf(orig[child].outputs, orig[n].inputs[i])
    {
      var j := InputFollowsChild(n, i, orig);
      var child := n.children[i];
      if child.op.FetchOp? {
        assert Kept(child, orig) && Fresh(child, orig);
      } else {
        var os := orig[child].outputs;
        assert Renamed(n, orig) && Renamed(child, orig) && Linked(child, orig);
        forall k | 0 <= k < |os| && k != j
          ensures os[k].name != os[j].name && child.outputs[k].name != child.outputs[j].name
        {
          assert os[k].name != os[j].name;
          StillApart(os, first[child], k, j);
        }
        SamePlace(os, orig[n].inputs[i], child.outputs, n.inputs[i], j);
      }
    }

    /** A renamed input names an output of its own child: the one that carried the same name before. */
    lemma InputFollowsChild(n: PlanNode, i: nat, orig: map<PlanNode, Original>) returns (j: nat)
      requires Valid(orig) && Plan(orig) && n in registry && i < |n.inputs|
      ensures n in orig && |n.children| == |n.inputs| == |orig[n].inputs|
      ensures var child := n.children[i];
              && child in orig
              && if child.op.FetchOp? then
                   n.inputs[i] == orig[n].inputs[i] && child.inputs != [] && child.inputs[0].name == n.inputs[i].name
                 else
                   && child in registry && j < |child.outputs| == |orig[child].outputs|
                   && orig[child].outputs[j].name == orig[n].inputs[i].name
                   && child.outputs[j].name == n.inputs[i].name
    {
      assert Renamed(n, orig) && Kept(n, orig) && Linked(n, orig);
      var child, key := n.children[i], orig[n].inputs[i].name;
      assert child in orig[n].children && Ready(registry, orig, child);
      assert Kept(child, orig) && Linked(child, orig);
      j := 0;
      if child.op.FetchOp? {
        assert Fresh(child, orig);
      } else {
        assert Renamed(child, orig);
        j :| 0 <= j < |orig[child].outputs| && orig[child].outputs[j].name == key;
        RenamesAt(orig[child].outputs, first[child], j);
      }
    }
  }

  /** A renamed plan as it was: `old` is the state before. */
  datatype Whole = Whole(r: Renamer, e: Engine, orig: map<PlanNode, Original>)

  /** Only names have changed. */
  twostate predicate OnlyRenamed(x: Whole)
    reads x.r, x.r.gen, x.orig.Keys
  {
    && x.r.Valid(x.orig) && Plan(x.orig)
    && forall n :: n in x.orig ==>
         && x.orig[n] == Original(old(n.op), old(n.inputs), old(n.outputs), old(n.children), old(n.worth.rank))
         && n.worth == old(n.worth)
  }

  /** Renaming leaves the meaning of the plan alone: every node reads what it read and denotes what it denoted. */
  twostate lemma MeaningStays(x: Whole)
    requires OnlyRenamed(x) && old(Settled(x.e, x.orig.Keys))
    ensures Settled(x.e, x.r.Reached(x.orig))
  {
    var s := x.r.Reached(x.orig);
    forall n | n in s ensures Local(x.e, n, s) {
      assert old(Local(x.e, n, x.orig.Keys)) && x.r.Kept(n, x.orig) && Linked(n, x.orig);
      x.r.ReachedIsClosed(x.orig);
      if n in x.r.registry {
        assert !n.op.FetchOp? && x.r.Renamed(n, x.orig);
        assert |n.children| == |n.inputs|;
        forall i | 0 <= i < |n.children| ensures n.worth.slots[i] == Slot(n.inputs, n.children[i], i) {
          x.r.SlotKept(n, i, x.orig);
        }
      } else {
        assert x.r.Fresh(n, x.orig) && n.children == [];
      }
    }
  }

  /** No output of list[i] has the name of an output of list[j], unless it is that output. */
  ghost predicate Separate(list: seq<PlanNode>, i: int, j: int)
    requires 0 <= i < |list| && 0 <= j < |list|
    reads list
  {
    list[i].op.FetchOp? || list[j].op.FetchOp? ||
    forall p, q :: 0 <= p < |list[i].outputs| && 0 <= q < |list[j].outputs| && (i != j || p != q) ==>
      list[i].outputs[p].name != list[j].outputs[q].name
  }

  /** No output of list[j] has the base column name of list[i], unless that name looks like a generated one. */
  ghost predicate BaseApart(list: seq<PlanNode>, i: int, j: int, issued: nat)
    requires 0 <= i < |list| && 0 <= j < |list|
    reads list
  {
    list[i].op.FetchOp? && |list[i].inputs| > 0 && !Generated(list[i].inputs[0].name, issued) ==>
      list[j].op.FetchOp? || forall q :: 0 <= q < |list[j].outputs| ==>
          list[j].outputs[q].name != list[i].inputs[0].name
  }

  ghost predicate Writes(n: PlanNode, name: string)
    reads n
  {
    if n.op.FetchOp? then |n.inputs| > 0 && n.inputs[0].name == name
    else exists j :: 0 <= j < |n.outputs| && n.outputs[j].name == name
  }

  /** What list[k] reads has been written by an earlier node, the child of that slot. */
  ghost predicate DefinedBefore(list: seq<PlanNode>, k: int)
    requires 0 <= k < |list|
    reads list, list[k].children
  {
    list[k].op.FetchOp? ||
    (|list[k].children| == |list[k].inputs| &&
     forall i :: 0 <= i < |list[k].inputs| ==>
       list[k].children[i] in list[..k] && Writes(list[k].children[i], list[k].inputs[i].name))
  }

  ghost predicate AllLinked(root: PlanNode, orig: map<PlanNode, Original>)
    reads orig.Keys
  {
    && root in orig && Plan(orig)
    && forall n :: n in orig ==> orig[n] == Original(n.op, n.inputs, n.outputs, n.children, n.worth.rank)
  }

  lemma PlanIsAcyclic(renamer: Renamer, orig: map<PlanNode, Original>)
    requires renamer.Valid(orig) && Plan(orig) && forall n :: n in orig ==> n.worth.rank == orig[n].rank
    ensures Closed(orig.Keys) && Acyclic(orig.Keys)
  {
    forall n | n in orig
      ensures forall i :: 0 <= i < |n.children| ==> n.children[i] in orig && n.children[i].worth.rank < n.worth.rank
    {
      assert renamer.Kept(n, orig) && Linked(n, orig);
    }
  }

  /**
   Rename a plan and put it in order: among the listed nodes no generated name is written twice, nor is
   it the name of a base column, unless that looks like a generated name itself; and every name that is
   read has been written before, by the child that supplies it.  The plan denotes what it denoted.
   */
  method RenameAndSequence(ghost e: Engine, root: PlanNode, ghost orig: map<PlanNode, Original>)
    returns (list: seq<PlanNode>, renamer: Renamer)
    requires AllLinked(root, orig)
    modifies orig.Keys`inputs, orig.Keys`outputs
    ensures fresh(renamer) && renamer.Valid(orig)
    ensures NoRepeats(list) && |list| > 0 && list[|list| - 1] == root && ChildrenFirst(list)
    ensures forall n :: n in list ==> n in orig && (n.op.FetchOp? || n in renamer.registry)
    ensures renamer.gen.issued <= WRAP ==> forall i, j :: 0 <= i < |list| && 0 <= j < |list| ==> Separate(list, i, j)
    ensures renamer.gen.issued <= WRAP ==>
      forall i, j :: 0 <= i < |list| && 0 <= j < |list| ==> BaseApart(list, i, j, renamer.gen.issued)
    ensures forall k :: 0 <= k < |list| ==> DefinedBefore(list, k)
    ensures forall n :: n in orig ==> n.worth == old(n.worth)
    ensures forall n :: n in list ==>
              && n in renamer.Reached(orig)
              && SameTables(orig[n].outputs, n.outputs) && SameTables(orig[n].inputs, n.inputs)
    ensures old(Settled(e, orig.Keys)) ==> Settled(e, renamer.Reached(orig))
  {
    renamer := RenamePlan(e, root, orig);
    PlanIsAcyclic(renamer, orig);
    list := ToSequence(root, renamer.Reached(orig), orig.Keys);
    renamer.Finished(list, orig);
    forall n | n in list ensures SameTables(orig[n].outputs, n.outputs) && SameTables(orig[n].inputs, n.inputs) {
      renamer.TablesKept(n, orig);
    }
  }

  /** Rename a plan; the nodes dealt with are closed under children and denote what they denoted. */
  method RenamePlan(ghost e: Engine, root: PlanNode, ghost orig: map<PlanNode, Original>) returns (renamer: Renamer)
    requires AllLinked(root, orig)
    modifies orig.Keys`inputs, orig.Keys`outputs
    ensures fresh(renamer) && renamer.Valid(orig) && root in renamer.Reached(orig) && Closed(renamer.Reached(orig))
    ensures forall n :: n in orig ==> n.worth == old(n.worth)
    ensures old(Settled(e, orig.Keys)) ==> Settled(e, renamer.Reached(orig))
  {
    var gen := new NameGenerator();
    renamer := new Renamer(gen);
    label named:
    assert old(Settled(e, orig.Keys)) ==> Settled(e, orig.Keys);
    var _ := renamer.Process(root, orig);
    renamer.ReachedIsClosed(orig);
    if old(Settled(e, orig.Keys)) {
      MeaningStays@named(Whole(renamer, e, orig));
    }
  }
}
