/**
 `enrichTreeSub`: give every join of the plan its condition and every source its filters.
 */
module Enrich {
  import opened QueryPlan

  // -------------------------------------------------------------------------------------------
  // The pass as a function
  // -------------------------------------------------------------------------------------------

  /** The base tables below a node. */
  function TablesOf(t: Plan): set<string> {
    if t.data.Source? then {t.data.basetable} else TablesOfAll(t.subs)
  }

  function TablesOfAll(ts: seq<Plan>): set<string> {
    if ts == [] then {} else TablesOf(ts[0]) + TablesOfAll(ts[1..])
  }

  /** Conditions on this base table alone. */
  function FiltersFor(conditions: seq<Condition>, table: string): seq<Condition> {
    if conditions == [] then [] else
      var k := |conditions| - 1;
      FiltersFor(conditions[..k], table) + if conditions[k].tables == {table} then [conditions[k]] else []
  }

  predicate Crosses(c: Condition, left: set<string>, right: set<string>) {
    (c.first in left && c.second in right) || (c.second in left && c.first in right)
  }

  /** The first condition that links the two sides. */
  function FirstCrossing(conditions: seq<Condition>, left: set<string>, right: set<string>): (k: nat)
    ensures k <= |conditions|
    ensures k < |conditions| ==> Crosses(conditions[k], left, right)
    ensures forall i :: 0 <= i < k ==> !Crosses(conditions[i], left, right)
  {
    if conditions == [] then 0
    else if Crosses(conditions[0], left, right) then 0
    else 1 + FirstCrossing(conditions[1..], left, right)
  }

  function EnrichedAll(ts: seq<Plan>, conditions: seq<Condition>): (r: seq<Plan>)
    ensures |r| == |ts|
    ensures forall i :: 0 <= i < |ts| ==> r[i] == Enriched(ts[i], conditions)
  {
    if ts == [] then [] else [Enriched(ts[0], conditions)] + EnrichedAll(ts[1..], conditions)
  }

  function Enriched(t: Plan, conditions: seq<Condition>): (u: Plan)
    ensures u.at == t.at
  {
    var subs := EnrichedAll(t.subs, conditions);
    match t.data
    case Source(table, filters) => t.(subs := subs, data := Source(table, filters + FiltersFor(conditions, table)))
    case Join(_, _, _) =>
      if |subs| != 2 then t.(subs := subs) else
        var left, right := TablesOf(t.subs[0]), TablesOf(t.subs[1]);
        var k := FirstCrossing(conditions, left, right);
        if k == |conditions| then t.(subs := subs) else
          var c := conditions[k];
          var normal := c.first in left && c.second in right;
          t.(data := Join(Some(c), c.first, c.second), subs := if normal then subs else [subs[1], subs[0]])
    case _ => t.(subs := subs)
  }

  // -------------------------------------------------------------------------------------------
  // Join trees
  // -------------------------------------------------------------------------------------------

  /** Binary joins over distinct base tables, other nodes unary. */
  predicate JoinTree(t: Plan) {
    match t.data
    case Source(_, _) => t.subs == []
    case Join(_, _, _) => |t.subs| == 2 && JoinTree(t.subs[0]) && JoinTree(t.subs[1])
      && TablesOf(t.subs[0]) !! TablesOf(t.subs[1])
    case _ => |t.subs| == 1 && JoinTree(t.subs[0])
  }

  /** Every join has a condition that links its sides. */
  predicate Linked(t: Plan, conditions: seq<Condition>) {
    && (t.data.Join? && |t.subs| == 2 ==>
          FirstCrossing(conditions, TablesOf(t.subs[0]), TablesOf(t.subs[1])) < |conditions|)
    && forall i :: 0 <= i < |t.subs| ==> Linked(t.subs[i], conditions)
  }

  lemma PairTables(a: Plan, b: Plan)
    ensures TablesOfAll([a, b]) == TablesOf(a) + TablesOf(b)
  {
    assert [a, b][1..] == [b] && TablesOfAll([b]) == TablesOf(b) + TablesOfAll([]);
  }

  lemma SubTables(t: Plan)
    requires JoinTree(t)
    ensures |t.subs| == 2 ==> TablesOf(t) == TablesOf(t.subs[0]) + TablesOf(t.subs[1]) && t.data.Join?
    ensures |t.subs| == 1 ==> TablesOf(t) == TablesOf(t.subs[0]) && !t.data.Join? && !t.data.Source?
    ensures |t.subs| == 0 <==> t.data.Source?
    ensures |t.subs| <= 2
  {
    if |t.subs| == 2 {
      assert t.subs == [t.subs[0], t.subs[1]];
      PairTables(t.subs[0], t.subs[1]);
    } else if |t.subs| == 1 {
      assert t.subs[1..] == [] && TablesOfAll([]) == {};
    }
  }

  lemma {:induction false} TablesStay(t: Plan, conditions: seq<Condition>)
    requires JoinTree(t)
    ensures TablesOf(Enriched(t, conditions)) == TablesOf(t)
  {
    var u := Enriched(t, conditions);
    SubTables(t);
    if |t.subs| == 2 {
      TablesStay(t.subs[0], conditions);
      TablesStay(t.subs[1], conditions);
      PairTables(Enriched(t.subs[0], conditions), Enriched(t.subs[1], conditions));
      PairTables(Enriched(t.subs[1], conditions), Enriched(t.subs[0], conditions));
      assert u.subs == [Enriched(t.subs[0], conditions), Enriched(t.subs[1], conditions)]
          || u.subs == [Enriched(t.subs[1], conditions), Enriched(t.subs[0], conditions)];
    } else if |t.subs| == 1 {
      TablesStay(t.subs[0], conditions);
      assert u.subs[1..] == [] && TablesOfAll([]) == {};
    }
  }

  /** At every join the left table is below child 0 and the right table below child 1, and they are the condition's. */
  predicate Sided(u: Plan) {
    && (u.data.Join? ==>
          && |u.subs| == 2 && u.data.condition.Some?
          && u.data.leftTable == u.data.condition.value.first && u.data.rightTable == u.data.condition.value.second
          && u.data.leftTable in TablesOf(u.subs[0]) && u.data.rightTable in TablesOf(u.subs[1]))
    && forall i :: 0 <= i < |u.subs| ==> Sided(u.subs[i])
  }

  lemma {:induction false} EnrichedIsSided(t: Plan, conditions: seq<Condition>)
    requires JoinTree(t) && Linked(t, conditions)
    ensures Sided(Enriched(t, conditions))
  {
    SubTables(t);
    forall i | 0 <= i < |t.subs|
      ensures Sided(Enriched(t.subs[i], conditions)) && TablesOf(Enriched(t.subs[i], conditions)) == TablesOf(t.subs[i])
    {
      SubLinked(t, conditions, i);
      EnrichedIsSided(t.subs[i], conditions);
      TablesStay(t.subs[i], conditions);
    }
    SidedHere(t, conditions);
  }

  lemma SubLinked(t: Plan, conditions: seq<Condition>, i: nat)
    requires JoinTree(t) && Linked(t, conditions) && i < |t.subs|
    ensures JoinTree(t.subs[i]) && Linked(t.subs[i], conditions)
  {
    assert |t.subs| == 2 ==> i == 0 || i == 1;
  }

  lemma SidedHere(t: Plan, conditions: seq<Condition>)
    requires JoinTree(t) && Linked(t, conditions) && |t.subs| <= 2
    requires forall i :: 0 <= i < |t.subs| ==>
               Sided(Enriched(t.subs[i], conditions))
               && TablesOf(Enriched(t.subs[i], conditions)) == TablesOf(t.subs[i])
    ensures Sided(Enriched(t, conditions))
  {
    var subs := EnrichedAll(t.subs, conditions);
    if |t.subs| == 2 {
      assert subs == [Enriched(t.subs[0], conditions), Enriched(t.subs[1], conditions)];
    }
  }

  // -------------------------------------------------------------------------------------------
  // Joins and conditions correspond
  // -------------------------------------------------------------------------------------------

  /** The conditions given to the joins. */
  function Assigned(u: Plan): seq<Condition> {
    (if u.data.Join? && u.data.condition.Some? then [u.data.condition.value] else [])
    + (if |u.subs| > 0 then Assigned(u.subs[0]) else [])
    + (if |u.subs| > 1 then Assigned(u.subs[1]) else [])
  }

  predicate Distinct(cs: seq<Condition>) {
    forall i, j :: 0 <= i < j < |cs| ==> cs[i] != cs[j]
  }

  predicate Within(cs: seq<Condition>, tables: set<string>) {
    forall c :: c in cs ==> c.first in tables && c.second in tables && c.first != c.second
  }

  lemma AssignedHere(t: Plan, conditions: seq<Condition>)
    requires JoinTree(t) && Linked(t, conditions) && t.data.Join?
    ensures |t.subs| == 2
    ensures var k := FirstCrossing(conditions, TablesOf(t.subs[0]), TablesOf(t.subs[1]));
            var u := Enriched(t, conditions);
            var a, b := Assigned(Enriched(t.subs[0], conditions)), Assigned(Enriched(t.subs[1], conditions));
            k < |conditions| && (Assigned(u) == [conditions[k]] + a + b || Assigned(u) == [conditions[k]] + b + a)
  {
  }

  /** One condition fewer than tables, no two alike, all between these tables. */
  predicate OnePerJoin(cs: seq<Condition>, tables: set<string>, conditions: seq<Condition>) {
    Distinct(cs) && Within(cs, tables) && (forall c :: c in cs ==> c in conditions) && |cs| + 1 == |tables|
  }

  /** Every condition given out belongs to the tables below; no two joins get the same one. */
  lemma {:induction false} AssignedDistinct(t: Plan, conditions: seq<Condition>)
    requires JoinTree(t) && Linked(t, conditions)
    ensures OnePerJoin(Assigned(Enriched(t, conditions)), TablesOf(t), conditions)
  {
    SubTables(t);
    if t.data.Join? {
      AssignedHere(t, conditions);
      AssignedDistinct(t.subs[0], conditions);
      AssignedDistinct(t.subs[1], conditions);
      var left, right := TablesOf(t.subs[0]), TablesOf(t.subs[1]);
      var a, b := Assigned(Enriched(t.subs[0], conditions)), Assigned(Enriched(t.subs[1], conditions));
      var c := conditions[FirstCrossing(conditions, left, right)];
      Combined(c, a, b, left, right, conditions);
      Combined(c, b, a, right, left, conditions);
    } else if |t.subs| == 1 {
      AssignedDistinct(t.subs[0], conditions);
      assert [] + Assigned(Enriched(t.subs[0], conditions)) + [] == Assigned(Enriched(t.subs[0], conditions));
    }
  }

  lemma Combined(c: Condition, a: seq<Condition>, b: seq<Condition>, left: set<string>, right: set<string>,
                 conditions: seq<Condition>)
    requires left !! right && Crosses(c, left, right) && c in conditions
    requires OnePerJoin(a, left, conditions) && OnePerJoin(b, right, conditions)
    ensures OnePerJoin([c] + a + b, left + right, conditions)
  {
    Disjointly(c, a, b, left, right);
    assert forall x :: x in [c] + a + b ==> x == c || x in a || x in b;
    assert |left + right| == |left| + |right|;
  }

  lemma Disjointly(c: Condition, a: seq<Condition>, b: seq<Condition>, left: set<string>, right: set<string>)
    requires left !! right && Crosses(c, left, right) && Within(a, left) && Within(b, right) && Distinct(a)
             && Distinct(b)
    ensures Distinct([c] + a + b) && Within([c] + a + b, left + right)
  {
  }

  function SetOf(cs: seq<Condition>): set<Condition> {
    set c | c in cs
  }

  lemma {:induction false} DistinctSize(cs: seq<Condition>)
    requires Distinct(cs)
    ensures |SetOf(cs)| == |cs|
  {
    if cs != [] {
      var k := |cs| - 1;
      DistinctSize(cs[..k]);
      assert SetOf(cs) == SetOf(cs[..k]) + {cs[k]};
    }
  }

  lemma SubsetOfSameSize<T>(a: set<T>, b: set<T>)
    requires a <= b && |a| == |b|
    ensures a == b
  {
    assert b == a + (b - a);
    assert |b - a| == 0;
  }

  /** Conditions between two tables of the plan. */
  function LinkingConditions(t: Plan, conditions: seq<Condition>): set<Condition> {
    set c | c in conditions && c.first in TablesOf(t) && c.second in TablesOf(t) && c.first != c.second
  }

  /** With one linking condition fewer than tables, joins and linking conditions correspond one to one. */
  lemma Bijection(t: Plan, conditions: seq<Condition>)
    requires JoinTree(t) && Linked(t, conditions)
    requires |LinkingConditions(t, conditions)| == |TablesOf(t)| - 1
    ensures var cs := Assigned(Enriched(t, conditions)); Distinct(cs) && SetOf(cs) == LinkingConditions(t, conditions)
  {
    var cs := Assigned(Enriched(t, conditions));
    AssignedDistinct(t, conditions);
    DistinctSize(cs);
    assert SetOf(cs) <= LinkingConditions(t, conditions);
    SubsetOfSameSize(SetOf(cs), LinkingConditions(t, conditions));
  }

  // -------------------------------------------------------------------------------------------
  // Filters
  // -------------------------------------------------------------------------------------------

  function Times(cs: seq<Condition>, c: Condition): nat {
    if cs == [] then 0 else Times(cs[..|cs| - 1], c) + if cs[|cs| - 1] == c then 1 else 0
  }

  /** How often `c` is a filter of the source of `table`. */
  function FilterCount(u: Plan, table: string, c: Condition): nat {
    (if u.data.Source? && u.data.basetable == table then Times(u.data.filters, c) else 0)
    + (if |u.subs| > 0 then FilterCount(u.subs[0], table, c) else 0)
    + (if |u.subs| > 1 then FilterCount(u.subs[1], table, c) else 0)
  }

  lemma {:induction false} TimesConcat(a: seq<Condition>, b: seq<Condition>, c: Condition)
    ensures Times(a + b, c) == Times(a, c) + Times(b, c)
  {
    if b == [] {
      assert a + b == a;
    } else {
      TimesConcat(a, b[..|b| - 1], c);
      assert (a + b)[..|a + b| - 1] == a + b[..|b| - 1];
    }
  }

  lemma {:induction false} FiltersExactly(conditions: seq<Condition>, table: string, c: Condition)
    ensures Times(FiltersFor(conditions, table), c) == if c.tables == {table} then Times(conditions, c) else 0
  {
    if conditions != [] {
      var k := |conditions| - 1;
      var last := if conditions[k].tables == {table} then [conditions[k]] else [];
      FiltersExactly(conditions[..k], table, c);
      TimesConcat(FiltersFor(conditions[..k], table), last, c);
      assert FiltersFor(conditions, table) == FiltersFor(conditions[..k], table) + last;
      assert [conditions[k]][..0] == [] && Times([], c) == 0;
      assert Times(last, c) == if conditions[k].tables == {table} && conditions[k] == c then 1 else 0;
    }
  }

  /** A condition on one table is added at that table's source, as often as it is stated, and at no other source. */
  lemma {:induction false} FiltersLand(t: Plan, conditions: seq<Condition>, table: string, c: Condition)
    requires JoinTree(t)
    ensures FilterCount(Enriched(t, conditions), table, c) ==
            FilterCount(t, table, c) + if table in TablesOf(t) && c.tables == {table} then Times(conditions, c) else 0
  {
    SubTables(t);
    if |t.subs| == 2 {
      FiltersLand(t.subs[0], conditions, table, c);
      FiltersLand(t.subs[1], conditions, table, c);
    } else if |t.subs| == 1 {
      FiltersLand(t.subs[0], conditions, table, c);
    } else {
      FiltersExactly(conditions, t.data.basetable, c);
      TimesConcat(t.data.filters, FiltersFor(conditions, t.data.basetable), c);
    }
  }

  // -------------------------------------------------------------------------------------------
  // Nothing else changes
  // -------------------------------------------------------------------------------------------

  /** The first condition that links the sides of this join names its right side first. */
  predicate Turns(t: Plan, conditions: seq<Condition>) {
    t.data.Join? && |t.subs| == 2 &&
    var left, right := TablesOf(t.subs[0]), TablesOf(t.subs[1]);
    var k := FirstCrossing(conditions, left, right);
    k < |conditions| && !(conditions[k].first in left && conditions[k].second in right)
  }

  /** The same object with the same raw data; a source may have got filters, a join its condition. */
  ghost predicate NodeKept(t: Plan, u: Plan, conditions: seq<Condition>) {
    && u.at == t.at && u.raw == t.raw && |u.subs| == |t.subs|
    && if t.data.Source? then
         && u.data.Source? && u.data.basetable == t.data.basetable && t.data.filters <= u.data.filters
         && forall c :: c in u.data.filters[|t.data.filters|..] <==> c in conditions && c.tables == {t.data.basetable}
       else if t.data.Join? && |t.subs| == 2 then
         u.data == t.data
         || (u.data.Join? && u.data.condition.Some? && u.data.condition.value in conditions
             && u.data.leftTable == u.data.condition.value.first && u.data.rightTable == u.data.condition.value.second)
       else u.data == t.data
  }

  /** Node by node; the children of a join change places exactly if its condition is turned. */
  ghost predicate AllKept(t: Plan, u: Plan, conditions: seq<Condition>) {
    && NodeKept(t, u, conditions)
    && if Turns(t, conditions) then
         AllKept(t.subs[0], u.subs[1], conditions) && AllKept(t.subs[1], u.subs[0], conditions)
       else forall i :: 0 <= i < |t.subs| ==> AllKept(t.subs[i], u.subs[i], conditions)
  }

  lemma {:induction false} FiltersAre(conditions: seq<Condition>, table: string)
    ensures forall c :: c in FiltersFor(conditions, table) <==> c in conditions && c.tables == {table}
  {
    if conditions != [] {
      var k := |conditions| - 1;
      FiltersAre(conditions[..k], table);
      assert conditions == conditions[..k] + [conditions[k]];
    }
  }

  /** Whatever the query: sorts, aggregates and all other nodes keep their data, and no node is lost or moved. */
  lemma {:induction false} EnrichedKeeps(t: Plan, conditions: seq<Condition>)
    ensures AllKept(t, Enriched(t, conditions), conditions)
  {
    var subs := EnrichedAll(t.subs, conditions);
    forall i | 0 <= i < |t.subs| ensures AllKept(t.subs[i], subs[i], conditions) {
      EnrichedKeeps(t.subs[i], conditions);
    }
    if t.data.Source? {
      FiltersAre(conditions, t.data.basetable);
      var added := FiltersFor(conditions, t.data.basetable);
      assert (t.data.filters + added)[|t.data.filters|..] == added;
    }
    assert NodeKept(t, Enriched(t, conditions), conditions);
  }

  // -------------------------------------------------------------------------------------------
  // The pass, in place
  // -------------------------------------------------------------------------------------------

  lemma {:induction false} NodesStay(t: Plan, conditions: seq<Condition>)
    ensures Nodes(Enriched(t, conditions)) == Nodes(t)
    decreases t, 1
  {
    NodesOfStay(t.subs, conditions);
    var u, subs := Enriched(t, conditions), EnrichedAll(t.subs, conditions);
    if |subs| == 2 {
      assert subs == [subs[0], subs[1]];
      PairSwapped(subs[0], subs[1]);
    }
  }

  lemma {:induction false} NodesOfStay(ts: seq<Plan>, conditions: seq<Condition>)
    ensures NodesOf(EnrichedAll(ts, conditions)) == NodesOf(ts)
    decreases ts, 0
  {
    if ts != [] {
      NodesStay(ts[0], conditions);
      NodesOfStay(ts[1..], conditions);
    }
  }

  /** Every child in turn, collecting its tables. */
  method EnrichChildren(children: seq<JsonNode>, conditions: seq<Condition>, ghost ts: seq<Plan>)
    returns (sets: seq<set<string>>, tables: set<string>)
    requires AllHold(ts) && |children| == |ts| && forall i :: 0 <= i < |ts| ==> children[i] == ts[i].at
    modifies NodesOf(ts)
    ensures AllHold(EnrichedAll(ts, conditions)) && tables == TablesOfAll(ts)
    ensures |sets| == |ts| && forall i :: 0 <= i < |ts| ==> sets[i] == TablesOf(ts[i])
    decreases ts, 0
  {
    if children == [] {
      return [], {};
    }
    assert old(allocated(Nodes(ts[0]))) && old(allocated(NodesOf(ts[1..])));
    NodesStay(ts[0], conditions);
    NodesOfStay(ts[1..], conditions);
    var first := EnrichTree(children[0], conditions, ts[0]);
    assert allocated(Nodes(ts[0]));
    label first:
    var rest, others := EnrichChildren(children[1..], conditions, ts[1..]);
    Stays@first(Enriched(ts[0], conditions));
    sets, tables := [first] + rest, first + others;
    assert EnrichedAll(ts, conditions)[1..] == EnrichedAll(ts[1..], conditions);
  }

  /** The conditions on this base table alone are pushed onto the source. */
  method AddFilters(node: JsonNode, conditions: seq<Condition>)
    requires node.data.Source?
    modifies node`data
    ensures node.data == Source(old(node.data.basetable),
                                old(node.data.filters) + FiltersFor(conditions, old(node.data.basetable)))
  {
    ghost var filters := node.data.filters;
    for k := 0 to |conditions|
      invariant node.data
                == Source(old(node.data.basetable), filters + FiltersFor(conditions[..k], old(node.data.basetable)))
    {
      assert conditions[..k + 1][..k] == conditions[..k];
      if conditions[k].tables == {node.data.basetable} {
        node.data := Source(node.data.basetable, node.data.filters + [conditions[k]]);
      }
    }
    assert conditions[..|conditions|] == conditions;
  }

  /** The first condition that links the two sides goes to the join; a swapped one swaps the children. */
  method FindCondition(node: JsonNode, conditions: seq<Condition>, left: set<string>, right: set<string>)
    requires node.data.Join? && |node.children| == 2
    modifies node`data, node`children
    ensures var k := FirstCrossing(conditions, left, right);
            if k == |conditions| then node.data == old(node.data) && node.children == old(node.children)
            else
              var c := conditions[k];
              && node.data == Join(Some(c), c.first, c.second)
              && node.children == if c.first in left && c.second in right then old(node.children)
                                  else [old(node.children[1]), old(node.children[0])]
  {
    for k := 0 to |conditions|
      invariant node.data == old(node.data) && node.children == old(node.children)
      invariant forall i :: 0 <= i < k ==> !Crosses(conditions[i], left, right)
    {
      var c := conditions[k];
      var normal, swapped := c.first in left && c.second in right, c.second in left && c.first in right;
      if normal || swapped {
        node.data := Join(Some(c), c.first, c.second);
        if !normal {
          node.children := [node.children[1], node.children[0]];
        }
        break;
      }
    }
  }

  /** A source takes its filters, a join its condition. */
  method EnrichHere(node: JsonNode, conditions: seq<Condition>, sets: seq<set<string>>, ghost t: Plan)
    requires node == t.at && node.raw == t.raw && node.data == t.data && |node.children| == |t.subs|
    requires forall i :: 0 <= i < |t.subs| ==> node.children[i] == t.subs[i].at
    requires |sets| == |t.subs| && forall i :: 0 <= i < |t.subs| ==> sets[i] == TablesOf(t.subs[i])
    requires AllHold(EnrichedAll(t.subs, conditions)) && node !in NodesOf(EnrichedAll(t.subs, conditions))
    modifies node
    ensures Holds(Enriched(t, conditions))
  {
    ghost var subs := EnrichedAll(t.subs, conditions);
    assert old(allocated(NodesOf(subs)));
    label below:
    if node.data.Source? {
      AddFilters(node, conditions);
      AllStay@below(subs);
    } else if node.data.Join? && |sets| == 2 {
      FindCondition(node, conditions, sets[0], sets[1]);
      AllStay@below(subs);
      assert subs == [subs[0], subs[1]];
      PairSwapped(subs[0], subs[1]);
    }
  }

  method EnrichTree(node: JsonNode, conditions: seq<Condition>, ghost t: Plan) returns (tables: set<string>)
    requires Holds(t) && node == t.at
    modifies Nodes(t)
    ensures Holds(Enriched(t, conditions)) && tables == TablesOf(t)
    ensures AllKept(t, Enriched(t, conditions), conditions)
    decreases t, |t.subs| + 1
  {
    EnrichedKeeps(t, conditions);
    assert old(allocated(NodesOf(t.subs)));
    NodesOfStay(t.subs, conditions);
    var sets;
    sets, tables := EnrichChildren(node.children, conditions, t.subs);
    if node.data.Source? {
      tables := {node.data.basetable};
    }
    EnrichHere(node, conditions, sets, t);
  }
}
