/**
 Plans read from the database's JSON output: mutable nodes, and the tree they form.
 */
module QueryPlan {

  datatype Option<T> = None | Some(value: T)

  /** What the JSON says about a node. */
  datatype Raw = Raw(nodeType: string, baseTable: Option<string>, filter: Option<string>, index: string)

  /** A condition of the query: the tables left and right of its equals sign, and all tables it mentions. */
  datatype Condition = Condition(text: string, first: string, second: string, tables: set<string>)

  datatype Abstract =
    | Blank
    | Join(condition: Option<Condition>, leftTable: string, rightTable: string)
    | Agg
    | Sort
    | Source(basetable: string, filters: seq<Condition>)
    | Result

  class JsonNode {
    var raw: Option<Raw>
    var data: Abstract
    var children: seq<JsonNode>

    constructor (raw: Option<Raw>, children: seq<JsonNode>)
      ensures this.raw == raw && data == Blank && this.children == children
    {
      this.raw, data, this.children := raw, Blank, children;
    }
  }

  /** A plan, and the objects that hold it. */
  datatype Plan = Plan(at: JsonNode, raw: Option<Raw>, data: Abstract, subs: seq<Plan>)

  ghost function Nodes(t: Plan): (r: set<JsonNode>)
    ensures t.at in r
  {
    {t.at} + NodesOf(t.subs)
  }

  ghost function NodesOf(ts: seq<Plan>): set<JsonNode> {
    if ts == [] then {} else Nodes(ts[0]) + NodesOf(ts[1..])
  }

  /** The objects form exactly this tree. */
  ghost predicate Holds(t: Plan)
    reads Nodes(t)
  {
    && t.at.raw == t.raw && t.at.data == t.data && |t.at.children| == |t.subs|
    && (forall i :: 0 <= i < |t.subs| ==> t.at.children[i] == t.subs[i].at)
    && t.at !in NodesOf(t.subs) && AllHold(t.subs)
  }

  ghost predicate AllHold(ts: seq<Plan>)
    reads NodesOf(ts)
  {
    ts == [] || (Holds(ts[0]) && Nodes(ts[0]) !! NodesOf(ts[1..]) && AllHold(ts[1..]))
  }

  /** A tree stays as it is when none of its objects change. */
  twostate lemma Stays(t: Plan)
    requires old(allocated(t)) && old(allocated(Nodes(t))) && old(Holds(t)) && unchanged(Nodes(t))
    ensures Holds(t)
  {
  }

  twostate lemma AllStay(ts: seq<Plan>)
    requires old(allocated(ts)) && old(allocated(NodesOf(ts))) && old(AllHold(ts)) && unchanged(NodesOf(ts))
    ensures AllHold(ts)
  {
  }

  lemma {:induction false} MemberNodes(ts: seq<Plan>, k: nat)
    requires k < |ts|
    ensures Nodes(ts[k]) <= NodesOf(ts)
  {
    if k > 0 {
      MemberNodes(ts[1..], k - 1);
    }
  }

  /** Exchanging the two children of a node. */
  lemma PairSwapped(a: Plan, b: Plan)
    ensures NodesOf([a, b]) == Nodes(a) + Nodes(b) == NodesOf([b, a])
    ensures AllHold([a, b]) <==> Holds(a) && Holds(b) && Nodes(a) !! Nodes(b)
    ensures AllHold([a, b]) ==> AllHold([b, a])
  {
    assert [a, b][1..] == [b] && [b, a][1..] == [a];
    assert NodesOf([b]) == Nodes(b) + NodesOf([]) && NodesOf([a]) == Nodes(a) + NodesOf([]);
  }
}
