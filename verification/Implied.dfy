/**
 Which equalities between columns follow from the join conditions of a WHERE clause.
 */
module ImpliedEqualities {
  import opened Ast
  import opened Pushdown

  type Name = (string, string)

  function Left(v: Val): Name
    requires v.Where?
  {
    (v.table, v.column)
  }

  function Right(v: Val): Name
    requires v.Where?
  {
    (v.table2, v.column2)
  }

  /** The first condition with one end inside, or none. */
  function Frontier(cs: seq<Val>, inside: set<Name>): (k: nat)
    requires AreJoins(cs)
    ensures k <= |cs|
    ensures k < |cs| ==> (Left(cs[k]) in inside) != (Right(cs[k]) in inside)
    ensures forall i :: 0 <= i < k ==> (Left(cs[i]) in inside <==> Right(cs[i]) in inside)
  {
    if cs == [] then 0
    else if (Left(cs[0]) in inside) != (Right(cs[0]) in inside) then 0
    else 1 + Frontier(cs[1..], inside)
  }

  /** The columns that the conditions connect to those inside. */
  function Spread(cs: seq<Val>, inside: set<Name>): set<Name>
    requires AreJoins(cs)
    decreases |cs|
  {
    var k := Frontier(cs, inside);
    if k == |cs| then inside else Spread(Without(cs, k), inside + {Left(cs[k]), Right(cs[k])})
  }

  function Without(cs: seq<Val>, k: nat): (r: seq<Val>)
    requires k < |cs|
    ensures |r| == |cs| - 1 && (forall v :: v in r ==> v in cs) && forall v :: v in cs ==> v == cs[k] || v in r
    ensures AreJoins(cs) ==> AreJoins(r)
  {
    cs[..k] + cs[k + 1..]
  }

  /** No condition leads out. */
  lemma {:induction false} SpreadCloses(cs: seq<Val>, inside: set<Name>)
    requires AreJoins(cs)
    ensures inside <= Spread(cs, inside)
    ensures forall v :: v in cs ==> (Left(v) in Spread(cs, inside) <==> Right(v) in Spread(cs, inside))
    decreases |cs|
  {
    var k := Frontier(cs, inside);
    if k < |cs| {
      SpreadCloses(Without(cs, k), inside + {Left(cs[k]), Right(cs[k])});
    }
  }

  /** Whatever holds inside and passes along the conditions holds of all of them. */
  lemma {:induction false} SpreadForced(cs: seq<Val>, inside: set<Name>, holds: iset<Name>)
    requires AreJoins(cs) && (forall n :: n in inside ==> n in holds)
    requires forall v :: v in cs ==> (Left(v) in holds <==> Right(v) in holds)
    ensures forall n :: n in Spread(cs, inside) ==> n in holds
    decreases |cs|
  {
    var k := Frontier(cs, inside);
    if k < |cs| {
      assert cs[k] in cs;
      SpreadForced(Without(cs, k), inside + {Left(cs[k]), Right(cs[k])}, holds);
    }
  }

  /** The ON condition of every inner join follows from the conditions. */
  predicate OnImplied(t: Plain, cs: seq<Val>)
    requires AreJoins(cs)
  {
    t.Node? ==>
      && (t.val.TableJoin? && t.val.joinType == "JOININNER" ==>
            (t.val.rightTable, t.val.rightColumn) in Spread(cs, {(t.val.leftTable, t.val.leftColumn)}))
      && OnImplied(t.left, cs) && OnImplied(t.right, cs)
  }
}
