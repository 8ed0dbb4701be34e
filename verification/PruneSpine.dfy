/**
 What pruning leaves of a plan, told without trees: the nodes down the left spine, the bitmap scans
 at its foot, and the subtrees that branch off it.
 */
module PruneSpine {
  import opened QueryPlan
  import opened Prune

  type Line = seq<Option<Raw>>

  /** The nodes from the root down the first children, bitmap scans apart. */
  function Spine(t: Plan): Line {
    if Is(t.raw, BITMAP) then [] else [t.raw] + if t.subs == [] then [] else Spine(t.subs[0])
  }

  /** The bitmap scans the spine ends in. */
  function Foot(t: Plan): Line {
    (if Is(t.raw, BITMAP) then [t.raw] else []) + if t.subs == [] then [] else Foot(t.subs[0])
  }

  /** The subtrees that branch off the spine. */
  function Branches(t: Plan): seq<Plan> {
    if t.subs == [] then [] else t.subs[1..] + Branches(t.subs[0])
  }

  function But(line: Line, types: set<string>): Line {
    if line == [] then []
    else if Is(line[0], types) then But(line[1..], types)
    else [line[0]] + But(line[1..], types)
  }

  function ButFirst(line: Line, types: set<string>): Line {
    if line == [] then []
    else if Is(line[0], types) then line[1..]
    else [line[0]] + ButFirst(line[1..], types)
  }

  // -------------------------------------------------------------------------------------------
  // What is to stay
  // -------------------------------------------------------------------------------------------

  /** Reading down, every Gather claims the next Aggregate that is not claimed yet; `pending` are still to be served. */
  function Unclaimed(line: Line, pending: nat): Line {
    if line == [] then []
    else if Is(line[0], GATHER) then Unclaimed(line[1..], pending + 1)
    else if Is(line[0], AGGREGATE) && pending > 0 then Unclaimed(line[1..], pending - 1)
    else if Is(line[0], HASH + SORT) then Unclaimed(line[1..], pending)
    else [line[0]] + Unclaimed(line[1..], pending)
  }

  /** Of the Sorts the topmost stays; Aggregates do not show here. */
  function TopSort(line: Line, sorted: bool): Line {
    if line == [] then []
    else if Is(line[0], HASH + GATHER + AGGREGATE) || (sorted && Is(line[0], SORT)) then TopSort(line[1..], sorted)
    else [line[0]] + TopSort(line[1..], sorted || Is(line[0], SORT))
  }

  /** The first filter and the first index on the way down. */
  function FirstFilter(line: Line): Option<string> {
    if line == [] then None
    else if line[0].Some? && line[0].value.filter.Some? then line[0].value.filter
    else FirstFilter(line[1..])
  }

  function FirstIndex(line: Line): string {
    if line == [] then ""
    else if line[0].Some? && line[0].value.index != "" then line[0].value.index
    else FirstIndex(line[1..])
  }

  /** One bitmap scan stands for all, with the first filter and the first index. */
  predicate OneFoot(foot: Line, left: Line) {
    if foot == [] then left == [] else
      && |left| == 1 && left[0].Some? && foot[0].Some?
      && left[0].value == Raw(foot[0].value.nodeType, foot[0].value.baseTable, FirstFilter(foot), FirstIndex(foot))
  }

  /** No Aggregate stands directly on a Sort. */
  predicate SortsOnTop(t: Plan) {
    && (Is(t.raw, AGGREGATE) && t.subs != [] ==> !Is(t.subs[0].raw, SORT))
    && forall i :: 0 <= i < |t.subs| ==> SortsOnTop(t.subs[i])
  }

  /** What is left of a line, once without its Sorts and once without its Aggregates. */
  predicate LineTo(line: Line, left: Line) {
    But(left, SORT) == Unclaimed(line, 0) && But(left, AGGREGATE) == TopSort(line, false)
  }

  /**
   What pruning makes of a plan.  As no Aggregate stands directly on a Sort, `LineTo` leaves one order for the
   nodes of the spine.
   */
  predicate PrunedTo(t: Plan, u: Plan) {
    && LineTo(Spine(t), Spine(u))
    && OneFoot(Foot(t), Foot(u))
    && Branches(u) == PrunedAll(Branches(t))
    && SortsOnTop(u)
  }

  // -------------------------------------------------------------------------------------------
  // Lines
  // -------------------------------------------------------------------------------------------

  lemma Head(x: Option<Raw>, rest: Line, types: set<string>)
    ensures ButFirst([x] + rest, types) == if Is(x, types) then rest else [x] + ButFirst(rest, types)
    ensures But([x] + rest, types) == if Is(x, types) then But(rest, types) else [x] + But(rest, types)
  {
    assert ([x] + rest)[1..] == rest;
  }

  /** A pending Gather takes the first Aggregate that would have stayed. */
  lemma {:induction false} ClaimOne(line: Line, pending: nat)
    ensures Unclaimed(line, pending + 1) == ButFirst(Unclaimed(line, pending), AGGREGATE)
  {
    if line != [] {
      if Is(line[0], GATHER) {
        ClaimOne(line[1..], pending + 1);
      } else if Is(line[0], AGGREGATE) && pending > 0 {
        ClaimOne(line[1..], pending - 1);
      } else {
        if !Is(line[0], AGGREGATE) { ClaimOne(line[1..], pending); }
        Head(line[0], Unclaimed(line[1..], pending), AGGREGATE);
      }
    }
  }

  lemma {:induction false} SortOnce(line: Line)
    ensures TopSort(line, true) == ButFirst(TopSort(line, false), SORT)
  {
    if line != [] {
      if Is(line[0], SORT) {
        Head(line[0], TopSort(line[1..], true), SORT);
      } else {
        SortOnce(line[1..]);
        Head(line[0], TopSort(line[1..], false), SORT);
      }
    }
  }

  lemma {:induction false} ButOf(line: Line, first: set<string>, types: set<string>)
    requires first == types || first !! types
    ensures But(ButFirst(line, first), types)
            == if first == types then But(line, types) else ButFirst(But(line, types), first)
  {
    if line != [] {
      if !Is(line[0], first) {
        ButOf(line[1..], first, types);
        Head(line[0], ButFirst(line[1..], first), types);
      }
      Head(line[0], But(line[1..], types), first);
    }
  }

  lemma HashLine(x: Option<Raw>, line: Line, left: Line)
    requires Is(x, HASH) && LineTo(line, left)
    ensures LineTo([x] + line, left)
  {
    assert ([x] + line)[1..] == line;
  }

  lemma GatherLine(x: Option<Raw>, line: Line, left: Line)
    requires Is(x, GATHER) && LineTo(line, left)
    ensures LineTo([x] + line, ButFirst(left, AGGREGATE))
  {
    assert ([x] + line)[1..] == line;
    ButOf(left, AGGREGATE, SORT);
    ButOf(left, AGGREGATE, AGGREGATE);
    ClaimOne(line, 0);
  }

  lemma SortLine(x: Option<Raw>, line: Line, left: Line)
    requires Is(x, SORT) && LineTo(line, left)
    ensures LineTo([x] + line, [x] + ButFirst(left, SORT))
  {
    assert ([x] + line)[1..] == line;
    ButOf(left, SORT, SORT);
    ButOf(left, SORT, AGGREGATE);
    SortOnce(line);
    Head(x, ButFirst(left, SORT), SORT);
    Head(x, ButFirst(left, SORT), AGGREGATE);
  }

  lemma OtherLine(x: Option<Raw>, line: Line, left: Line)
    requires !Is(x, HASH) && !Is(x, GATHER) && !Is(x, SORT) && LineTo(line, left)
    ensures LineTo([x] + line, [x] + left)
  {
    assert ([x] + line)[1..] == line;
    Head(x, left, SORT);
    Head(x, left, AGGREGATE);
  }

  /** Exchanging an Aggregate and the Sort below it shows on neither side. */
  lemma ExchangeLine(x: Option<Raw>, y: Option<Raw>, line: Line, left: Line)
    requires Is(x, AGGREGATE) && Is(y, SORT) && LineTo(line, [x] + ([y] + left))
    ensures LineTo(line, [y] + ([x] + left))
  {
    Head(x, [y] + left, SORT);
    Head(x, [y] + left, AGGREGATE);
    Head(y, [x] + left, SORT);
    Head(y, [x] + left, AGGREGATE);
    Head(x, left, SORT);
    Head(x, left, AGGREGATE);
    Head(y, left, SORT);
    Head(y, left, AGGREGATE);
  }

  lemma {:induction false} PrunedConcat(ts: seq<Plan>, us: seq<Plan>)
    ensures PrunedAll(ts + us) == PrunedAll(ts) + PrunedAll(us)
  {
    if ts == [] {
      assert ts + us == us;
    } else {
      assert (ts + us)[1..] == ts[1..] + us;
      PrunedConcat(ts[1..], us);
    }
  }

  /** In a line: no Aggregate directly before a Sort. */
  predicate SortsFirst(line: Line) {
    forall i :: 0 <= i < |line| - 1 ==> !(Is(line[i], AGGREGATE) && Is(line[i + 1], SORT))
  }

  lemma {:induction false} BehindAggregate(line: Line)
    requires SortsFirst(line) && line != [] && Is(line[0], AGGREGATE) && But(line, AGGREGATE) != []
    ensures !Is(But(line, AGGREGATE)[0], SORT)
  {
    if |line| > 1 && Is(line[1], AGGREGATE) {
      BehindAggregate(line[1..]);
    }
  }

  /** What is left without Sorts and what is left without Aggregates fix the line. */
  lemma {:induction false} OneOrder(l: Line, m: Line)
    requires SortsFirst(l) && SortsFirst(m)
    requires But(l, SORT) == But(m, SORT) && But(l, AGGREGATE) == But(m, AGGREGATE)
    ensures l == m
  {
    if l == [] || m == [] {
      SomethingLeft(l);
      SomethingLeft(m);
    } else {
      SameHead(l, m);
      SameTail(l, m, SORT);
      SameTail(l, m, AGGREGATE);
      OneOrder(l[1..], m[1..]);
    }
  }

  lemma SameHead(l: Line, m: Line)
    requires SortsFirst(l) && SortsFirst(m) && l != [] && m != []
    requires But(l, SORT) == But(m, SORT) && But(l, AGGREGATE) == But(m, AGGREGATE)
    ensures l[0] == m[0]
  {
    assert !Is(l[0], SORT) ==> But(l, SORT)[0] == l[0];
    assert !Is(m[0], SORT) ==> But(m, SORT)[0] == m[0];
    assert !Is(l[0], AGGREGATE) ==> But(l, AGGREGATE)[0] == l[0];
    assert !Is(m[0], AGGREGATE) ==> But(m, AGGREGATE)[0] == m[0];
    if Is(l[0], AGGREGATE) && But(l, AGGREGATE) != [] { BehindAggregate(l); }
    if Is(m[0], AGGREGATE) && But(m, AGGREGATE) != [] { BehindAggregate(m); }
  }

  lemma SameTail(l: Line, m: Line, types: set<string>)
    requires l != [] && m != [] && l[0] == m[0] && But(l, types) == But(m, types)
    ensures But(l[1..], types) == But(m[1..], types)
  {
    if !Is(l[0], types) {
      assert But(l, types)[1..] == But(l[1..], types) && But(m, types)[1..] == But(m[1..], types);
    }
  }

  lemma SomethingLeft(line: Line)
    ensures line != [] ==> But(line, SORT) != [] || But(line, AGGREGATE) != []
  {
  }

  /** How many Aggregates there are. */
  function Aggregates(line: Line): nat {
    if line == [] then 0 else Aggregates(line[1..]) + if Is(line[0], AGGREGATE) then 1 else 0
  }

  lemma {:induction false} AggregatesLeft(line: Line)
    ensures Aggregates(But(line, SORT)) == Aggregates(line)
    ensures Aggregates(ButFirst(line, AGGREGATE)) == if Aggregates(line) > 0 then Aggregates(line) - 1 else 0
  {
    if line != [] {
      AggregatesLeft(line[1..]);
      assert line == [line[0]] + line[1..];
      Head(line[0], line[1..], AGGREGATE);
    }
  }

  // -------------------------------------------------------------------------------------------
  // Trees
  // -------------------------------------------------------------------------------------------

  lemma {:induction false} WithoutSpine(t: Plan, types: set<string>)
    requires Shaped(t) && (types == AGGREGATE || types == SORT)
    ensures var u := Without(t, types);
            Spine(u) == ButFirst(Spine(t), types) && Foot(u) == Foot(t) && Branches(u) == Branches(t)
  {
    if !Is(t.raw, types) && t.subs != [] {
      WithoutSpine(t.subs[0], types);
    }
  }

  lemma {:induction false} WithoutSorted(t: Plan, types: set<string>)
    requires Shaped(t) && SortsOnTop(t) && (types == AGGREGATE || types == SORT)
    ensures SortsOnTop(Without(t, types))
    ensures !Is(t.raw, types) ==> Without(t, types).raw == t.raw
  {
    if !Is(t.raw, types) && t.subs != [] {
      WithoutSorted(t.subs[0], types);
    }
  }

  /** A node over a finished child. */
  predicate Over(t: Plan, t': Plan) {
    && Shaped(t) && TidyBelow(t') && t'.raw == t.raw && t'.subs == PrunedAll(t.subs)
    && (t.subs != [] ==> PrunedTo(t.subs[0], t'.subs[0]))
    && forall i :: 0 <= i < |t.subs| ==> SortsOnTop(t'.subs[i])
  }

  lemma NodeParts(t: Plan)
    requires t.subs != [] && !Is(t.raw, BITMAP)
    ensures Spine(t) == [t.raw] + Spine(t.subs[0]) && Foot(t) == Foot(t.subs[0])
    ensures Branches(t) == t.subs[1..] + Branches(t.subs[0])
  {
  }

  lemma UnderHash(t: Plan, t': Plan)
    requires Over(t, t') && Is(t.raw, HASH)
    ensures PrunedTo(t, PrunedHere(t'))
  {
    NodeParts(t);
    HashLine(t.raw, Spine(t.subs[0]), Spine(t'.subs[0]));
  }

  lemma UnderGather(t: Plan, t': Plan)
    requires Over(t, t') && Is(t.raw, GATHER)
    ensures PrunedTo(t, PrunedHere(t'))
  {
    NodeParts(t);
    WithoutSpine(t'.subs[0], AGGREGATE);
    WithoutSorted(t'.subs[0], AGGREGATE);
    GatherLine(t.raw, Spine(t.subs[0]), Spine(t'.subs[0]));
  }

  lemma UnderSort(t: Plan, t': Plan)
    requires Over(t, t') && Is(t.raw, SORT)
    ensures PrunedTo(t, PrunedHere(t'))
  {
    var below := t'.subs[0];
    SortHere(t');
    var u := PrunedHere(t');
    assert u.raw == t.raw && u.subs == [Without(below, SORT)];
    NodeParts(t);
    NodeParts(u);
    WithoutSpine(below, SORT);
    WithoutSorted(below, SORT);
    SortLine(t.raw, Spine(t.subs[0]), Spine(below));
    assert SortsOnTop(u);
  }

  lemma SortHere(t: Plan)
    requires Is(t.raw, SORT) && |t.subs| == 1
    ensures PrunedHere(t) == t.(subs := [Without(t.subs[0], SORT)], data := Sort)
  {
  }

  lemma AggregateHere(t: Plan)
    requires Is(t.raw, AGGREGATE) && TidyBelow(t)
    ensures var below := t.subs[0];
            PrunedHere(t) ==
              if Is(below.raw, SORT) then Plan(t.at, below.raw, Sort, [Plan(below.at, t.raw, Agg, below.subs)])
              else t.(data := Agg)
  {
    assert Tidy(t.subs[0]) && t.subs[0].data == Convert(t.subs[0].raw.value);
  }

  lemma UnderRisen(t: Plan, t': Plan)
    requires Over(t, t') && Is(t.raw, AGGREGATE) && Is(t'.subs[0].raw, SORT)
    requires LineTo(Spine(t), [t.raw] + Spine(t'.subs[0]))
    ensures PrunedTo(t, PrunedHere(t'))
  {
    var below := t'.subs[0];
    NodeParts(t);
    AggregateHere(t');
    Risen(t'.at, t.raw, below);
    ExchangeLine(t.raw, below.raw, Spine(t), Spine(below.subs[0]));
  }

  lemma UnderStanding(t: Plan, t': Plan)
    requires Over(t, t') && Is(t.raw, AGGREGATE) && !Is(t'.subs[0].raw, SORT)
    requires LineTo(Spine(t), [t.raw] + Spine(t'.subs[0]))
    ensures PrunedTo(t, PrunedHere(t'))
  {
    AggregateHere(t');
    Standing(t, PrunedHere(t'));
  }

  /** An Aggregate that stays where it is. */
  lemma Standing(t: Plan, u: Plan)
    requires |t.subs| == |u.subs| == 1 && Is(t.raw, AGGREGATE) && u.raw == t.raw && !Is(u.subs[0].raw, SORT)
    requires PrunedTo(t.subs[0], u.subs[0]) && LineTo(Spine(t), [t.raw] + Spine(u.subs[0]))
    ensures PrunedTo(t, u)
  {
    NodeParts(t);
    NodeParts(u);
    assert [] + Branches(t.subs[0]) == Branches(t.subs[0]);
  }

  /** An Aggregate, with the Sort below it on top if there is one. */
  lemma UnderAggregate(t: Plan, t': Plan)
    requires Over(t, t') && Is(t.raw, AGGREGATE)
    ensures PrunedTo(t, PrunedHere(t'))
  {
    var below := t'.subs[0];
    NodeParts(t);
    OtherLine(t.raw, Spine(t.subs[0]), Spine(below));
    if Is(below.raw, SORT) {
      UnderRisen(t, t');
    } else {
      UnderStanding(t, t');
    }
  }

  /** A Sort that has risen over the Aggregate above it. */
  lemma Risen(at: JsonNode, raw: Option<Raw>, sort: Plan)
    requires Is(raw, AGGREGATE) && Is(sort.raw, SORT) && |sort.subs| == 1 && SpineSorts(sort) <= 1 && SortsOnTop(sort)
    ensures var u := Plan(at, sort.raw, Sort, [Plan(sort.at, raw, Agg, sort.subs)]);
            && SortsOnTop(u) && Foot(u) == Foot(sort) && Branches(u) == Branches(sort)
            && Spine(u) == [sort.raw] + ([raw] + Spine(sort.subs[0]))
            && Spine(sort) == [sort.raw] + Spine(sort.subs[0])
  {
    var lower := Plan(sort.at, raw, Agg, sort.subs);
    NodeParts(sort);
    NodeParts(lower);
    NodeParts(Plan(at, sort.raw, Sort, [lower]));
    assert SpineSorts(sort) == 1 + SpineSorts(sort.subs[0]);
  }

  lemma UnderBitmap(t: Plan, t': Plan)
    requires Over(t, t') && Is(t.raw, BITMAP)
    ensures PrunedTo(t, PrunedHere(t'))
  {
    if t.subs == [] {
      assert PrunedHere(t') == t'.(data := Convert(t.raw.value));
    } else {
      var lower := t'.subs[0];
      assert lower.subs == [] && Is(lower.raw, BITMAP);
      OneBitmap(t', lower);
    }
  }

  lemma OneBitmap(t: Plan, lower: Plan)
    requires t.subs == [lower] && Is(t.raw, BITMAP) && Is(lower.raw, BITMAP) && lower.subs == []
    ensures var u := PrunedHere(t);
            && u.subs == [] && u.raw == Some(Merged(t.raw.value, lower.raw.value))
            && Spine(u) == [] && Foot(u) == [u.raw] && Branches(u) == [] && SortsOnTop(u)
  {
  }

  /** Joins, base tables and all other nodes stay. */
  lemma UnderOther(t: Plan, t': Plan)
    requires Over(t, t') && !Is(t.raw, UNARY) && !Is(t.raw, BITMAP)
    ensures PrunedTo(t, PrunedHere(t'))
  {
    var u := t'.(data := Convert(t.raw.value));
    assert PrunedHere(t') == u;
    if t.subs == [] {
      OtherLine(t.raw, [], []);
    } else {
      NodeParts(t);
      NodeParts(u);
      OtherLine(t.raw, Spine(t.subs[0]), Spine(t'.subs[0]));
      assert t'.subs[1..] == PrunedAll(t.subs[1..]);
      PrunedConcat(t.subs[1..], Branches(t.subs[0]));
    }
  }

  /**
   Down the spine of the pruned plan: every Aggregate that no Gather claims, of the Sorts the topmost, all
   joins, base tables and other nodes, in their order but for Sorts that rise over Aggregates; one
   bitmap scan with the first filter and index; and the branches, pruned.
   */
  lemma {:induction false} SpinePruned(t: Plan)
    requires Shaped(t)
    ensures PrunedTo(t, Pruned(t))
  {
    var t' := t.(subs := PrunedAll(t.subs));
    forall i | 0 <= i < |t.subs| ensures PrunedTo(t.subs[i], t'.subs[i]) && ChildPruned(t.subs[i], t'.subs[i]) {
      SpinePruned(t.subs[i]);
      PruneKeepsSkeleton(t.subs[i]);
    }
    AfterChildren(t, t');
    assert Over(t, t');
    if Is(t.raw, HASH) { UnderHash(t, t'); }
    else if Is(t.raw, GATHER) { UnderGather(t, t'); }
    else if Is(t.raw, SORT) { UnderSort(t, t'); }
    else if Is(t.raw, AGGREGATE) { UnderAggregate(t, t'); }
    else if Is(t.raw, BITMAP) { UnderBitmap(t, t'); }
    else { UnderOther(t, t'); }
  }

  lemma {:induction false} SpineSortsFirst(t: Plan)
    requires SortsOnTop(t)
    ensures SortsFirst(Spine(t))
  {
    if t.subs != [] && !Is(t.raw, BITMAP) {
      SpineSortsFirst(t.subs[0]);
      assert Spine(t.subs[0]) != [] ==> Spine(t.subs[0])[0] == t.subs[0].raw;
    }
  }

  /** A line without Sorts under Aggregates that has what pruning leaves is the spine of the pruned plan. */
  lemma SpineIsFixed(t: Plan, line: Line)
    requires Shaped(t) && SortsFirst(line) && LineTo(Spine(t), line)
    ensures Spine(Pruned(t)) == line
  {
    SpinePruned(t);
    SpineSortsFirst(Pruned(t));
    OneOrder(Spine(Pruned(t)), line);
  }

  /** A Gather costs the Aggregate below it, if there is one; every other node keeps those below it. */
  lemma GatherCostsOne(t: Plan)
    requires Shaped(t) && t.subs != [] && !Is(t.raw, BITMAP)
    ensures var n, below := Aggregates(Spine(Pruned(t))), Aggregates(Spine(Pruned(t.subs[0])));
            n == if Is(t.raw, GATHER) then (if below > 0 then below - 1 else 0)
                 else if Is(t.raw, AGGREGATE) then below + 1 else below
  {
    SpinePruned(t);
    SpinePruned(t.subs[0]);
    NodeParts(t);
    AggregatesLeft(Spine(Pruned(t)));
    AggregatesLeft(Spine(Pruned(t.subs[0])));
    OneMoreNode(t.raw, Spine(t.subs[0]));
  }

  lemma OneMoreNode(x: Option<Raw>, line: Line)
    ensures var n, below := Aggregates(Unclaimed([x] + line, 0)), Aggregates(Unclaimed(line, 0));
            n == if Is(x, GATHER) then (if below > 0 then below - 1 else 0)
                 else if Is(x, AGGREGATE) then below + 1 else below
  {
    AggregatesLeft(Unclaimed(line, 0));
    assert ([x] + line)[1..] == line;
    ClaimOne(line, 0);
    assert ([x] + Unclaimed(line, 0))[1..] == Unclaimed(line, 0);
  }

  /** Of two Aggregates with a Gather between them the upper one stays, with its own data. */
  lemma UpperStays(upper: Option<Raw>, gather: Option<Raw>, partial: Option<Raw>, rest: Line)
    requires Is(upper, AGGREGATE) && Is(gather, GATHER) && Is(partial, AGGREGATE)
    ensures Unclaimed([upper, gather, partial] + rest, 0) == [upper] + Unclaimed(rest, 0)
  {
    var c := [partial] + rest;
    var b := [gather] + c;
    assert [upper, gather, partial] + rest == [upper] + b;
    assert ([upper] + b)[1..] == b && b[1..] == c && c[1..] == rest;
    assert Unclaimed(c, 1) == Unclaimed(rest, 0);
    assert Unclaimed(b, 0) == Unclaimed(c, 1);
  }

  /** The topmost Sort is the one that stays. */
  lemma {:induction false} TopmostStays(line: Line, k: nat)
    requires k < |line| && Is(line[k], SORT) && forall i :: 0 <= i < k ==> !Is(line[i], SORT)
    ensures forall x :: x in TopSort(line, false) && Is(x, SORT) ==> x == line[k]
    ensures line[k] in TopSort(line, false)
  {
    if k > 0 {
      TopmostStays(line[1..], k - 1);
    } else {
      NoSort(line[1..]);
    }
  }

  lemma {:induction false} NoSort(line: Line)
    ensures forall x :: x in TopSort(line, true) ==> !Is(x, SORT)
  {
    if line != [] {
      NoSort(line[1..]);
    }
  }
}
