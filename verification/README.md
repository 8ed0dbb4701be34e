# Verified model of the column-store query optimizer

The optimizer takes an SQL syntax tree or a database's JSON plan, rewrites it several times, turns
it into a physical plan of Fetch, Materialize, Filter, Join, Sort and Group nodes that exchange
columns and position lists, gives every column a fresh name, and emits the nodes in order. This
project models those rewrites and the runtime around them, and proves that each rewrite leaves the
answer of the query unchanged.

The models keep the form of the code. Passes that overwrite nodes are methods over mutable node
classes (`PlanNode`, `AstNode`, `JsonNode`), with a ghost tree that says which object holds which
node; loops stay loops; protocols are step systems. Each method is tied to a specification, and the
properties are proved about the specification for all inputs.

## How the physical plans are given a meaning

* A logical relation is a sequence of rows. A row maps each base table below to a row number and
  carries the values of Maps and folded aggregates (`PlanTree`). The execution engine is a
  parameter: any engine whose position lists point inside their inputs (`Relational.Engine.Sound`).
  `Textbook` shows that for an engine that filters in order and joins by nested loops this is
  ordinary relational algebra, and that such an engine exists.
* A physical node denotes its output columns, position lists or values. `PhysicalPlan` proves that
  a plan has exactly one denotation, and that the breadth-first search finds the right join side.
* `Rewiring.Correct` says what every materialization pass must achieve: child i of each operator
  denotes exactly input column i over the operator's input relation, same rows in the same order.
* `EagerMaterialization`, `LateMaterialization` (the V2 and the Hybrid pass are one method with a
  flag) and `GrandChildren` say for every plan whether the pass establishes `Correct` on it in
  place; `LatePlans` turns the late passes' part of the answer into a condition on the plan.
  `Agreement` runs two passes on two copies of a plan and concludes that they feed every
  operator the same values.

## Modules

| file | content |
|---|---|
| `Relational.dfy`, `PlanTree.dfy`, `Textbook.dfy` | columns, operators, logical plans and their relations |
| `PhysicalPlan.dfy`, `Rewiring.dfy` | denotation of shared plan nodes, side search, creating and rewiring nodes |
| `Stale.dfy`, `Eager.dfy`, `LatePlans.dfy`, `Late.dfy`, `GrandChildren.dfy`, `Agreement.dfy` | the materialization passes; `Stale.dfy` says when a computed column is out of date, `LatePlans.dfy` which plans the late passes get through |
| `TableRows.dfy`, `Ast.dfy`, `Pushdown.dfy`, `Implied.dfy`, `PushdownExact.dfy`, `JoinOrder.dfy`, `SingleTable.dfy`, `OptimizerOne.dfy` | predicate pushdown and join building, and when they keep the meaning |
| `SemiJoins.dfy`, `SemiJoinsExact.dfy`, `SortMerge.dfy` | logical rewrites of the plan |
| `QueryPlan.dfy`, `Prune.dfy`, `PruneSpine.dfy`, `PruneInPlace.dfy`, `Enrich.dfy`, `PrunedPlan.dfy` | the JSON plan: what pruning leaves, on values and in place; enriching; how the two fit together |
| `Sequence.dfy`, `Names.dfy`, `Renaming.dfy` | emission |
| `Wire.dfy`, `Framing.dfy`, `PythonMessages.dfy` | messages on the wire |
| `ThreadPool.dfy`, `ClientRegistry.dfy` | runtime protocols |

## Where the code does less than it promises

Each of these is a theorem with a condition that holds if and only if the code is right, and with a
query or plan on which it is not.

* The late passes find every column and every position list exactly when no operator reads two
  columns of a base table it stands on (`OneColumnPerScan`) and no table that is needed gets lost on
  the way up. For V2 that means that no operator reads a base column of a table that only Sorts,
  Groups or Maps have come over (`NoBareReads`). For Hybrid (`HybridKeeps`) it means that above a
  Sort or Group of a base table only the column it reads is needed, above a Map of a base table
  none, and above a Map over a Filter or Join no column that travels as values to it: one that is
  the only needed column of its table there and that the operator below reads or is given
  (`PassesWhen`). Neither condition contains the other: `SELECT a FROM t ORDER BY a` fails in V2 and
  passes in Hybrid (`OrderedScanFails`), and grouping by a join key above a Map passes in V2 and fails in
  Hybrid (`KeySumsFail`). A Filter over two columns of a table fails in both (`ComparedScanFails`).
* The eager pass never realigns a computed column: its tables below a node never contain `AGG` or
  `MAP`. Its result is right exactly when every computed column, where it is read, is still what it
  was where it was computed (`Fresh`), and no operator directly over a Map of a base table reads a
  column the Map does not (`MapReads`): `FillMaterializes`. No engine can spoil a plan exactly when
  nothing computed is read above an operator that moves rows (`NoStaleIsExact`). A query that sorts
  by a sum is spoiled (`SumQueryIsStale`); the late passes get it right (`SumQueryIsLate`). A column
  read past a Map of a base table is found by no pass (`MappedScanFails`).
* The first optimizer keeps the meaning of a query exactly when each condition between two tables
  brings in one new table and reads nothing that is not there yet, all tables are brought in, every
  other condition is about one table, and the ON condition of every inner join in FROM follows from
  the equalities in WHERE (`MeaningKeptIffSound`), because the joins in FROM are replaced together with
  their conditions. The plainest explicit join, `SELECT .. FROM a JOIN b ON a.x = b.y`, loses both
  tables (`ExplicitJoinLost`). Two equalities between the same two tables fail as well: one table
  enters the joins twice. The model of a join combines rows of disjoint sets of tables only, so there
  such a result has no rows at all (`CompositeKeyLost`). Over a single table the meaning is kept exactly
  when there is no equality between two of its columns and no predicate without a clause above it
  (`SingleKeptIffSound`).
* `placeSemiJoins` looks at one column only. Every operator still finds its tables exactly when no
  converted join gives up a side with a table read above it (`VisibleIffSpared`). The rows are then
  the same set exactly when no order comparison is turned round (`SiftsIsExact`), and the same bag
  exactly when every converted join is an equality whose partner fixes the whole row of the side
  given up (`SafeIsExact`). On an inequality join two rows become one (`InequalityMergesRows`).
* The C++ receiver hands out every message once and in order, whatever the pieces, exactly when the
  first piece has at least four bytes (`ReceiveAll`). The scan for the delimiter at the start of each
  extraction is not bounded by what has been received; after the first four bytes the buffer always
  starts with a delimiter, but a first piece of one to three bytes sends it past the buffer
  (`ShortPieceLost`).
* `parse_from_bytes` raises an error exactly when one to three bytes of the next message have
  arrived (`RoundTrip`), which ends the Python client's receive thread (`Receive`).

## Model

| member | source | states |
|---|---|---|
| Relational.GatherComposes | cpp/code/src/ir_optimizations/ir_optimizations.cpp:710-770 | gathering through a composed position list is gathering twice, the law the peephole rewrite rests on |
| PlanTree.MapKeepsRows | cpp/code/src/ir_optimizations/ir_optimizations.cpp:372-376 | a Map keeps rows and row numbers, so position lists pass it unchanged |
| PlanTree.GroupComputes | cpp/code/include/ir/ir_views.hpp:324-338 | the folded aggregate column of a Group holds the engine's value for each group row |
| PlanTree.Advance | cpp/code/src/ir/ir_post_processing.cpp:160-193 | a column gathered by an operator's list is that column over the operator's output relation |
| PlanTree.AdvanceRows | cpp/code/src/ir_optimizations/ir_optimizations.cpp:411-433 | composing a table's position list with an operator's list gives the base rows under the operator's output |
| PlanTree.ColumnFromRows | cpp/code/src/ir_optimizations/ir_optimizations.cpp:483-505 | fetching a base column through the table's position list gives the column over the relation |
| PlanTree.FirstRows | cpp/code/src/ir_optimizations/ir_optimizations.cpp:436-440 | the first operator over a scan yields the table's first position list |
| PlanTree.ListsInRange | cpp/code/src/ir_optimizations/ir_optimizations.cpp:411-433 | position lists point inside the relation they index |
| Textbook.CoreIsAlgebra | cpp/code/include/ir/ir_views.hpp:26-286 | with an in-order filtering and nested-loop joining engine the relation of a Filter/Join tree is selection and join over the base tables |
| PhysicalPlan.FilterColIdx | cpp/code/src/ir_optimizations/ir_optimizations.cpp:145-188 | the breadth-first search ends and returns the one join side below which the table occurs |
| Rewiring.FilterColumn | cpp/code/src/ir/ir_post_processing.cpp:167-168 | the chosen output column denotes the position list of the column's own side |
| Rewiring.NewFetch | cpp/code/src/ir/ir_post_processing.cpp:179-184 | a new Fetch denotes the base column, and the rest of the plan keeps its denotation |
| Rewiring.NewMaterialize | cpp/code/src/ir/ir_post_processing.cpp:171-188 | a new Materialize denotes the gather of its two children |
| Rewiring.MoveColumn | cpp/code/src/ir/ir_post_processing.cpp:163-193 | a materialization moved past an operator is aligned with the operator's output rows |
| Rewiring.Rewire | cpp/code/src/ir/ir_post_processing.cpp:226-238 | replacing a node's children gives it the denotation of its new inputs and leaves the finished part of the plan alone |
| EagerMaterialization.MoveNeeded | cpp/code/src/ir/ir_post_processing.cpp:160-193 | after the inner loop every needed column of a table below the child is realigned to the child's rows |
| EagerMaterialization.NameScan | cpp/code/src/ir/ir_post_processing.cpp:214-221 | a base table is named after a column its parent reads, and each such column gets a copy that denotes it |
| EagerMaterialization.FillMaterializes | cpp/code/src/ir/ir_post_processing.cpp:134-242 | in place on any well-formed plan: no column is missing if and only if the readers above a Map over a base table ask for the Map's own columns, and child i of every operator denotes input column i over the logical relation there if and only if in addition every computed column is still what it was where it was computed; the reported tables are those below |
| EagerMaterialization.FillPlan | cpp/code/src/ir/ir_post_processing.cpp:134-242 | the same for a whole plan; a Select or Map over any Filter/Join tree always comes out right |
| EagerMaterialization.AllEntered | cpp/code/src/ir/ir_post_processing.cpp:226-238 | the map of materializations has an entry for every input column, except for columns a Map over a base table has not read |
| StaleColumns.NoStaleIsExact | cpp/code/src/ir/ir_post_processing.cpp:160-166 | no engine makes the eager pass wrong on a computed column if and only if none is read above an operator that filters or reorders rows after it was computed |
| StaleColumns.SumQueryIsStale | cpp/code/src/ir/ir_post_processing.cpp:160-205 | a sum read above a Sort by that sum: the operand keeps the Group's order where the relation has the Sort's |
| StaleColumns.CoreNeverStale | cpp/code/src/ir/ir_post_processing.cpp:160-166 | over the Filter/Join core the condition on computed columns always holds |
| LateMaterialization.MoveValues | cpp/code/src/ir_optimizations/ir_optimizations.cpp:384-404 | a computed or carried column moved past an operator is aligned with its output |
| LateMaterialization.MovePositions | cpp/code/src/ir_optimizations/ir_optimizations.cpp:411-433 | the composed position list is the list of base rows of the table under the operator's output |
| LateMaterialization.FetchThrough | cpp/code/src/ir_optimizations/ir_optimizations.cpp:483-505 | a Fetch gathered by the table's current position list provides the column |
| LateMaterialization.NameScan | cpp/code/src/ir_optimizations/ir_optimizations.cpp:458-470 | a base table is named after a column of it that its parent reads, if there is one |
| LateMaterialization.TakeNeeded | cpp/code/src/ir_optimizations/ir_optimizations.cpp:379-444 | the inner loop fails exactly if a list is to be composed with one the child has not got; otherwise every column needed at or above the node goes past the child as its table's status says, by aligned values or by an aligned position list |
| LateMaterialization.LeavePositional | cpp/code/src/ir_optimizations/ir_optimizations.cpp:445-455 | the maps past a positional child are right, also for the aggregate a Group outputs |
| LateMaterialization.TakeMap | cpp/code/src/ir_optimizations/ir_optimizations.cpp:372-376 | a Map hands on position lists and its own result only, in both passes: every table has past it what its status says, and those without a list are gone |
| LateMaterialization.NeedsBelow | cpp/code/src/ir_optimizations/ir_optimizations.cpp:554-622 | the test on the child's data sends a needed column as values exactly if its table travels as values, and then nobody asks for the table's dropped position list; otherwise the child has the list, stands on the scan, or has lost the table |
| LateMaterialization.KnownIffOneColumn | cpp/code/src/ir_optimizations/ir_optimizations.cpp:476-510 | the values and lists at hand cover an operator's inputs exactly if each scanned child is read through one column and no table that is read has been lost |
| LateMaterialization.PutLateMaterialization | cpp/code/src/ir_optimizations/ir_optimizations.cpp:342-689 | V2 and Hybrid on any well-formed plan: whether a column is missing or a position list is looked up in a node without one, and if neither, every operator's children denote its input columns |
| LatePlans.PassesWhen | cpp/code/src/ir_optimizations/ir_optimizations.cpp:342-689 | from the root neither happens if and only if every scan is read through one column and, in V2, no operator reads a base column that only Sorts, Groups and Maps have come over; in Hybrid, no column needed above a Sort, Group or Map of a base table is another than the one that a Sort or Group there reads, and none needed above a Map travels as values to it |
| LatePlans.GivesIsValued | cpp/code/src/ir_optimizations/ir_optimizations.cpp:559-583 | in Hybrid a column travels as values above a Filter or Join exactly if it is the only needed column of its table there and the operator reads it or is given its values |
| LatePlans.NoBareReadsIffKept | cpp/code/src/ir_optimizations/ir_optimizations.cpp:411-440 | in V2 a table that is needed gets lost exactly above a chain of Sorts, Groups and Maps over its scan |
| LatePlans.OrderedScanFails | cpp/code/src/ir_optimizations/ir_optimizations.cpp:411-440 | ordering a base table by a column: V2 looks the list up in the Sort, which has none of that table; Hybrid moves the column's values and passes |
| LatePlans.ComparedScanFails | cpp/code/src/ir_optimizations/ir_optimizations.cpp:458-470 | a Filter over two columns of one table: the table is named after one and the other is lost, in both passes |
| LatePlans.KeySumsFail | cpp/code/src/ir_optimizations/ir_optimizations.cpp:550-583 | a sum over a Map of a join, grouped by the join key: V2 passes; in Hybrid the key's values are dropped at the Map and no position list of its table is left |
| GrandChildren.ShortCut | cpp/code/src/ir_optimizations/ir_optimizations.cpp:710-770 | where the rewrite fires, the old value of the node is the gather from the new source |
| GrandChildren.FindCarrier | cpp/code/src/ir_optimizations/ir_optimizations.cpp:721-773 | the search returns the first grandchild that carries the column, a Group only as its aggregate |
| GrandChildren.Shorten | cpp/code/src/ir_optimizations/ir_optimizations.cpp:736-746 | the in-place rewrite of a shared node changes no node's denotation |
| GrandChildren.GrandChildrenSub | cpp/code/src/ir_optimizations/ir_optimizations.cpp:692-776 | over any plan the late passes produce the recursion ends, preserves every node's denotation and leaves no opportunity in a visited node |
| GrandChildren.CorrectSurvives | cpp/code/src/ir_optimizations/ir_optimizations.cpp:780-783 | after the rewrite every operator still reads the right columns |
| GrandChildren.OptimizeLate | cpp/code/src/ir_optimizations/ir_optimizations.cpp:342-783 | late pass and rewrite together on a whole plan, V2 or Hybrid: no error exactly under the two conditions of that pass, and then every operator reads the right columns |
| Agreement.SameRelation | cpp/code/src/ir_optimizations/ir_optimizations.cpp:342-513 | the logical relation does not depend on the node objects |
| Agreement.PassesAgree | cpp/code/src/ir_optimizations/ir_optimizations.cpp:342-689 | two correct rewrites of one plan feed every operator the same values in the same order |
| Agreement.OptimizeBothWays | cpp/code/src/ir_optimizations/ir_optimizations.cpp:342-783 | the eager pass on one copy of any well-formed plan and a late pass on another: unless a column is lost or stale, all operators of the two copies read the same values |
| Agreement.AlignSelect | cpp/code/src/ir_optimizations/ir_optimizations.cpp:342-783 | after a late pass over Maps, Sorts and Groups all operands of the Select are as long as its input relation, and above a Sort over an aggregating Group the aggregate and every base column are moved by the same list of the Sort |
| Agreement.SumQueryIsLate | cpp/code/src/ir_optimizations/ir_optimizations.cpp:342-689 | the query on which the eager pass is wrong meets the conditions of both late passes |
| Agreement.MappedScanFails | cpp/code/src/ir/ir_post_processing.cpp:160-238 | a column read directly above a Map of a base table that the Map has not read meets the conditions of no pass |
| Ast.ResultIsConjunction | cpp/code/src/parser/optimizer_one.cpp:133-147 | a tree whose conditions read tables below them, none twice, denotes the rows of the product of its tables that meet all its conditions |
| Pushdown.JoinTreeScoped | cpp/code/src/parser/optimizer_one.cpp:51-90 | the left-deep joins have distinct tables and read one column from each side if and only if the conditions are linked |
| Pushdown.JoinTreeCounts | cpp/code/src/parser/optimizer_one.cpp:51-90 | every join condition becomes exactly one join, whichever way it was turned |
| Pushdown.WheresCount | cpp/code/src/parser/optimizer_one.cpp:19-48 | extraction takes out every condition exactly as often as it occurs, those in FROM apart |
| Pushdown.SplitCounts | cpp/code/src/parser/optimizer_one.cpp:22-30 | each condition goes to exactly one of the two lists |
| Pushdown.JoinsReplace | cpp/code/src/parser/optimizer_one.cpp:92-102 | the joins take the place of the cross product and the clauses above stay |
| Pushdown.PlacedOnce | cpp/code/src/parser/optimizer_one.cpp:104-129 | a predicate lands exactly once, directly over its table and below every join, and nothing else changes |
| Pushdown.OptimizedShape | cpp/code/src/parser/optimizer_one.cpp:133-147 | same clauses and tables, left-deep joins, no predicate above a join, every condition as often as before |
| PushdownExact.PlacedCounts | cpp/code/src/parser/optimizer_one.cpp:104-129 | on any tree a predicate is added once for each place found |
| PushdownExact.PlacesIsTable | cpp/code/src/parser/optimizer_one.cpp:104-129 | on left-deep joins over distinct tables there is one place if the predicate's table is among them, else none |
| PushdownExact.CountsKept | cpp/code/src/parser/optimizer_one.cpp:133-147 | with the joins built over distinct tables every condition occurs as often as before if and only if FROM has no ON condition and every predicate's table is among the joined tables |
| PushdownExact.DistinctIsPlaceable | cpp/code/src/parser/optimizer_one.cpp:104-129 | with joins over distinct tables no predicate node is hung into the tree twice |
| PushdownExact.JoinTreeReadable | cpp/code/src/parser/optimizer_one.cpp:51-90 | the joins built are over distinct tables and read only tables below them if and only if each condition adds one table and its other column is of an old table or of the new one |
| PushdownExact.MeaningKeptIffSound | cpp/code/src/parser/optimizer_one.cpp:133-147 | FROM may mix cross products and inner joins: the optimized query denotes the same relation on all data if and only if the conditions are so chained, reach all tables, every other condition is about one table, and every ON condition follows from the equalities in WHERE |
| JoinOrder.InOrder | cpp/code/src/parser/optimizer_one.cpp:51-90 | for any conditions: join k from below has the two columns of condition k, turned so that the table it brings in is on the right, and the tables stand from left to right as they are brought in |
| JoinOrder.PlacedInOrder | cpp/code/src/parser/optimizer_one.cpp:104-131 | a predicate leaves the order of tables and joins alone, and hangs over its table on the side of the join the table was on |
| JoinOrder.OptimizedInOrder | cpp/code/src/parser/optimizer_one.cpp:133-147 | an optimized query has the joins and tables in the order of its join conditions, whatever predicates are placed |
| PushdownExact.OnLost | cpp/code/src/parser/optimizer_one.cpp:51-102 | an ON condition that does not follow: data and a row on which the optimized query has a row the query has not |
| PushdownExact.ExplicitJoinLost | cpp/code/src/parser/optimizer_one.cpp:133-147 | a query over one explicit join without WHERE: it is replaced by nothing, both tables and the condition are gone |
| ImpliedEqualities.SpreadCloses | cpp/code/src/parser/optimizer_one.cpp:51-90 | the columns connected to some columns by the equalities: no equality leads out of them |
| ImpliedEqualities.SpreadForced | cpp/code/src/parser/optimizer_one.cpp:51-90 | whatever holds of the first columns and passes along every equality holds of all columns connected to them |
| PushdownExact.CompositeKeyLost | cpp/code/src/parser/optimizer_one.cpp:51-102 | two equalities between two tables: the query has rows on some data; the optimized query has one table on both sides of a join, which the model gives no rows |
| SingleTable.SingleKeptIffSound | cpp/code/src/parser/optimizer_one.cpp:92-147 | over one table the meaning is kept on all data if and only if no equality between two columns is taken out for a join and there is a clause to hang the predicates under |
| OptimizerOne.IsTableInAst | cpp/code/src/parser/optimizer_one.cpp:8-17 | the heap search agrees with the search on the tree |
| OptimizerOne.ExtractPredicate | cpp/code/src/parser/optimizer_one.cpp:19-48 | in place, the WHERE nodes are cut out and fresh copies collected in order, join equalities apart |
| OptimizerOne.BuildJoin | cpp/code/src/parser/optimizer_one.cpp:51-90 | the loop builds the specified left-deep tree from fresh nodes |
| OptimizerOne.OptimizeCrossProduct | cpp/code/src/parser/optimizer_one.cpp:92-102 | in place, the first join of the left spine is replaced |
| OptimizerOne.PlacePredicate | cpp/code/src/parser/optimizer_one.cpp:104-129 | in place, the predicate node is spliced in on the table's own side, where there is at most one place for it |
| OptimizerOne.PlaceAll | cpp/code/src/parser/optimizer_one.cpp:143-145 | the loop over the predicates splices in every one of them |
| OptimizerOne.OptimizerOne | cpp/code/src/parser/optimizer_one.cpp:133-147 | on any tree in which each predicate has at most one place, the whole pass leaves the objects forming the optimized tree |
| SemiJoins.VisibleIsRest | cpp/code/src/ir_optimizations/ir_optimizations.cpp:13-52 | a node of the rewritten plan shows the tables below it except those of the sides that converted joins give up |
| SemiJoins.NeededIffNotGivenUp | cpp/code/src/ir_optimizations/ir_optimizations.cpp:13-52 | all tables needed above a plan stay visible if and only if no converted join gives up a side with one of them |
| SemiJoins.VisibleIffSpared | cpp/code/src/ir_optimizations/ir_optimizations.cpp:13-52 | every operator of the rewritten plan finds the tables it reads if and only if each converted join spares the tables read above it |
| SemiJoins.NeededStayVisible | cpp/code/src/ir_optimizations/ir_optimizations.cpp:13-52 | every table read above a node stays visible after the rewrite |
| SemiJoins.RowsSurvive | cpp/code/src/ir_optimizations/ir_optimizations.cpp:19-44 | no row is lost |
| SemiJoins.RowsOriginate | cpp/code/src/ir_optimizations/ir_optimizations.cpp:19-44 | no row is made up |
| SemiJoins.FixedByTable | cpp/code/src/ir_optimizations/ir_optimizations.cpp:27-30 | where every join on the way is an equality into a unique column, the row number of one table fixes the whole row |
| SemiJoins.RowsDetermined | cpp/code/src/ir_optimizations/ir_optimizations.cpp:27-30 | no two rows are merged, because the unique discarded column fixes the row of the side given up |
| SemiJoins.SameBag | cpp/code/src/ir_optimizations/ir_optimizations.cpp:10-54 | before and after, the rows cut to the visible tables correspond one to one |
| SemiJoinsExact.SiftsIsExact | cpp/code/src/ir_optimizations/ir_optimizations.cpp:27-43 | the rewritten plan has the same set of rows on all data if and only if some join never holds or no LT, LE, GE, GT is turned round by swapping the sides |
| SemiJoinsExact.SafeIsExact | cpp/code/src/ir_optimizations/ir_optimizations.cpp:10-54 | the same bag of rows on all data that respect the unique columns, and all that is read visible, if and only if the plan is `Safe`, a condition on the plan before the rewrite |
| SemiJoins.Conversion | cpp/code/src/ir_optimizations/ir_optimizations.cpp:27-43 | the discarded column always ends up first, and sides are found by table |
| SemiJoins.RewrittenIsRecast | cpp/code/src/ir_optimizations/ir_optimizations.cpp:19-44 | after the pass over any plan every join and semi-join has its inputs as outputs, with the columns it had, and every other node has the operator, inputs and outputs it had |
| SemiJoins.PlaceHere | cpp/code/src/ir_optimizations/ir_optimizations.cpp:19-44 | the in-place change of one join: it becomes a semi-join exactly if one of its two tables is not needed and the column to discard is unique; inputs and outputs are turned round together, only when the inner table alone is needed |
| SemiJoins.NarrowIsSafe | cpp/code/src/ir_optimizations/ir_optimizations.cpp:25-30 | a simple case: equalities whose given-up side holds only the join column's table |
| SemiJoins.DiscardedSideIsGone | cpp/code/src/ir_optimizations/ir_optimizations.cpp:27-43 | every table of the given-up side is invisible afterwards, needed or not |
| SemiJoins.InequalityMergesRows | cpp/code/src/ir_optimizations/ir_optimizations.cpp:30-31 | a concrete inequality join on which two rows become one |
| SemiJoins.PlaceSemiJoins | cpp/code/src/ir_optimizations/ir_optimizations.cpp:10-54 | the in-place pass turns the nodes into the specified tree: exactly the joins that meet the condition are converted, each keeps its two columns and names them in its inputs and outputs alike, and all other nodes are as before |
| SortMerge.MergedIsPermutation | cpp/code/src/ir_optimizations/ir_optimizations.cpp:77-92 | the merged columns are the grouping columns, a permutation exactly if the Sort names each of its columns as often as the Group |
| SortMerge.SamePartition | cpp/code/src/ir_optimizations/ir_optimizations.cpp:84-93 | both column lists form the same groups |
| SortMerge.LongerOrder | cpp/code/src/ir_optimizations/ir_optimizations.cpp:79-93 | rows ordered by more columns are ordered by the first ones, directions included |
| SortMerge.CheckSubset | cpp/code/src/ir_optimizations/ir_optimizations.cpp:64-73 | the flag says whether every sort column is a grouping column |
| SortMerge.TakeOrder | cpp/code/src/ir_optimizations/ir_optimizations.cpp:75-93 | the Group takes the sort columns and directions, then its remaining columns ascending |
| SortMerge.MergedRefines | cpp/code/src/ir_optimizations/ir_optimizations.cpp:61-96 | whatever the merged Group may output, the Sort over the Group may output |
| SortMerge.MergedPlanRefines | cpp/code/src/ir_optimizations/ir_optimizations.cpp:56-102 | whatever the merged plan may output, the plan may output, at every merged node and through any other operators |
| SortMerge.MergedKeeps | cpp/code/src/ir_optimizations/ir_optimizations.cpp:56-102 | for any plan: every node left was there before with the same outputs, kind of operator and aggregate, Groups alone change their grouping columns, and only Sorts directly over Groups go |
| SortMerge.StaysWellFormed | cpp/code/src/ir_optimizations/ir_optimizations.cpp:56-102 | a plan that is well-formed for the materialization passes stays so, folded aggregates included |
| SortMerge.MergeSortIntoGroup | cpp/code/src/ir_optimizations/ir_optimizations.cpp:56-102 | the in-place pass drops each such Sort and updates the Group as specified; every node left is one of before with its outputs, its kind of operator and its aggregate, and a well-formed plan stays well-formed |
| Prune.PruneKeepsSkeleton | cpp/code/src/ir/json_to_abstract.cpp:99-180 | same joins over the same base tables in the same order, no Hash or Gather left, at most one Sort on the left spine, abstract data in step with raw data |
| Prune.WithoutKeeps | cpp/code/src/ir/json_to_abstract.cpp:63-97 | deep removal down the left spine keeps joins and base tables |
| Prune.ExchangedKeeps | cpp/code/src/ir/json_to_abstract.cpp:168-177 | exchanging an Aggregate with the Sort below it keeps them too |
| PruneSpine.SpinePruned | cpp/code/src/ir/json_to_abstract.cpp:99-180 | down the left spine of the pruned plan, by their raw data: reading down, each Gather claims the next Aggregate not claimed yet and all others stay; of the Sorts the topmost stays; all other nodes stay in order, no Aggregate directly on a Sort; bitmap scans become one with the first filter and index on the way down; branches are pruned |
| PruneSpine.SpineIsFixed | cpp/code/src/ir/json_to_abstract.cpp:99-180 | these conditions leave one line of nodes only, the spine of the pruned plan |
| PruneSpine.GatherCostsOne | cpp/code/src/ir/json_to_abstract.cpp:125-135 | a Gather with an Aggregate left below it costs exactly one, an Aggregate adds one, every other node keeps the count |
| PruneSpine.UpperStays | cpp/code/src/ir/json_to_abstract.cpp:125-135 | of an Aggregate over a Gather over an Aggregate the upper one stays |
| PruneSpine.TopmostStays | cpp/code/src/ir/json_to_abstract.cpp:137-142 | the Sort that stays is the topmost one on the spine |
| PrunedPlan.ReadyToEnrich | cpp/code/src/ir/json_to_abstract.cpp:99-319 | the abstract data of a pruned plan name the base tables of the plan, and enriching applies to it exactly if no table is joined with itself |
| PruneInPlace.Collapse | cpp/code/src/ir/json_to_abstract.cpp:145-162 | in place, a bitmap scan takes over filter and index of the bitmap scan below it where it has none |
| PruneInPlace.Exchange | cpp/code/src/ir/json_to_abstract.cpp:168-177 | in place, an Aggregate over a Sort exchange their data, the objects stay |
| PruneInPlace.RemoveDeep | cpp/code/src/ir/json_to_abstract.cpp:63-97 | in place, the first node of the given types on the left spine gives way to its child |
| PruneInPlace.PruneTree | cpp/code/src/ir/json_to_abstract.cpp:99-180 | the in-place recursion leaves the objects forming the pruned tree: tidy, with the joins and base tables of the plan, and with exactly the nodes on its left spine that are to stay |
| Enrich.EnrichedIsSided | cpp/code/src/ir/json_to_abstract.cpp:289-317 | after any swap the left table is below child 0 and the right table below child 1, and they are the condition's tables |
| Enrich.AssignedDistinct | cpp/code/src/ir/json_to_abstract.cpp:289-317 | each join gets a condition of its own, one fewer than there are tables |
| Enrich.Bijection | cpp/code/src/ir/json_to_abstract.cpp:289-317 | with one linking condition fewer than tables, joins and linking conditions correspond one to one |
| Enrich.FiltersLand | cpp/code/src/ir/json_to_abstract.cpp:228-249 | a one-table condition is added at exactly the source of its table, as often as it is stated |
| Enrich.EnrichedKeeps | cpp/code/src/ir/json_to_abstract.cpp:213-319 | for any plan and conditions: no node is lost or moved but for the children of a turned join; a source gains exactly its one-table conditions at the end, a join keeps its data or takes one of the conditions, and Sorts, Aggregates and all others keep their data |
| Enrich.AddFilters | cpp/code/src/ir/json_to_abstract.cpp:228-246 | the loop pushes exactly the one-table conditions of this source, in order |
| Enrich.EnrichTree | cpp/code/src/ir/json_to_abstract.cpp:213-319 | the in-place pass returns the tables below and leaves the enriched tree, in which every node is kept as `EnrichedKeeps` says |
| Enrich.FindCondition | cpp/code/src/ir/json_to_abstract.cpp:297-316 | the first crossing condition is taken and a swapped one swaps the children |
| Sequence.ToSequenceSub | cpp/code/include/util/sequentializer.hpp:48-64 | the recursion ends on any finite graph and extends the list as specified |
| Sequence.ToSequence | cpp/code/include/util/sequentializer.hpp:73-77 | the root's descendants, each once and nothing else, root last, and on acyclic plans children before parents |
| Names.DecimalInjective | cpp/code/include/util/name_generator.hpp:27-29 | different counters have different decimal forms |
| Names.DecimalIsNumber | cpp/code/include/util/name_generator.hpp:27-29 | the decimal form read as a number is the counter |
| Names.NamesDiffer | cpp/code/include/util/name_generator.hpp:27-29 | names with different counters differ, whatever their prefixes |
| Names.NameGenerator.Next | cpp/code/include/util/name_generator.hpp:27-29 | the next name carries the 32-bit counter, which wraps |
| Renaming.FrontIsOwn | cpp/code/include/util/unique_col_names.hpp:80-97 | the candidate at the front of the queue is the one the slot's own child offered |
| Renaming.Renamer.Collect | cpp/code/include/util/unique_col_names.hpp:70-80 | the queues hold the offers of the children in child order |
| Renaming.Renamer.NameOutputs | cpp/code/include/util/unique_col_names.hpp:102-109 | the outputs get consecutive fresh names that start with the old ones, in the tables they were in, and old names map to them |
| Renaming.Renamer.FollowChildren | cpp/code/include/util/unique_col_names.hpp:79-97 | each input gets the new name of its own child's matching output |
| Renaming.Renamer.Process | cpp/code/include/util/unique_col_names.hpp:56-115 | every node below is renamed exactly once, earlier names stay, offers are old names to new names |
| Renaming.Renamer.SingleAssignment | cpp/code/include/util/unique_col_names.hpp:100-108 | below 2^32 names no two outputs in the plan share a name |
| Renaming.Renamer.InputFollowsChild | cpp/code/include/util/unique_col_names.hpp:86-96 | a renamed input names the output of its own child that carried its old name |
| Renaming.Renamer.BaseNameApart | cpp/code/include/util/unique_col_names.hpp:61-66 | a base column's name that does not look like a generated one is written by no renamed node |
| Renaming.Renamer.SlotKept | cpp/code/include/util/unique_col_names.hpp:79-109 | after renaming, input i stands among the outputs of child i at the place where it stood before, table included, and is missing there if it was missing before |
| Renaming.Renamer.OutputKept | cpp/code/include/util/unique_col_names.hpp:104-109 | a renamed output keeps its place and its table, and its old name starts the new one |
| Renaming.MeaningStays | cpp/code/include/util/unique_col_names.hpp:56-115 | renaming keeps the meaning of the plan: every node reached reads the operands it read and denotes what it denoted |
| Renaming.RenamePlan | cpp/code/include/util/unique_col_names.hpp:122-126 | the whole plan is renamed, and a settled plan stays settled with the same denotations |
| Renaming.RenameAndSequence | cpp/code/include/util/unique_col_names.hpp:122-126 | renamed and sequenced, no generated name is written twice nor equals a base column's name unless that looks generated itself, and every name read was written before, by the child of that slot; columns keep their tables, and a plan that denotes its relation's columns before denotes the same ones afterwards |
| Wire.FirstIsEncoded | cpp/code/include/server/TCPServer.hpp:46-55 | header fields and payload read back what was written |
| Wire.NumberOfLittleEndian | python/msg.py:145-153 | little-endian writing and reading of a field are inverse within its width |
| Wire.ByteAt | cpp/code/include/server/TCPServer.hpp:46-55 | byte i of a field is n / 256^i % 256, so the lowest byte goes first |
| Wire.EncodedByte | cpp/code/include/server/TCPServer.hpp:46-55 | what stands at each offset of a message: delimiter, unit type, payload size, package type, source, target, payload |
| Framing.CutAnywhere | cpp/code/src/util/Utility.cpp:106-169 | cutting a byte stream anywhere changes neither the messages found nor the tail |
| Framing.HandledMeans | cpp/code/src/util/Utility.cpp:130-152 | what is handed out are the messages a callback is registered for and no others; nothing is dropped exactly if every message has one |
| Framing.EncodedComesOut | cpp/code/src/util/Utility.cpp:126-152 | complete messages come out in order and a started one stays |
| Framing.PrefixComesOut | cpp/code/src/util/Utility.cpp:126-152 | any prefix of the sent bytes holds exactly the completed messages and the start of the next |
| Framing.Shift | cpp/code/src/util/Utility.cpp:161-163 | the tail is moved to the start of the buffer even where the ranges overlap |
| Framing.ExtractItems | cpp/code/src/util/Utility.cpp:106-169 | the scan stays inside the buffer exactly if there is a delimiter somewhere in it; then the callbacks are exactly the complete messages in order and the buffer starts with exactly the undelivered tail, whatever stale bytes follow |
| Framing.Receiver.Receive | cpp/code/src/client/TCPClient.cpp:129-147 | one receive turn gets through exactly if the filled buffer holds a delimiter, and then keeps the buffer equal to the tail of everything received and the calls equal to its complete messages |
| Framing.Receiver.Received | cpp/code/src/client/TCPClient.cpp:117-150 | when n bytes have arrived, exactly the messages completed by then were delivered, and there is room for more |
| Framing.Receiver.ReceiveAll | cpp/code/src/client/TCPClient.cpp:117-150 | all bytes of a sender in pieces of any size: every message is handed out once and in order and nothing is left over exactly if the first piece has at least four bytes; otherwise nothing is handed out |
| Framing.ShortPieceLost | cpp/code/src/util/Utility.cpp:111-121 | after a first piece of one to three bytes of any message the zeroed buffer holds no delimiter anywhere |
| Framing.Receiver.ChunkStarts | cpp/code/src/util/Utility.cpp:111-121 | with four bytes buffered the next extraction finds the delimiter at offset 0 |
| PythonMessages.ParseFromBytes | python/msg.py:40-68 | the loop yields what the specification parses, errors included |
| PythonMessages.RoundTrip | python/msg.py:40-68 | parsing written messages gives them back, then at most one incomplete marker, and fails exactly on one to three stray bytes |
| PythonMessages.CutMessage | python/msg.py:46-68 | a cut-off message of at least four bytes is reported incomplete |
| PythonMessages.PythonClient.Consume | python/client.py:150-159 | the processed byte count is the length of the complete part |
| PythonMessages.PythonClient.Receive | python/client.py:139-161 | each turn delivers exactly the newly completed messages and keeps the tail; the thread fails exactly on a cut delimiter |
| ThreadPool.StepInv | cpp/code/src/client/thread_pool.cpp:10-47 | every step keeps mutual exclusion, first-in-first-out order, accounting of tasks and the absence of lost wake-ups |
| ThreadPool.StepNoLostWakeUp | cpp/code/src/client/thread_pool.cpp:16-36 | a non-empty queue always has an awake worker or a notification on its way |
| ThreadPool.RunInv | cpp/code/src/client/thread_pool.cpp:10-47 | the same over every interleaving |
| ThreadPool.HandedIsKept | cpp/code/src/client/thread_pool.cpp:10-47 | in every reachable state the tasks taken out and then the queue are the tasks pushed, in the order of the pushes; those and the ones in callers' hands are the tasks handed in, each as often; those taken out have been run or are in a worker's hands |
| ThreadPool.AllTasksRan | cpp/code/src/client/thread_pool.cpp:39-47 | when the destructor returns every task has run exactly as often as the callers of enqueueTask handed it in |
| ThreadPool.NoDeadlock | cpp/code/src/client/thread_pool.cpp:10-47 | while tasks are queued, or from the start of the destructor to its return, some thread of the pool can move, without new work or spurious wake-ups |
| ThreadPool.JoinsFinish | cpp/code/src/client/thread_pool.cpp:39-47 | however the threads are scheduled the joins finish within a bounded number of steps |
| ClientRegistry.UuidsDistinct | cpp/code/src/server/TCPServer.cpp:136-174 | clients of consistent indexes have pairwise distinct uuids |
| ClientRegistry.LeftConsistent | cpp/code/src/server/TCPServer.cpp:701-713 | removing a client from both indexes keeps them consistent |
| ClientRegistry.EnterConsistent | cpp/code/src/server/TCPServer.cpp:167-173 | entering a client with a new uuid and handle keeps the indexes consistent |
| ClientRegistry.FirstFree | cpp/code/src/server/TCPServer.cpp:134-174 | of the uuids the client offers the first free one is taken, and none exactly if none of them is free |
| ClientRegistry.Registry.Connect | cpp/code/src/server/TCPServer.cpp:120-174 | the first uuid that collides with none is taken, and the client enters both indexes or nothing changes |
| ClientRegistry.Registry.RemoveFrom | cpp/code/src/server/TCPServer.cpp:701-713 | the client leaves its vector, order kept, and the uuid map |
| ClientRegistry.Registry.RemoveClient | cpp/code/src/server/TCPServer.cpp:681-693 | the registered client with that handle leaves both indexes |
| ClientRegistry.Registry.ClearAborted | cpp/code/src/server/TCPServer.cpp:466-483 | exactly the live clients stay, in order, in both indexes |
| ClientRegistry.Registry.SendTo | cpp/code/src/server/TCPServer.cpp:438-451 | a client that gave up or cannot be reached is removed, otherwise nothing changes |
| ClientRegistry.Registry.SendToAnyOfType | cpp/code/src/server/TCPServer.cpp:356-383 | the retries end, because each failure removes a client; exactly clients of that type that gave up or cannot be written to leave; it gives up exactly if no client of the type can take the message, and otherwise one that can has taken it |

## Left out

* Parsing SQL text, condition strings and JSON: conditions and trees enter already parsed, because those parsers rest on libraries that are not part of this model.
* Table aliases and self-joins: tables are compared by name and are distinct within a plan; the passes do not tell aliases apart.
* Sockets, timeouts and protobuf payloads: a receive is a parameter, a payload is bytes; a read past the buffer's end yields arbitrary bytes.
- Framing.ExtractItems: where the scan leaves the buffer it stops and reports that; the code goes on reading memory that is not part of this model.
* The overlapping `memcpy` to the start of the buffer is modelled as a forward byte move.
- LateMaterialization.PutLateMaterialization: stops at the first missing column or failed lookup, where the code prints an error and goes on with too few children, or reads past the end of a list; the state after such an error is not described. Null entries the code leaves in its maps by indexing them count as absent.
* The first version of late materialization: deprecated by its own message.
* Aggregates that are not folded into a Group, limits, set operations and outer joins: the passes do not produce or distinguish them; `moveAggIntoGroup` is not modelled, plans start with the aggregate already folded.
- OptimizerOne.PlacePredicate: assumes at most one place, because the code hangs one node under two parents when a table occurs in both subtrees and the result is no tree any more. With joins over distinct tables that never happens (`DistinctIsPlaceable`).
- OptimizerOne.OptimizerOne: the same assumption, for each predicate in turn.
* At a leaf `placePredicate` tests a pointer into a missing child; the model takes that test as failing.
- PushdownExact.MeaningKeptIffSound: FROM holds cross products and inner joins over distinct tables; outer joins are outside the relations of this model.
- SortMerge.MergedPlanRefines: Sorts are unary and have no existing-index column, and the Group has no folded aggregate; a Group's output is ordered by its columns and directions, other operators are arbitrary.
- Renaming.RenameAndSequence: covers input and output columns; copies of columns held inside Sort and Map operators keep their old names in the code and are not modelled. Two Fetches of equally named base columns keep that name. Names are compared without their tables, so the plan has to be `Linked`: input i is read under a name child i offers, and no two outputs of a node share a name, which a join of two equally named columns does not meet.
* Sort column lists and aggregate fields that enriching copies from the query: plain copies without a property.
* The two-child variant of the sequentializer: the same recursion on a fixed pair of children.
- ThreadPool.AllTasksRan: no task is enqueued once the destructor has begun, as the code's users guarantee; tasks themselves return.
- ClientRegistry.Registry.SendToAnyOfType: the random choice is arbitrary, and which clients the socket can write to is a parameter that stays fixed during the retries; broadcasting, rerouting and closing are not part of the model.
