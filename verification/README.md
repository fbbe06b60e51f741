# Liquid tracer: proofs about its algorithms and protocols

The tracer draws how transaction outputs spend one another. This project models
the parts of it that are hard to get right and proves what they promise:

* **Starter connections** (`Walks`, `Topology`, `Distances`, `SavedEvidence`,
  `Connections`, `GroupHops`). A spend graph is completed from saved
  transactions, cycles are refused, and two bounded passes per starter keep
  exactly the spends that lie on some qualifying path. Distances that start
  again at a named group are proved to be minima over all paths.
* **Address conversion** (`AddressPlan`, `AddressMigration`, `MergeRun`,
  `MergeApply`). A journaled conversion of a remote board that may stop, lose an
  answer, or meet other people's edits before any step.
* **Change rows** (`Groups`, `HorizontalFloor`, `RowOrder`, `ChangeRows`,
  `ChangeConstraints`, `RowPacking`, `ChangeLayout`, `ChangePlacement`,
  `ChangeDrawing`, `ChangeProposals`, `ChannelRoutes`). Union-find groups, a segment tree of range maxima, a
  one-shot rejection of conflicting proposals, row packing and component
  separation, from the designated outputs to the finished drawing.
* **Attachment order** (`AttachmentOrder`). A Fenwick tree that counts crossing
  pairs.
* **Compaction** (`Boxes`, `GridIndex`, `ComponentPacking`, `AddressCompaction`).
  A grid index with limits and a budget, moves of whole components, and moves of
  single addresses.
* **Count cache** (`CountCache`, `CountHistory`). A journal and a JSON file read and
  written at once by one writer and many readers.
* **Board receipts** (`BoardDeletion`, `BoardCreation`). At-most-once requests
  over crashes and lost replies.
* **Prefetch** (`Prefetch`). A bounded window of requests whose results are
  delivered once.
* **Context connectors** (`ContextSummaries`, `ContextConnectors`). Bundled
  display connectors and their exact inverse.

`Runs` holds what is common to the state machines: runs, joining them, and what
every allowed run keeps. `Sets`, `Sequences`, `Options` and `Measures` hold small
shared helpers.

## How to read it

Code that works step by step is a method or a class with loops. Its contract is
tied to a specification, and the properties are lemmas about that
specification. Protocols are state machines: a state, the actions that can
happen to it, and lemmas about all runs. The conversion of a board keeps a record
of every event with the whole board as it was then; what may follow what is fixed
apart from the code (`AddressMigration.Legal`), so nothing can be read, sent or
deleted off the record. Coordinates are real numbers. Sets of
keys are gone through in an arbitrary order wherever the result does not depend
on it, so those theorems hold for every order.

Three places where the code does not meet the plain form of a promise, with the
exact condition under which it does:

* **Resuming a conversion.** The same approval is accepted again up to the final
  commit and refused after it, because the board then counts as converted
  (`MergeApply.ApplyMerge`: a merged mapping is always refused, and an
  interrupted one never is). `MergeApply.Resume` reaches the same end from every
  interruption.
* **Foreign edits.** A mark "done" does not stay: when someone moved the
  connector back in the meantime, a PATCH already recorded as done is recorded as
  attempted again. `MergeRun.SendPatch` states that, whatever the earlier mark, no
  request is sent before the mark reads attempted; the invariant speaks of both
  marks.
* **Count cache.** The order of reading is meant to lose no observation
  (`address_counts.py:107-109`). A reader sees everything saved before it began
  exactly as long as two conditions hold, and `CountCache.CarefulIsExact`
  proves it step by step: a step is careful if and only if no careful
  continuation makes any reader miss anything.
  * No fetched observation is dated before what is saved for its address.
    `CountCache.OlderFetchIsLost` is a run from the empty store in which a refresh
    dated earlier replaces the newer observation for good.
  * No run replaces the JSON file of another source while that file, or a reader
    that has begun, still needs it. The file holds one source only
    (`address_counts.py:102-103`, `address_counts.py:364-366`), so after a run for
    one source and then a run for another, readers of the first miss what it saved:
    `CountCache.OtherSourceIsLost`.

  Both can be checked by the writer from what it holds
  (`CountCache.CheckedRunsSeeAll`): compare with its own counts, and look at the
  source the present file names.

## Model

| member | source | states |
|---|---|---|
| Topology.Sort | liquid_tracer/connections.py:180-190 | Kahn's pass orders parents before children, and reaches every transaction exactly when the spend multigraph has no cycle |
| Topology.OrderedIsAcyclic | liquid_tracer/connections.py:189-190 | a complete parents-first order rules out every closed walk |
| Walks.WalkBound | liquid_tracer/connections.py:155-157 | in an acyclic graph of N transactions no walk has more than N-1 spends |
| Distances.Explore | liquid_tracer/connections.py:214-225 | the bounded pass finds exactly the transactions within the limit, each at the length of its shortest walk whose step out of the source spends a selected output |
| Distances.HopsAreWalks | liquid_tracer/connections.py:214-225 | a recorded distance is the length of a real walk from a start |
| SavedEvidence.CompleteEvidence | liquid_tracer/connections.py:73-127 | succeeds exactly on consistent evidence; the links then are exactly the saved inputs that spend saved outputs, nothing recorded is lost, and each added link brings its output record |
| Connections.DownstreamTargets | liquid_tracer/connections.py:282-284 | a starter is a target exactly when some path within the limit leads to it by a selected first spend, and its distance is the shortest such path |
| Connections.KeepsExactly | liquid_tracer/connections.py:285-293 | the distance test keeps a spend exactly when it lies on a path of at most the limit from this starter, by a selected first spend, to a different starter; acyclicity rules out spliced fakes |
| Connections.BoundLosesNothing | liquid_tracer/connections.py:155-157 | the bound N-1 keeps the same spends as no bound at all |
| Connections.FromStarter | liquid_tracer/connections.py:282-293 | both passes of one starter: exact distances, exact targets, exactly the spends on qualifying paths |
| Connections.Search | liquid_tracer/connections.py:136-212 | which input is refused and why, both ways; otherwise the kept outpoints and ordered pairs are exactly those of qualifying paths; a traced search keeps no hidden outpoint, the saved scopes search all spends |
| Connections.UnboundedSearch | liquid_tracer/connections.py:155-157 | the all-saved result is the union over unbounded paths |
| Connections.CompletedSpends | liquid_tracer/connections.py:104-118 | after completion the searched spends are exactly the saved input references |
| Connections.ConnectingOutpoints | liquid_tracer/connections.py:130-133 | completion followed by search: each refusal happens exactly for its reason, the first one that applies, judged on the completed evidence; every connected answer is exact and over an acyclic graph |
| GroupHops.GroupArrivals | liquid_tracer/connections.py:300-311 | one pass in topological order computes for every transaction the least number of hops since the last output of the named group, over all seed-started paths |
| GroupHops.NoShorterPath | liquid_tracer/connections.py:308-311 | no path through followed spends beats a computed arrival |
| GroupHops.ArrivesAlong | liquid_tracer/connections.py:309-311 | every transaction on a qualifying path has an arrival |
| GroupHops.NoMissingDistance | liquid_tracer/connections.py:312-326 | every kept outpoint and every displayed output of a target has a distance, so the later look-ups cannot fail |
| AddressPlan.MakePlan | liquid_tracer/address_migration.py:67-146 | a plan exists exactly when the mapping is proven by the graph and canonical keys are free, and it is the only one that fits |
| AddressPlan.RekeyInjective | liquid_tracer/address_migration.py:121-124 | no two records that stay are given one key |
| AddressPlan.Rekey | liquid_tracer/address_migration.py:378-391 | the new mapping has each staying record under its new key with logical ends, and exactly the retired records fewer |
| AddressPlan.HomeStays | liquid_tracer/address_migration.py:136-138 | the circle an end is sent to is mapped, is not retired, and stands for the same address |
| AddressPlan.RewiresAvoidRemoved | liquid_tracer/address_migration.py:127-138 | no rewired end names a circle that will be deleted |
| AddressPlan.EndsCommute | liquid_tracer/address_migration.py:133-138 | after the switch a connector's logical ends lead to the very items its rewiring attached it to |
| AddressPlan.OneCirclePerAddress | liquid_tracer/address_migration.py:121-125 | after the switch every address has one circle, under its canonical key |
| AddressMigration.PlanIsSited | liquid_tracer/address_migration.py:127-138 | a plan moves an end only away from a retired circle, and never onto one |
| MergeRun.Recheck | liquid_tracer/address_migration.py:322-339 | a connector is patched only if its ends are where they were, or where a recorded attempt would have put them, as the board had them at that look; without foreign edits it is never refused |
| MergeRun.SendPatch | liquid_tracer/address_migration.py:340-356 | whatever the earlier mark, no request is sent before the attempt is recorded; success leaves the connector where planned, and every interruption leaves it covered by the record |
| MergeRun.RewireOne | liquid_tracer/address_migration.py:317-359 | one connector: other records untouched, ends as planned on success, the run's invariant kept from every interruption |
| MergeRun.CheckInventory | liquid_tracer/address_migration.py:210-227 | the inventory passes exactly when mapped connectors are present, no other connector touches a retired circle, and every end is where the records allow |
| MergeRun.DetachedMeans | liquid_tracer/address_migration.py:210-227 | after a passed final inventory no connector at all, managed or not, touches a retired circle, and every mapped one is at its new ends |
| MergeRun.InventoryPasses | liquid_tracer/address_migration.py:210-227 | without foreign edits the inventory passes at every point of a run |
| MergeApply.Precheck | liquid_tracer/address_migration.py:283-291 | two readings change nothing; passing them means all items present and untouched on the one board and a fine inventory of the other, and makes a fresh board ready |
| MergeApply.ReadInventory | liquid_tracer/address_migration.py:185-227 | the whole board as it is at that turn is read, recorded and judged, with connectors of every kind |
| MergeApply.Begin | liquid_tracer/address_migration.py:292-316 | the backup holds plan and mapping before the journal exists; an interruption between the two is taken up again |
| MergeApply.Inspect | liquid_tracer/address_migration.py:360-363 | whatever others did before, it goes on only if on the whole board, as read, no connector of any kind touches a retired circle; otherwise it refuses |
| MergeApply.DeleteOne | liquid_tracer/address_migration.py:364-380 | a circle is deleted only unchanged, after a full inventory showing nothing attached; a missing one is accepted only after a recorded attempt |
| MergeApply.Switch | liquid_tracer/address_migration.py:397-402 | one commit switches the mapping and drops the journal, or nothing changes |
| MergeApply.Carry | liquid_tracer/address_migration.py:281-380 | all board work: on success all ends are rewired and all retired circles gone; an unready board is refused before anything changes |
| MergeApply.Review | liquid_tracer/address_migration.py:149-167 | a pending run is accepted only under its own recorded plan, and an unchanged mapping is never refused |
| MergeApply.ApplyMerge | liquid_tracer/address_migration.py:250-402 | under any edits the record is what happened to the board, requests are safe, and all that the run takes off the board is taken justly; without foreign edits any interruption leaves a run that can be taken up or is finished, and it is never refused before the switch |
| AddressMigration.RemovalJustified | liquid_tracer/address_migration.py:355-380 | any object the run itself takes off the board is a retired circle just seen untouched, and in the same run, after its last PATCH, an inventory of the whole board showed no connector on a retired circle |
| AddressMigration.ChangeJustified | liquid_tracer/address_migration.py:317-380 | the run itself changes a connector only by a planned PATCH of ends just seen, or by deleting a circle it is attached to |
| MergeApply.Resume | liquid_tracer/address_migration.py:250-402 | after any sequence of interrupted runs one undisturbed run finishes, and the record of requests stays safe |
| MergeApply.FinishedOnce | liquid_tracer/address_migration.py:317-402 | all finished runs have one and the same board and mapping, however often they were interrupted |
| MergeApply.SwitchedOnce | liquid_tracer/address_migration.py:381-396 | the switched mapping is determined by the plan |
| MergeApply.FinishedDetached | liquid_tracer/address_migration.py:360-363 | on a finished board no connector is attached to a retired circle |
| MergeApply.ConvertAll | liquid_tracer/address_migration.py:250-402 | from an untouched mapping on a ready board, whatever number of runs is cut short, the last leaves every planned end in place, exactly the retired circles gone, and no connector on one of them |
| Groups.Grouping.Find | liquid_tracer/change_layout.py:63-71 | finds the least key of the group and shortens the path without changing any group |
| Groups.Grouping.Join | liquid_tracer/change_layout.py:73-76 | merges exactly the two groups, under the lesser root |
| Groups.Grouping.Collect | liquid_tracer/change_layout.py:78-82 | lists every group once, under its root, with all its members |
| Groups.JoinFinest | liquid_tracer/change_layout.py:73-76 | after every join the groups are the finest in which all joined pairs are together |
| Groups.FinerGroups | liquid_tracer/compaction.py:615-635 | fewer joined pairs never give coarser groups |
| HorizontalFloor.Ask | liquid_tracer/change_layout.py:97-111 | reading without pushing lazy values down still gives the greatest value over the cells of the range, within the 4n array |
| HorizontalFloor.Raise | liquid_tracer/change_layout.py:97-111 | a raise lifts exactly the cells of its range and touches nothing outside its subtree |
| HorizontalFloor.FitsChildren | liquid_tracer/change_layout.py:94-108 | with 4n slots both children of any node that splits lie within the arrays |
| HorizontalFloor.OverlapCells | liquid_tracer/change_layout.py:91-93 | overlapping spans share a compressed cell, so overlaps are not lost by compressing |
| HorizontalFloor.Floor.Range | liquid_tracer/change_layout.py:113-115 | the result is the greatest value of all earlier updates whose span overlaps the query |
| HorizontalFloor.Floor.Update | liquid_tracer/change_layout.py:113-115 | the tree keeps standing for the list of all updates so far |
| RowOrder.Drain | liquid_tracer/change_layout.py:149-157 | the drain leaves exactly the rows that belong to a set of rows waiting for each other |
| RowOrder.LeftAreTrapped | liquid_tracer/change_layout.py:149-162 | what is left undrained is characterised without the algorithm |
| ChangeConstraints.GroupProposals | liquid_tracer/change_layout.py:124-131 | rows and blocks are the finest groups that keep every proposal together |
| ChangeConstraints.Crowded | liquid_tracer/change_layout.py:135-142 | the sweep with a farthest right end finds exactly the objects that start too soon after some earlier object of the row |
| ChangeConstraints.OrderRows | liquid_tracer/change_layout.py:143-148 | a row precedes another exactly when some proposal puts a member of the other below it |
| ChangeConstraints.CollidingBlocks | liquid_tracer/change_layout.py:135-142 | exactly the blocks that hold a colliding object |
| ChangeLayout.Constraints | liquid_tracer/change_layout.py:123-163 | keeps exactly the proposals of blocks with neither a collision nor a cycle |
| ChangeRows.NoneCollides | liquid_tracer/change_layout.py:135-142 | among any proposals left in good blocks no row has a collision |
| ChangeRows.NoneTrapped | liquid_tracer/change_layout.py:158-162 | among any proposals left in good blocks no row waits for itself |
| ChangeRows.SecondPassRejectsNothing | liquid_tracer/change_layout.py:409-413 | one-shot rejection is complete: the second call of the constraint pass has nothing to reject |
| ChangeLayout.Shape | liquid_tracer/change_layout.py:118-120 | a row's reserve is the reach of its members and half the spacing, its wish the height of its first transaction, column and key |
| RowPacking.PlaceRows | liquid_tracer/change_layout.py:183-201 | places exactly the rows that do not wait for themselves, each in its turn: of all free rows the one with the least wish, then key; beneath every earlier row whose reserve it shares, below its wish and its parents, and no lower than something holds it |
| RowPacking.PlaceOne | liquid_tracer/change_layout.py:187-197 | one row falls onto its wish, a parent or the floor |
| RowPacking.PackedGrow | liquid_tracer/change_layout.py:187-193 | a row put below its parents and the floor keeps all rows apart |
| RowPacking.SettledGrow | liquid_tracer/change_layout.py:187-193 | the row it rests on is exactly the spacing above it |
| RowPacking.SeparateComponents | liquid_tracer/change_layout.py:212-222 | of two components with rows that overlap the one that comes first stays above, by the component spacing; a component moves down only as far as one before it stops it |
| RowPacking.FirstStays | liquid_tracer/change_layout.py:212-222 | the first component never moves |
| ChangePlacement.PackComponent | liquid_tracer/change_layout.py:173-201 | every row of an affected component is placed, in its turn |
| ChangePlacement.OrderIsLocal | liquid_tracer/change_layout.py:168-172 | the order of rows never crosses components, so components can be packed alone |
| ChangePlacement.PackRows | liquid_tracer/change_layout.py:166-202 | exactly the components of kept proposals are packed, and their members written to the height of their row |
| ChangeDrawing.Separate | liquid_tracer/change_layout.py:205-222 | components are taken from the top, by their original upper edge and then their least key; of two that overlap the upper stays above, and every object moves down by the shift of its component |
| ChangeDrawing.AllHonoured | liquid_tracer/change_layout.py:166-222 | the finished drawing: rows level, requested objects below, rows of a touched component and rows of different components spaced, untouched components moved rigidly |
| ChangeDrawing.NothingCovered | liquid_tracer/change_layout.py:166-222 | two objects that overlap sideways end apart vertically: by the spacing within a touched component, by the component spacing across components |
| ChangeDrawing.LaidOutIsFinished | liquid_tracer/change_layout.py:166-222 | whatever strips and shifts the layout used, the drawing it leaves has all requests honoured, every overlapping pair spaced, originally upper components above the ones they overlap, and each untouched component moved down as one piece |
| ChangeDrawing.Apply | liquid_tracer/change_layout.py:409-417 | judges, packs and separates: the drawing is the one laid out for the kept proposals and has the finished form, for all pairs of objects; upper components stay above; without kept proposals it is unchanged |
| ChangeProposals.Components | liquid_tracer/change_layout.py:375-384 | components are the finest groups that keep the ends of every edge together |
| ChangeProposals.Propose | liquid_tracer/change_layout.py:387-407 | a designation becomes a proposal exactly when its edge is visible, its address carries no other outpoint, and there is forward space; the only spender with room joins the row, all other outputs go below |
| ChangeProposals.ProposalIsLocal | liquid_tracer/change_layout.py:383-407 | a proposal follows edges, so it stays within one component |
| ChangeProposals.ApplyChangeLayout | liquid_tracer/change_layout.py:363-417 | from edges and designations to the drawing: all usable designations are proposed, exactly the ones in good blocks kept, all of those honoured; over the finest components of the edges every overlapping pair ends spaced, upper components stay above, and untouched components move as one piece |
| ChannelRoutes.ShiftKeepsOrder | liquid_tracer/change_layout.py:280-285 | the vertical mapping keeps the order of heights strictly, so channels that were apart stay apart |
| ChannelRoutes.ShiftIsRigid | liquid_tracer/change_layout.py:280-285 | when both ends move alike the whole route moves as one piece |
| ChannelRoutes.RetargetedFits | liquid_tracer/change_layout.py:265-290 | an orthogonal route that is not level from end to end is retargeted exactly when any route at all with the same side positions and order of heights joins the new ends, and then to such a route |
| AttachmentOrder.CoversNext | liquid_tracer/attachment_order.py:37-41 | climbing by the low bit visits exactly the nodes whose range holds the rank |
| AttachmentOrder.Query | liquid_tracer/attachment_order.py:31-35 | descending by the low bit adds up all ranks up to the given one |
| AttachmentOrder.Insert | liquid_tracer/attachment_order.py:37-42 | every node goes on counting the ranks of its range |
| AttachmentOrder.CountGroup | liquid_tracer/attachment_order.py:27-35 | ports at one height are counted against earlier ones and never against each other |
| AttachmentOrder.InversionsArePairs | liquid_tracer/attachment_order.py:16-23 | the running count is the number of inverted pairs |
| AttachmentOrder.InversionsPermuted | liquid_tracer/attachment_order.py:26-28 | the input order does not matter |
| AttachmentOrder.InversionsMirrored | liquid_tracer/attachment_order.py:16-23 | exchanging the two coordinates does not matter |
| AttachmentOrder.CountInversions | liquid_tracer/attachment_order.py:16-44 | the result is the number of pairs with strictly smaller local and strictly larger opposite coordinate |
| AttachmentOrder.CountCoinciding | liquid_tracer/attachment_order.py:91-91 | the sum of c(c-1)/2 is the number of pairs that share a place |
| GridIndex.SharedSquare | liquid_tracer/compaction.py:134-140 | boxes with a common point reach a common square |
| GridIndex.Budget.Spend | liquid_tracer/compaction.py:117-122 | grants as often as the budget says, and records that it ran out |
| GridIndex.Index.Add | liquid_tracer/compaction.py:142-151 | stores or replaces one box; cells, memberships and overflow stay consistent |
| GridIndex.Index.Remove | liquid_tracer/compaction.py:153-164 | removes one box and every trace of it |
| GridIndex.Index.Query | liquid_tracer/compaction.py:166-190 | gives no answer exactly when a cell, bucket, item or budget limit is met; otherwise all near candidates, once each, at one unit of budget each |
| GridIndex.AnswerIsComplete | liquid_tracer/compaction.py:166-190 | an answer holds every stored box that meets the query box, and only boxes within the tolerance |
| ComponentPacking.Blocker | liquid_tracer/compaction.py:719-727 | reports no blocker exactly when nothing blocks, else the one with least bottom, right end and key |
| ComponentPacking.LookAt | liquid_tracer/compaction.py:716-727 | a place is taken only if every other component is spaced away and the fee connectors are clear; an unanswered query never takes |
| ComponentPacking.PushedPast | liquid_tracer/compaction.py:728-738 | the next look is clear of the component that blocked the last and keeps within the outline in the direction of the push |
| ComponentPacking.TryFrom | liquid_tracer/compaction.py:706-738 | at most six looks, each past the last blocker; while the budget lasts, no place looked at is free and better than the one remembered |
| ComponentPacking.Place | liquid_tracer/compaction.py:702-738 | the place chosen is acceptable, and while the budget lasts none of the starting places is free and better |
| ComponentPacking.SpacedStep | liquid_tracer/compaction.py:742-757 | moving one component keeps the spacing of all that moved before |
| ComponentPacking.CarriedStep | liquid_tracer/compaction.py:744-755 | contents move with their own component and no other |
| ComponentPacking.PackOne | liquid_tracer/compaction.py:690-760 | a component that stays had no free starting place, unless the budget ran out |
| ComponentPacking.PackComponents | liquid_tracer/compaction.py:648-763 | moved components: rigid, inside both outlines, better placed, spaced from all others, clear of fee connectors; fixed ones stay; unless the budget ran out, every other component in its turn takes a place no worse than any free starting place, and stays only if there is none |
| ComponentPacking.NoNewCloseness | liquid_tracer/compaction.py:716-763 | any two final envelopes are spaced or both unmoved, and all lie in the original outline |
| AddressCompaction.SiblingOrder | liquid_tracer/compaction.py:518-545 | from nodes and edges: exactly the columns and sides of transactions are listed from the top, the limits of a key are its neighbours in those lists and nothing else, neighbours see each other, and every key lies between its own |
| AddressCompaction.LimitsAreMutual | liquid_tracer/compaction.py:528-545 | neighbours see each other, so a later move meets the same bound |
| AddressCompaction.Clamp | liquid_tracer/compaction.py:567-572 | clamping against one pair after another ends at the allowed height nearest to the wish |
| AddressCompaction.MoveKeepsHeld | liquid_tracer/compaction.py:567-572 | one allowed move disturbs no order, its own or its neighbours' |
| AddressCompaction.HeldKeepsOrder | liquid_tracer/compaction.py:518-545 | as long as every key is held, each group keeps its order |
| AddressCompaction.Eligible | liquid_tracer/compaction.py:496-515 | exactly which addresses may move, and the room their links leave |
| AddressCompaction.Proposals | liquid_tracer/compaction.py:576-583 | exactly the fractions that lead elsewhere within the room are proposed, once each and in order, and all lie on the way to the wish |
| AddressCompaction.FirstSafe | liquid_tracer/compaction.py:585-609 | the first proposal that is nearer and safe is taken; if none is taken none was |
| AddressCompaction.TryAddress | liquid_tracer/compaction.py:556-612 | one turn: an address that may move takes the first step that is nearer and passes the check, and stays only if there is none; all orders and distances are kept |
| AddressCompaction.CompactAddresses | liquid_tracer/compaction.py:548-612 | drawing by drawing, every address that is not locked has its turn with its own check and takes the first acceptable step or is stuck; over the whole run every column and sibling group keeps its weak order, and every moved address keeps its distances and is nearer to its transaction |
| CountCache.Merge | liquid_tracer/address_counts.py:114-119 | a merged record is exactly one of the two given, the row when it is no older |
| CountCache.OverlayIsNewest | liquid_tracer/address_counts.py:114-119 | a merge is as new as the newer side, for every address |
| CountCache.Journal.Write | liquid_tracer/address_count_cache.py:154-164 | a batch replaces rows of its own source only |
| CountCache.Journal.Compacted | liquid_tracer/address_count_cache.py:166-172 | clears the rows of its own source only |
| CountCache.ExportKeeps | liquid_tracer/address_counts.py:356-366 | replacing the JSON file harms no reader, as long as what only the old file of another source held is in the journal and in the snapshots of readers under way |
| CountCache.ClearKeeps | liquid_tracer/address_count_cache.py:166-172 | clearing the journal after the export loses nothing of its source and touches no other |
| CountCache.OpenKeeps | liquid_tracer/address_count_cache.py:73-102 | reading the file as unchanging is safe: it happens only under the shared lock without a log |
| CountCache.StepKeeps | liquid_tracer/address_count_cache.py:105-172 | every careful step of writer and readers, of any sources, and every crash keeps what readers rely on |
| CountCache.ReadersSeeAll | liquid_tracer/address_count_cache.py:106-131 | over every interleaving of careful steps a reader has, for every address of its source, an observation at least as new as any saved before it began |
| CountHistory.ReadersHoldSaved | liquid_tracer/address_counts.py:107-120 | over every run, careful or not, each record a finished reader holds was given or fetched for its very source and address, and then saved |
| CountHistory.FloorIsAllSaved | liquid_tracer/address_count_cache.py:106-131 | a reader that begins is owed every observation of its source that any commit or export saved before |
| CountHistory.ReadersHoldNewest | liquid_tracer/address_counts.py:107-120 | after a careful run a finished reader holds, for everything saved before it began, a saved record at least as new |
| CountCache.CarefulIsExact | liquid_tracer/address_counts.py:90-120 | after any careful run, the next step is careful if and only if no careful continuation of it makes a reader miss anything saved before it began |
| CountCache.CheckedRunsSeeAll | liquid_tracer/address_counts.py:317-366 | what the writer can check itself suffices: a fetch no older than the count it holds, an export over no other source's file |
| CountCache.HeldIsEnough | liquid_tracer/address_counts.py:330-334 | a fetch no older than the count the writer holds for its address is no older than anything saved for it |
| CountCache.OlderFetchIsLost | liquid_tracer/address_counts.py:330-366 | a run from the empty store, one fetch, then a refresh dated earlier, ends with a reader that misses the newer observation |
| CountCache.OtherSourceIsLost | liquid_tracer/address_counts.py:102-103 | a run from the empty store for one source, then one for another, ends with a reader of the first that misses what it saved |
| BoardDeletion.StepKeeps | liquid_tracer/board_deletion.py:146-184 | every step, crash and lost reply keeps what the receipt promises |
| BoardDeletion.WritableMeansRefused | liquid_tracer/board_deletion.py:55-60 | while a board may be written, or is, every request ever sent was definitely refused |
| BoardDeletion.Board.CanWrite | liquid_tracer/board_deletion.py:55-60 | other operations may write exactly while nothing is pending, in doubt or deleted, and then every request ever sent was definitely refused |
| BoardDeletion.DeletedMeansConfirmed | liquid_tracer/board_deletion.py:172-180 | a deletion is recorded only after a 204 |
| BoardDeletion.NeverWritableAgain | liquid_tracer/board_deletion.py:149-171 | once a request is in doubt no later refusal frees the board |
| BoardDeletion.DeletedIsFinal | liquid_tracer/board_deletion.py:139-142 | after a recorded deletion nothing more is sent |
| BoardDeletion.Board.Delete | liquid_tracer/board_deletion.py:114-194 | one attempt: what is recorded for every reply, doubt and failed save |
| BoardCreation.AtMostOneCreation | liquid_tracer/boards.py:70-147 | over all runs at most one creation request was not definitely refused |
| BoardCreation.CreatedIsAcknowledged | liquid_tracer/boards.py:133-147 | a created receipt names the board of the last request's acknowledgement |
| BoardCreation.NoSecondRequest | liquid_tracer/boards.py:96-105 | while an intent is pending or a board recorded no further request is sent |
| BoardCreation.Case.Create | liquid_tracer/boards.py:70-156 | the linked board if it may be written, the recorded one, or exactly one new request; which result every reply, failed receipt and failed link gives, and what is recorded; an acknowledged board that is saved and linked is made |
| Prefetch.Unique | liquid_tracer/api.py:792-792 | each endpoint once, in the order of first occurrence |
| Prefetch.Run.Submit | liquid_tracer/api.py:801-818 | fills the window up to its size or the first refused request, and never beyond the ceiling |
| Prefetch.Run.Deliver | liquid_tracer/api.py:820-841 | one result is handed over once, and the endpoint let go |
| Prefetch.Run.Collect | liquid_tracer/api.py:849-860 | all outcomes are looked at before any is handed over; the stop becomes the reason of a hard limit among them, or stays |
| Prefetch.Run.Complete | liquid_tracer/api.py:852-867 | completed requests leave the window, and the run stops exactly when a hard limit is among them or the consumer objects |
| Prefetch.Run.Turn | liquid_tracer/api.py:845-869 | all outcomes are looked at before any is handed over, and nothing is submitted once a stop is seen |
| Prefetch.Run.Report | liquid_tracer/api.py:870-872 | one result per endpoint in input order, with the reason for those never submitted |
| Prefetch.Prefetch | liquid_tracer/api.py:777-898 | a whole run: bounded in flight, endpoints sent in order and none after a hard limit was seen or the consumer objected, each delivered once, the report complete and in order, with the reason that the record gives for those never sent |
| Prefetch.NothingSentAfter | liquid_tracer/api.py:857-869 | in the record of such a run no send follows, anywhere, what ended it |
| ContextSummaries.DeriveGroups | liquid_tracer/context_connectors.py:44-124 | the loop over group nodes gives the specified summaries, in the order of the groups: each stands for different edges between its own two ends, lists them in ascending order, says what the group's record says, no two share their ends, and every edge at a group is stood for |
| ContextSummaries.GroupAccepted | liquid_tracer/context_connectors.py:71-108 | a group is accepted exactly when its record names its transaction, fits its members, and lists its edges once each and in ascending order |
| ContextSummaries.OnlyHideable | liquid_tracer/context_connectors.py:77-89 | every member of an accepted group is a plain address, unprotected, not on display and no hub |
| ContextSummaries.DeriveParallel | liquid_tracer/context_connectors.py:132-195 | the candidate lists give the specified summaries, ascending by their ends: each stands for different edges between its own two ends, in ascending order, and all inputs that may be bundled with another are |
| ContextSummaries.DerivedSound | liquid_tracer/context_connectors.py:198-208 | every summary stands for different edges between its own two ends, counts them, and shares its ends with no other |
| ContextSummaries.ParallelComplete | liquid_tracer/context_connectors.py:154-194 | two or more inputs that may be bundled between one address and one transaction are all bundled |
| ContextSummaries.OnlyBundles | liquid_tracer/context_connectors.py:155-180 | a parallel summary stands only for inputs that may be bundled |
| ContextSummaries.ProtectedStays | liquid_tracer/context_connectors.py:139-166 | an input that spends a starting or designated output, or goes on from an output on display, is in no parallel summary |
| ContextSummaries.GroupsComplete | liquid_tracer/context_connectors.py:90-117 | every edge at a group of isolated addresses is stood for by the group's summary |
| ContextConnectors.EachEdgeOnce | liquid_tracer/context_connectors.py:254-269 | each edge is drawn itself or belongs to exactly one summary between the same objects |
| ContextConnectors.VisibleInOrder | liquid_tracer/context_connectors.py:254-269 | edges drawn themselves keep their order |
| ContextConnectors.CountsAddUp | liquid_tracer/context_connectors.py:262-264 | drawn edges and summary counts add up to all edges |
| ContextConnectors.SameConnections | liquid_tracer/context_connectors.py:254-269 | the drawing connects exactly the objects that the evidence connects |
| ContextConnectors.DrawnDistinct | liquid_tracer/context_connectors.py:35-41 | all identities of the projection are different |
| ContextConnectors.EvidenceIsOriginal | liquid_tracer/context_connectors.py:272-286 | the evidence behind a projection is the original list of edges |
| ContextConnectors.UntouchedRestores | liquid_tracer/context_connectors.py:292-320 | drawing and restoring untouched gives back the original graph |
| ContextConnectors.RedrawnRestores | liquid_tracer/context_connectors.py:292-320 | after any change of geometry restoring succeeds with the original edges in their order, hidden ones untouched |
| ContextConnectors.RestoredEvidence | liquid_tracer/context_connectors.py:303-310 | whatever was done to the drawing, an accepted restore has the original edges in order with all compared fields as they were |

## Left out

- Connections.ConnectingOutpoints: the shortest-route scope and the branches for named hops and hop limits outside saved evidence (`connections.py:232-261`) call routines that are not part of this model.
- Connections.Search: the stop and confirmation rules of the traced selection are given as a set of hidden outpoints.
- MergeApply.ApplyMerge: other people edit between steps, never within one; the board is a map of connectors and shapes; pagination, tokens, quotas and the text of a circle are not modelled, only whether its content is untouched.
- AddressPlan.MakePlan: the archive, namespace and annotation checks that precede the plan are left to the caller.
- HorizontalFloor.Ask: the source's one routine is split in two, for reading and for raising, by whether a value is given.
- ChangeProposals.ApplyChangeLayout: fee objects, reasons for skipping and the report are not modelled; a proposal is told apart by its content instead of its outpoint, and transactions are never fee objects.
- ChangeDrawing.Separate: heights are not rounded to four digits; neither are those of `PackRows`.
- AttachmentOrder.CountInversions: the choice of edges and sides that feeds the count is not modelled.
- GridIndex.Index.Query: candidates are visited in an arbitrary order instead of a sorted one, so which prefix was paid for before a limit is not stated.
- ComponentPacking.PackComponents: the order of turns is given, where the source sorts components by upper edge, left end and key; envelopes and obstacles are given; labels, frames and route estimates enter only through them.
- AddressCompaction.CompactAddresses: the order of turns is given, where the source sorts addresses by side position, height and key; the geometric check, which also looks at routes that earlier moves changed, and the length of routes are one arbitrary predicate for each turn; the budget is an arbitrary function, and distances are an arbitrary length of the difference.
- AddressCompaction.SiblingOrder: objects at one height are listed in an arbitrary order instead of by side position and key; a caller's own columns are taken to be already in the nodes.
- CountCache.ReadersSeeAll: checksums and damaged files are not modelled; a commit is atomic and a database snapshot is consistent.
- BoardCreation.Case.Create: the access token and the wording of the request are not modelled, and the check that a board may be written is an arbitrary predicate.
- BoardDeletion.Board.Delete: locks across cases and the local link are not modelled, only that writers and a deletion exclude each other.
- Prefetch.Prefetch: exceptions and interrupts are not modelled, and a run may end with requests in flight when its events do.
- ContextSummaries.DeriveParallel: the digest in an identity is taken to be injective, and outpoints to be well formed.
- ContextConnectors.RedrawnRestores: summaries of the third version are derived by a routine that is not part of this model, so that version is refused here.
- ChannelRoutes.RetargetedFits: heights are exact, so nothing can overflow; the other connector routes and the port order at centred outputs (`change_layout.py:225-255`, `change_layout.py:293-360`) are not modelled.
- The retry loop, pacing and quotas of the HTTP client (`api.py:109-167`, `api.py:414-660`).
- Screens, exports, labels, archives, import tables and the layout engine itself.
