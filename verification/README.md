# Verified model of the game server's data structures

A Dafny model of the parts of the game server whose correctness does not depend on sockets, scripts or the
database: nested containers and stack moves, saving and loading items and conditions, the OTB tree format, the
walkability cache, the decay wheel, the trade protocol, money, damage lists, speed bonuses and area matrices.
`dafny verify dfyconfig.toml` checks everything.

Where the source changes state step by step, the model does too: classes with the source's fields, methods with its
loops. Each such method is tied to a function of the old state, and the properties are proved about those functions,
for every input and every run. What an operation does is said a second time over the fields themselves, without its
function: that is what keeps the functions honest. Most lemmas carry `{:induction false}`: their bodies are the proofs.

| file | subject |
|---|---|
| `arithmetic.dfy` | whole division, wrap-around (`Arithmetic`) |
| `container.dfy` | items and containers, cached weights, cycles (`Containers`) |
| `forestruns.dfy` | runs of container operations; a cached total is a recursive sum (`ForestRuns`) |
| `iterator.dfy` | the breadth-first container iterator (`Iterators`) |
| `holdings.dfy` | how much of a kind a container holds (`Holdings`) |
| `moves.dfy`, `game.dfy` | the decision and the effect of a move; the methods (`Moves`, `Game`) |
| `movelaws.dfy` | where a move ends, who refuses it and what it changes, over the fields alone (`MoveLaws`) |
| `overflow.dfy` | a run that leads to a lossy move (`Overflow`) |
| `adding.dfy` | adding an item wherever it fits (`Adding`) |
| `saveload.dfy` | items to rows and back (`SaveLoad`) |
| `bytes.dfy`, `propstream.dfy` | bytes, attribute streams (`Bytes`, `PropStreams`) |
| `fileloader.dfy`, `loader.dfy` | the OTB grammar and scan; the loader (`OtbFormat`, `OtbLoader`) |
| `conditionstream.dfy` | conditions to bytes and back (`ConditionStream`) |
| `walkcache.dfy` | the walkability cache (`WalkCache`) |
| `decay.dfy` | the decay wheel (`DecayWheel`) |
| `stranded.dfy` | items that stay marked without a place on the wheel (`StrandedItems`) |
| `trade.dfy` | the trade protocol (`Trade`) |
| `money.dfy` | paying and receiving money (`Money`) |
| `damagelist.dfy` | damage over time (`DamageList`) |
| `speed.dfy` | speed conditions (`SpeedConditions`) |
| `area.dfy` | area matrices of spells (`Areas`) |
| `spread.dfy` | fan-shaped areas (`Spreads`) |

## Where the code falls short of what it is for

The model follows the code. In these places the intended property fails, and the model proves exactly when it holds.

- A printed OTB file whose root has neither properties nor children is seven bytes long and is refused by the size
  check (`OtbLoader.PrintedTreeLoads`).
- After a south-diagonal step the first and the last row of the walkability cache are shifted wrongly, because the
  step's height is taken as an absolute value (`WalkCache.SouthDiagonalRightIff`, `WalkCache.SafeDirections`).
- The mirror and flip centres swap rows and columns; they are right for a square area
  (`Areas.MirrorIsExactIffSquare`, `Areas.FlipIsExactIffSquare`).
- The diagonal areas are reflections of the north-western one and not its turns, so off the axes the hit cells do not
  turn with the target unless that area is its own reflection about the diagonal (`Areas.DiagonalChoiceTurnsIff`).
- The hits of a damage list exceed the amount if it is smaller than one hit of every size from the start down to 1
  (`DamageList.DamagesAreExactIff`).
- Adding money wraps at 32 bits and truncates coin counts to 16 bits (`Money.AddedIsExactIff`).
- A condition whose type does not fit 32 bits is written as type zero, and reading stops there; and the flags of a
  reloaded condition are shifted by one place (`ConditionStream.AllSurviveIff`, `ConditionStream.RestoredKeeps`).
- Items saved from a depot numbered 100 or more are in the list of no depot when they are loaded. If the number happens
  to be the sid of a container, they end up in that container, and nowhere otherwise (`SaveLoad.WhereItemsGo`). So even
  the depots with smaller numbers are restored if and only if no such number is the sid of a container inside them
  (`SaveLoad.PlacesRestoredIff`); `SaveLoad.CoinInTheWrongBag` is an instance.
- A move with the no-limit flag into a container that already holds more than its capacity, in which the first stack
  with room lies beyond the capacity, loses what that stack cannot take (`Moves.DecidedMoveConservesIff`). As long as
  no container holds more than its capacity nothing is lost (`Moves.FittingNeverOverflows`); a run in which it happens
  is `Overflow.OverfullBagLosesCoins`.
- An item stays marked as decaying although it is in no place any more if and only if its time is up on some tick and
  it does not come back as itself: when it decays into nothing or turns into another item
  (`StrandedItems.TickStrandsIff`, `StrandedItems.MarkIsRightIff`).

## Model

| member | source | states |
|---|---|---|
| Containers.Item.UpdateItemWeight | src/container.cpp:136-142 | the walk up the parent chain ends and adds the difference, modulo 2^32, to every total on it and to nothing else |
| Containers.WalkShifts | src/container.cpp:136-142 | the whole walk takes the difference from what one container's total lacks and leaves every other container's total as right or wrong as it was |
| Containers.WrapIsRemainder | src/container.cpp:136-147 | the unsigned arithmetic of the totals, defined turn by turn, is the remainder modulo 2^32 |
| Containers.Item.GetWeight | src/container.cpp:144-147 | a container reports its own weight and its cached total; a thing that is no container the weight of its kind, a stack that many times |
| Containers.Item.QueryAdd | src/container.cpp:256-316 | the answer of the upward walk and the room check, with every refusal in the source's order |
| Containers.Item.IsUnder | src/container.cpp:279-308 | the upward walk ends and finds an item exactly if it is the container or above it |
| Containers.CycleIff | src/container.cpp:275-308 | hanging an item under a container closes a cycle exactly if the item is the container or above it, which is when the walk refuses |
| Containers.Item.GetThingIndex | src/container.cpp:627-637 | the first slot of a thing, or -1 |
| Containers.Item.AddThing | src/container.cpp:476-489 | nothing at a slot beyond the capacity; otherwise the item in front, its parent set, the totals raised by its weight |
| Containers.Item.InternalAddThing | src/container.cpp:713-727 | the same without the capacity check |
| Containers.Item.AddItemBack | src/container.cpp:513-516 | the item at the end, its parent set, the totals raised |
| Containers.AttachSound | src/container.cpp:486-489 | attaching an accepted item anywhere in a list keeps the tree, the absence of cycles and every cached total right |
| Containers.Item.UpdateThing | src/container.cpp:524-541 | a listed item gets another kind and count and the totals follow; an unlisted one stays |
| Containers.ChangeSound | src/container.cpp:536-541 | changing an item in place keeps every cached total right |
| Containers.Item.ReplaceThing | src/container.cpp:549-569 | the slot holds the new item, the old one is let go, the totals move by the difference, in the source's order of steps |
| Containers.SwapSound | src/container.cpp:561-569 | a replacement keeps the tree, the absence of cycles and every cached total right, although parents and lists disagree in between |
| Containers.Item.RemoveThing | src/container.cpp:571-602 | a part of a stack is taken, or the whole thing leaves its list and loses its parent; the totals follow |
| Containers.ThingRemovedSound | src/container.cpp:583-602 | partial and full removal keep the tree, the absence of cycles and every cached total right |
| Containers.DetachSound | src/container.cpp:594-602 | lowering the totals before the item leaves the list comes to the same as after |
| Containers.EnterSound | src/item.cpp:165-177 | a new item, in no container, disturbs nothing |
| ForestRuns.StepKeepsSound | src/container.cpp:476-602 | no single allowed operation makes a cached total wrong or closes a cycle |
| ForestRuns.RunKeepsSound | src/container.cpp:136-142 | over every run in which items are attached only after acceptance, all totals are right and all upward walks end |
| ForestRuns.RunFromNothing | src/container.cpp:136-142 | every run from an empty world ends with all totals right and all upward walks ending |
| ForestRuns.TotalIsEverythingInside | src/container.cpp:136-147 | a cached total equals, modulo 2^32, the recursive sum of the weights of everything inside, at any depth |
| ForestRuns.WeightIsInside | src/container.cpp:144-147 | what an item reports is its own weight and that of everything inside, modulo 2^32 |
| Iterators.ContentsAreInside | src/container.cpp:754-787 | the iterator's sequence holds exactly the items that have the container above them |
| Iterators.ContentsOnceByDepth | src/container.cpp:754-787 | no item comes twice, and none before a less deeply nested one |
| Iterators.AdvanceServes | src/container.cpp:769-787 | an advance takes the first pending item away and queues what it holds at the end |
| Iterators.GoingOn | src/container.cpp:769-787 | the queue of containers and the slot always stand for the rest of the level order |
| Iterators.ContainerIterator.constructor | src/container.cpp:754-762 | a new iterator is about to visit everything inside, in level order |
| Iterators.ContainerIterator.HasNext | src/container.h:22-24 | there is a next item exactly if something has not been visited |
| Iterators.ContainerIterator.Current | src/container.cpp:764-767 | the current item is the first that has not been visited |
| Iterators.ContainerIterator.Advance | src/container.cpp:769-787 | exactly the current item is done with |
| Iterators.ContainerIterator.GoToNext | src/container.cpp:769-787 | the queue and the slot after one advance |
| Iterators.GetItemHoldingCount | src/container.cpp:189-196 | the number of items with the container above them, modulo 2^32 |
| Iterators.IsHoldingItem | src/container.cpp:198-206 | true exactly for the items with the container above them |
| Iterators.GetItems | src/container.cpp:671-684 | the recursive list is the level order |
| Holdings.AttachHolds | src/container.cpp:486-489 | attaching adds the item's count to that container and kind and to no other |
| Holdings.DetachHolds | src/container.cpp:594-602 | full removal takes the item's count from that container and kind and from no other |
| Holdings.ChangeHolds | src/container.cpp:583-588 | a new count changes what that container holds of that kind by the difference, and nothing else |
| Holdings.AddingHangs | src/container.cpp:476-489 | an added thing comes first in the list and gets the container as its parent; with a slot beyond the capacity nothing happens; kinds, counts and everything else stay |
| Holdings.LoadingHangs | src/container.cpp:513-522 | a thing added back comes last, one added internally first, whatever the capacity |
| Holdings.UpdateChanges | src/container.cpp:524-545 | an update changes kind and count of a listed thing and nothing else, and nothing at all of an unlisted one |
| Holdings.ReplacementHangs | src/container.cpp:547-569 | the slot gets the new thing, the old one loses its parent, and a slot that does not exist changes nothing |
| Holdings.RemovalTakes | src/container.cpp:571-602 | a stack not removed exactly whole keeps its place with a lower count, never below zero; everything else leaves its list and loses its parent; an unlisted thing stays |
| Game.QueryDestination | src/container.cpp:399-469 | where a container sends an item, said about the fields: 254 to its parent, a slot that holds a container to that container, everything else to itself and to the slot that stacking picks; a locked container keeps everything |
| Game.PickSlot | src/container.cpp:438-468 | the stack at the slot if it is small enough, else the first stack that takes more, else the slot |
| Game.FindStack | src/container.cpp:458-466 | the first slot that holds a stack of the same kind with room |
| Game.QueryMaxCount | src/container.cpp:318-369 | free slots and room on stacks, modulo 2^32, and whether that is enough |
| Game.StackSpace | src/container.cpp:335-347 | the sum of the room on all accepted stacks, modulo 2^32 |
| Game.QueryRemove | src/container.cpp:371-397 | unlisted, zero, too many and unmoveable are refused |
| Game.FindDestination | src/game.cpp:1191-1204 | the destinations are followed for at most sixteen hops, with the flags cleared after the first |
| Moves.HopsAreGood | src/game.cpp:1191-1204 | wherever the hops end, the slot and the item in it belong together and the slot is within the capacity if it is empty |
| Game.Consider | src/game.cpp:1190-1291 | the decision about a move: the route, then all refusals in the source's order, then the amount |
| Game.IsTraded | src/game.cpp:1277-1291 | the walk finds an item on offer exactly if it is the destination or above it |
| Game.TakeAndMerge | src/game.cpp:1293-1304 | the amount is taken and as much of it merged as the target stack has room for |
| Game.CarryOut | src/game.cpp:1293-1327 | the state after a move, including the copy that carries what does not merge |
| Game.InternalMoveItem | src/game.cpp:1168-1372 | a refused move changes nothing. A decided one ends in the container in the slot asked for, in the parent for 254, otherwise in the target; in the stack asked for if it is below a hundred, otherwise in the first one with room, otherwise in the slot asked for; what is placed has that container as its parent. Parents, lists, kinds and counts change as the move says and nowhere else; cached weights and stack bounds stay right, and without the no-limit flag container bounds too |
| MoveLaws.DestinationIsRight | src/container.cpp:399-469 | what one container answers, over parents and lists: whom it sends a thing to, and which slot it gives it |
| MoveLaws.DecidedMoveEnds | src/game.cpp:1191-1204 | for every decided move: the container is the one in the slot, the parent, or the target, and the slot is the one that stacking asks for; a thing sent on asks for no slot and stacks whatever the flags said |
| MoveLaws.RoomIsLacking | src/container.cpp:335-347 | the room on the stacks of a kind is ten thousand for each of them less what the list holds of the kind, the moved stack left out |
| MoveLaws.DecisionIsAnswered | src/game.cpp:1190-1291 | every decision, over the fields: locked, already there, not pickupable, into itself, no room, not listed or too many, not moveable, on offer, in this order; otherwise the move goes ahead with what is asked for or what fits, if that is less |
| MoveLaws.MoveChanges | src/game.cpp:1293-1327 | the whole effect of a move on parents, lists, kinds and counts: what leaves, what joins the stack, what comes first in the target's list, and that nothing else changes |
| Moves.DecidedMoveIsSafe | src/game.cpp:1206-1291 | a decided move removes no more than there is, closes no cycle and, without the no-limit flag, finds the free slot that it needs |
| Moves.MoveConserves | src/game.cpp:1293-1327 | for every container and every kind: the origin loses and the target gains exactly what is carried, everything else stays |
| Moves.MoveConservesIff | src/game.cpp:1304-1327 | for the steps of a move taken alone: the target receives what was taken exactly if the slot that is needed, if any, is within its capacity |
| Moves.DecidedMoveConservesIff | src/game.cpp:1168-1372 | for every decided move, with or without the no-limit flag: the target receives what was taken if and only if it does not overflow, which asking for the destination tells beforehand |
| Moves.SlottedUnlessOverflow | src/container.cpp:476-480 | a decided move lacks the slot that it needs exactly if the target overflows |
| Moves.FittingNeverOverflows | src/container.cpp:399-469 | a container that holds no more than its capacity never overflows |
| Overflow.OverfullBagLosesCoins | src/game.cpp:1293-1327 | from an empty world a run of allowed operations leads to a bag that overflows: a move of ten coins is decided, and five of them are lost |
| Moves.MoveLoses | src/container.cpp:476-480 | without that slot exactly the part that does not merge is lost |
| Moves.MoveKeepsBounds | src/game.cpp:1293-1327 | a move that finds its slot lets no stack grow beyond the maximal count and, if there is a free slot when one is needed, no container beyond its capacity |
| Moves.MoveKeepsStacks | src/game.cpp:1293-1327 | even a move that loses something keeps the cached weights right and every stack within the maximal count |
| Moves.SuccessfulMove | src/game.cpp:1168-1372 | everything at once for whatever is decided: weights and stack bounds, container bounds without the no-limit flag, and conservation of every kind in every container unless the target overflows |
| Adding.RestPasses | src/game.cpp:1405-1420 | after a merge the remainder passes the same questions again, so the recursion cannot fail |
| Adding.RestHasRoom | src/container.cpp:335-369 | a merge uses up as much of the reported maximum as it merges, and a free slot remains when no stack takes the rest |
| Adding.RestAdded | src/game.cpp:1405-1420 | the merged part and the recursive addition of the rest add up to the whole |
| Adding.InternalAddItem | src/game.cpp:1374-1449 | ends, fails only if a question is answered badly and then changes nothing, leaves no remainder, adds exactly the item's count to that container and kind; stacks and, without the no-limit flag, containers stay within their bounds |
| Adding.AdditionIsAnswered | src/game.cpp:1374-1407 | who refuses an addition, over the fields: locked, not pickupable, into itself, full unless the thing can join a stack, or not enough room for all of it |
| SaveLoad.SaveItems | src/iologindata.cpp:635-706 | the rows are those of the breadth-first list of all items |
| SaveLoad.SaveChildren | src/iologindata.cpp:676-705 | one container's items are written and the containers among them queued |
| SaveLoad.ExpandLinks | src/iologindata.cpp:635-706 | in the breadth-first list every item has exactly its own children, in order, below its sid, behind the saved rows and whatever places these name |
| SaveLoad.SidsAscend | src/iologindata.cpp:642-646 | sids are distinct and exceed 100, saved items keep their place, and everything inside them names the sid of an earlier row, whatever the places are |
| SaveLoad.Player.LoadItems | src/iologindata.cpp:1113-1137 | the item map has one object per row, whatever the order of the rows |
| SaveLoad.Player.PutBack | src/iologindata.cpp:442-465 | one item goes to its place, or in front of its parent's list |
| SaveLoad.Player.Rebuild | src/iologindata.cpp:437-527 | walking the sids downwards leaves every list and every place in the saved order |
| SaveLoad.ObjectIsTree | src/iologindata.cpp:442-465 | unless something is put into them by mistake, the objects of recognised places are, with everything inside, the saved trees: same nesting, same order of children |
| SaveLoad.RebuiltIsRestored | src/iologindata.cpp:437-527 | every place holds exactly the trees that were saved from it, in order |
| SaveLoad.LostPlace | src/iologindata.cpp:481-485 | a place that loading does not recognise is empty afterwards, although something was saved from it |
| SaveLoad.WhereItemsGo | src/iologindata.cpp:442-465 | every item is exactly where its row says: in the recognised place, or in the container with that sid, or in no list at all |
| SaveLoad.PlacesRestoredIff | src/iologindata.cpp:474-495 | all recognised places are restored if and only if no saved item names, as its place, the sid of a container saved in a recognised place, at any depth |
| SaveLoad.CoinInTheWrongBag | src/iologindata.cpp:474-495 | a coin saved from depot 101 ends up in the bag with sid 101 of depot 3 |
| SaveLoad.Player.LoadStore | src/iologindata.cpp:437-527 | loading undoes saving for forests of any depth if and only if every place number is one that loading recognises; otherwise every item is exactly where its row says, and the recognised places are restored under the stated condition |
| PropStreams.PropStream.Take | src/fileloader.h:73-82 | a read consumes exactly its size, or nothing when fewer bytes are left |
| PropStreams.U32RoundTrip | src/fileloader.h:131-135 | a 32-bit number written byte by byte is read back |
| OtbFormat.CanonicalStandsForTree | src/fileloader.h:20-38 | the printed layout of a tree stands for that tree |
| OtbFormat.UnescapeFlat | src/fileloader.cpp:93-108 | the stateful copy undoes every way of escaping and ends outside an escape |
| OtbFormat.ParseComplete | src/fileloader.cpp:39-91 | every file that fits the grammar is accepted, every range is where it was written, and reading it back gives the tree |
| OtbFormat.ParseSound | src/fileloader.cpp:39-91 | whatever is accepted fits the grammar, and the result is the layout's ranges |
| OtbFormat.AcceptsExactlyTheGrammar | src/fileloader.cpp:39-91 | accepted if and only if the file fits the grammar; unbalanced START and END, a trailing START or escape do not |
| OtbLoader.Loader.OpenFile | src/fileloader.cpp:16-29 | accepted exactly if longer than seven bytes with the wanted or the wildcard identifier |
| OtbLoader.Loader.OnStart | src/fileloader.cpp:53-66 | the open-node stack stays the rightmost spine when a node is opened |
| OtbLoader.Loader.OnEnd | src/fileloader.cpp:67-74 | the stack stays the rightmost spine when a node is closed, and the closed node is finished |
| OtbLoader.Loader.ParseTree | src/fileloader.cpp:39-91 | the nodes filled in place are the ranges that the scan returns, and it fails exactly when the scan does |
| OtbLoader.Loader.GetProps | src/fileloader.cpp:93-108 | the props are the unescaped range; an empty range is refused |
| OtbLoader.PrintedTreeLoads | src/fileloader.cpp:16-108 | opening, parsing and reading a printed tree gives the tree if and only if the identifier is right and the root is not bare |
| OtbLoader.PrintIsInjective | src/fileloader.cpp:39-108 | no two trees print the same |
| ConditionStream.Condition.UnserializeProp | src/condition.cpp:68-125 | one attribute is read in the way of its class, or refused and nothing consumed |
| ConditionStream.Condition.CommonProp | src/condition.cpp:68-125 | the attributes that every condition has |
| ConditionStream.Condition.DamageProp | src/condition.cpp:1023-1050 | damage attributes; every interval read adds to the ticks unless these are -1 |
| ConditionStream.Condition.AttributesProp | src/condition.cpp:440-450 | skills and stats are filled from the front by running cursors |
| ConditionStream.Condition.SpeedProp | src/condition.cpp:1412-1426 | speed delta and formula |
| ConditionStream.Condition.LightProp | src/condition.cpp:1680-1704 | colour and level are read as 32 bits and kept as 8 |
| ConditionStream.Condition.RegenerationProp | src/condition.cpp:787-799 | the four regeneration numbers |
| ConditionStream.Condition.SoulProp | src/condition.cpp:921-929 | the two soul numbers |
| ConditionStream.Condition.OutfitProp | src/condition.cpp:1558-1564 | the outfit as raw bytes |
| ConditionStream.Condition.Unserialize | src/condition.cpp:57-66 | reads attributes to the end mark or the end of the bytes, and fails at an unknown or incomplete one |
| ConditionStream.Condition.Serialize | src/condition.cpp:127-146 | writes the common part, then the fields of the class in order |
| ConditionStream.Condition.SerializeDamage | src/condition.cpp:1052-1066 | the damage fields, then one field per interval |
| ConditionStream.Condition.SerializeAttributes | src/condition.cpp:452-467 | all skills, all stats, then the defence flag |
| ConditionStream.CreateCondition | src/condition.cpp:265-323 | makes a condition exactly if all six tags and values are there and the factory knows the type |
| ConditionStream.Condition.constructor | src/condition.cpp:189-263 | what a freshly made condition of each type holds, with the shifted flags; the bonus types take the first one for the bonus |
| ConditionStream.SaveConditions | src/iologindata.cpp:729-736 | the persistent conditions one after the other, each with an end mark |
| ConditionStream.LoadConditions | src/iologindata.cpp:287-300 | everything that can be read, the last one first, stopping where no condition can be made |
| ConditionStream.FieldsRead | src/condition.cpp:57-66 | a class that expects the fields in turn reads exactly their bytes |
| ConditionStream.PayloadTaken | src/condition.cpp:57-125 | every class reads back exactly the payload that it writes |
| ConditionStream.RecordRead | src/condition.cpp:57-146 | class data and end mark are read to the last byte, whatever follows |
| ConditionStream.HeaderRead | src/condition.cpp:265-323 | the common part of a condition with a 32-bit type is read back |
| ConditionStream.HeaderLost | src/condition.cpp:127-129 | a type beyond 32 bits is written as zero, for which the factory makes nothing |
| ConditionStream.SavedLoads | src/iologindata.cpp:287-300 | loading what was saved gives, reversed, the persistent conditions before the first one with a type beyond 32 bits |
| ConditionStream.AllSurviveIff | src/iologindata.cpp:287-300 | all persistent conditions come back, and no byte is left, if and only if all their types fit 32 bits |
| ConditionStream.WhoComesBack | src/condition.cpp:333-344 | with types of 32 bits exactly those conditions come back that have an end and the default or the combat id, or are a mute, the last one first |
| ConditionStream.RestoredKeeps | src/condition.cpp:1036-1048 | type, id and payload are kept, and ticks except for damage, which gets the 32-bit sum of its intervals, or -1 if an earlier partial sum is -1; the flags are kept exactly if none is set |
| WalkCache.Creature.UpdateMapCache | src/creature.cpp:321-335 | a full refresh of the window |
| WalkCache.Creature.UpdateTileCache | src/creature.cpp:337-352 | exactly the cell that shows the tile changes, if the window shows it |
| WalkCache.Creature.OnOwnMove | src/creature.cpp:539-615 | the in-place row and column shifts and border reads of a step, or a refresh |
| WalkCache.Creature.OnOtherMove | src/creature.cpp:617-629 | both tiles of another creature's move are read again |
| WalkCache.Creature.OnAppear | src/creature.cpp:419-436 | the cache is read in full when the creature appears |
| WalkCache.Creature.OnTileChanged | src/creature.cpp:385-417 | a changed tile is read again |
| WalkCache.Creature.GetWalkCache | src/creature.cpp:354-383 | the answer for a position: walkable, not walkable, out of reach |
| WalkCache.RefreshIsRight | src/creature.cpp:321-335 | after a refresh every cell agrees with the map |
| WalkCache.StepKeepsCacheRight | src/creature.cpp:539-615 | an orthogonal or north-diagonal step from a right cache leaves every cell but the centre right |
| WalkCache.SouthDiagonalKeepsInnerRows | src/creature.cpp:567-613 | after a south-diagonal step all rows but the first and the last are right |
| WalkCache.SouthDiagonalRightIff | src/creature.cpp:567-613 | after a south-diagonal step anywhere on the map the cache is right if and only if those two rows, as far as they are on the map, look the same one column back and one column on |
| WalkCache.SafeDirections | src/creature.cpp:539-615 | from every position a step keeps the cache right on every map if and only if it is not south-diagonal |
| WalkCache.RunKeepsCacheRight | src/creature.cpp:480-629 | over every run of steps, teleports, other moves and tile changes every row equals a fresh one outside the centre, except those that a south-diagonal step since the last refresh has spoiled, followed through the window |
| WalkCache.StepKeepsRow | src/creature.cpp:539-615 | any step carries right rows to right rows; only a south-diagonal one spoils the first and the last |
| WalkCache.DamageStaysInTwoRows | src/creature.cpp:539-615 | after one south-diagonal step, whatever else happens short of another, only the two rows of the map that were then first and last in the window can be shown wrongly |
| WalkCache.AnswersAreTrue | src/creature.cpp:354-383 | with a right cache every answer within reach is the truth about the tile |
| DecayWheel.Game.StartDecayOf | src/game.cpp:4821-4840 | a marked item, or one that cannot decay, is left alone; one with time left waits first in line, marked and held once more, and nothing decays; one without time left decays at once |
| DecayWheel.StartRefused | src/game.cpp:4821-4830 | starting an item that is marked or cannot decay changes nothing |
| DecayWheel.StartWaits | src/game.cpp:4832-4836 | an unmarked item with time left is waiting, marked and held once more; nothing else changes and nothing decays |
| DecayWheel.StartDecays | src/game.cpp:4837-4857 | an unmarked item without time left decays on the spot, and what it turns into, unless that is marked already, waits with its own time |
| DecayWheel.Game.VisitItem | src/game.cpp:4866-4900 | what the tick does to one item of its bucket, while the bucket is being walked |
| DecayWheel.Game.CheckDecays | src/game.cpp:4859-4904 | one tick |
| DecayWheel.Game.CleanUp | src/game.cpp:4986-5009 | references given back, waiting items moved to the buckets their time asks for |
| DecayWheel.RunKeepsSound | src/game.cpp:4821-5009 | over every interleaving an item is in at most one place and marked while it is in one, a marked item in none has decayed, and every reference taken is held or waiting to be given back |
| DecayWheel.MarkedExactlyInPlace | src/game.cpp:4821-4840 | an item that has never decayed is marked exactly while it is in a place |
| StrandedItems.DecayStrandsIff | src/game.cpp:4842-4857 | the decay of a marked item that is in no place leaves it marked and in no place if and only if the item does not return as itself |
| StrandedItems.TickStrandsIff | src/game.cpp:4859-4904 | a tick leaves an item marked and in no place if and only if it was so, or it is in the bucket that comes up, its time is up and it does not return |
| StrandedItems.RunStrandsIff | src/game.cpp:4821-5009 | the same over every interleaving: nothing else strands an item, and nothing brings a stranded one back |
| StrandedItems.MarkIsRightIff | src/game.cpp:4821-5009 | in every reachable state an item is marked exactly while it is in a place, if and only if no tick of the run has stranded it |
| StrandedItems.StrandedForGood | src/game.cpp:4826-4829 | a stranded item never decays again, because its mark refuses it |
| StrandedItems.MarkOutlivesPlace | src/game.cpp:4842-4857 | a concrete wheel on which an item decays into nothing, or into another item, and keeps its mark |
| DecayWheel.IdleWheelHoldsNothing | src/game.cpp:4892-4998 | when nothing is waiting any more every reference has been given back |
| DecayWheel.TickCountsDown | src/game.cpp:4859-4904 | a tick brings an undisturbed item exactly one tick closer to its decay, or decays it once |
| DecayWheel.DecaysOnTime | src/game.cpp:4859-4904 | an undisturbed item decays exactly on the tick that its bucket and duration predict, in any run |
| DecayWheel.DecayTiming | src/game.cpp:4999-5008 | from the cleanup that enqueues it an item with duration D of a second or more decays on tick t with 250t <= D < 250t + 875; a shorter one on the next tick |
| DecayWheel.DecayTimingFromStart | src/game.cpp:4821-4840 | from the start on, over every run in which it is left alone, an item with duration D decays once, on the tick that D says and not before; for a second or more 250t <= D < 250t + 875, not counting a tick during which it still waits to be placed |
| DecayWheel.UndecayableIsLetGo | src/game.cpp:4868-4873 | an item that cannot decay when its bucket comes up does not decay, keeps its time, loses its mark and is in no place |
| Trade.Game.InternalStartTrade | src/game.cpp:2845-2878 | who may start, and the state after it |
| Trade.Game.PlayerRequestTrade | src/game.cpp:2795-2830 | an item that is on offer, or inside or around one on offer, cannot be offered |
| Trade.Game.PlayerAcceptTrade | src/game.cpp:2880-2925 | a transfer begins exactly if the player is deciding, the partner is within reach and has accepted before, and the scripts allow it; then both are in transfer and both items leave the table |
| Trade.Game.FinishTrade | src/game.cpp:2975-2986 | both sides return to rest |
| Trade.Game.InternalCloseTrade | src/game.cpp:3090-3132 | closing withdraws both offers, and during a transfer does nothing |
| Trade.RunKeepsSound | src/game.cpp:2845-3132 | over every run partner links are symmetric, no state means no partner, the table maps exactly the items offered outside a transfer, each with one reference |
| Trade.RequestDecides | src/game.cpp:2795-2878 | a request starts a trade if and only if both sides are free for it and the item is clear of everything on offer; then exactly the two players' fields, the table and the references change as stated |
| Trade.FirstAcceptanceWaits | src/game.cpp:2899-2901 | an acceptance while the partner has not accepted makes that one player accepted and changes nothing else |
| Trade.SecondAcceptanceSettles | src/game.cpp:2903-2925 | an acceptance after the partner's puts both in transfer with both items off the table if it is allowed, and sets both free if it is not |
| Trade.AcceptanceRefused | src/game.cpp:2887-2899 | without a trade, a second time, or out of reach an acceptance changes nothing |
| Trade.TransferNeedsBoth | src/game.cpp:2880-2910 | a player gets into transfer only by an allowed acceptance of one side when the other one has accepted already |
| Trade.AcceptedSince | src/game.cpp:2880-2901 | over every run, a player who has accepted did so by an acceptance of its own, and has kept state, partner and item since |
| Trade.TransferSince | src/game.cpp:2880-2910 | over every run, a player in transfer and its partner have both accepted by actions of their own, the first acceptance standing until the second, which was an allowed one |
| Trade.CloseFreesBoth | src/game.cpp:3090-3132 | closing a trade that is not in transfer takes both offers off the table and sets both players free |
| Trade.FinishFreesBoth | src/game.cpp:2975-2986 | finishing sets both sides of a transfer free and changes nothing else; anybody else cannot finish |
| Trade.TransferIsShielded | src/game.cpp:3092-3095 | until a transfer is finished nothing touches either side, and closing changes nothing |
| Trade.DeskAtRestHoldsNothing | src/game.cpp:3090-3132 | when nobody trades the table is empty and after a cleanup no reference is held |
| Trade.OffersStayApartIff | src/game.cpp:2795-2830 | over every run, while what is inside what may change between actions, no item on offer is ever inside another one on offer if and only if nobody puts one into the other while both are on offer |
| Money.Wallet.AddMoney | src/game.cpp:1661-1702 | the wallet gains what the truncating arithmetic makes of the amount, coin by coin; only stacks of coins are added, none of them empty, crystal coins in stacks of at most a hundred |
| Money.DecimalCoins | src/game.cpp:1667-1697 | an amount up to 32 bits is given as ten thousands in crystal, hundreds of the rest in platinum and the last two digits in gold |
| Money.AddedIsExactIff | src/game.cpp:1667-1697 | exactly the amount is added if and only if no truncation matters |
| Money.AddedIsExactBelow32Bits | src/game.cpp:1667-1697 | every amount below 2^32 is added exactly; a concrete larger one is not |
| Money.BreakStack | src/game.cpp:1647-1652 | no more coins are removed than the stack holds, and the change is less than one coin |
| Money.Emplace | src/game.cpp:1602-1604 | inserts behind everything that is worth no more, so that equal worths keep their order as in a multimap |
| Money.Wallet.PriceList | src/game.cpp:1588-1633 | all coin stacks, cheapest first, and their exact total |
| Money.Wallet.RemoveMoney | src/game.cpp:1578-1659 | succeeds exactly if the funds suffice, lowers the total by exactly the amount, empties the cheapest stacks and leaves the dearer ones alone |
| DamageList.GenerateDamageList | src/condition.cpp:1365-1383 | the loops end and produce the specified list, which is exact if and only if the amount covers one hit of every size |
| DamageList.NearerIsClose | src/condition.cpp:1376-1380 | the comparison of ratios is a bound on the distance to the target |
| DamageList.DamagesAreFair | src/condition.cpp:1365-1383 | never increasing, using every value from the start down to 1, and adding up to at least the amount |
| DamageList.DamagesShareOut | src/condition.cpp:1371-1382 | every size has a hit, and the hits of size v and more add up to no less than half a hit below (start + 1 - v) * amount / start, and to less than half a hit above it if there is more than one of size v |
| DamageList.DamagesAreExactIff | src/condition.cpp:1365-1383 | the hits add up to exactly the amount if and only if twice the amount is at least start*(start+1) |
| DamageList.SmallAmountsAreExceeded | src/condition.cpp:1365-1383 | every smaller amount is exceeded: the hits add up to at least 1 + 2 + ... + start |
| SpeedConditions.Creature.AddCondition | src/creature.cpp:1202-1231 | a condition with a known key refreshes the old one, a new one is started and added and ends its opposite, a hasted paralysed walker waits |
| SpeedConditions.Creature.OnAddCondition | src/creature.cpp:1063-1071 | an added paralysis removes haste and an added haste removes paralysis |
| SpeedConditions.OnAddExcludes | src/creature.cpp:1063-1071 | haste and paralysis exclude each other: after one has been added the other counts if and only if it is a paralysis, counted before, and the walker is in the middle of a step |
| SpeedConditions.Creature.RemoveConditions | src/creature.cpp:1246-1299 | all conditions of a type, or of a type and an id, end |
| SpeedConditions.Creature.RemoveCondition | src/creature.cpp:1314-1334 | one condition ends |
| SpeedConditions.Creature.ExecuteConditions | src/creature.cpp:1356-1375 | while a copy of the list is walked exactly the conditions with an end that has passed go; the others stay in their order, the timed ones with the interval taken off their ticks, down to zero |
| SpeedConditions.ExecutionLeaves | src/condition.cpp:165-187 | one execution leaves exactly the endless conditions and those whose end has not passed, in order, the timed ones an interval older |
| SpeedConditions.LastsUntilItsEnd | src/creature.cpp:1356-1375 | over every run that leaves it alone a condition is there until an execution comes after its end and gone from then on; an endless one stays |
| SpeedConditions.EndsOnTime | src/condition.cpp:325-331 | a condition started with T > 0 ticks at time t survives every execution up to t + T and is gone after the first one later |
| SpeedConditions.StartsAtTheEnd | src/creature.cpp:1222-1226 | a new condition comes last in the list, a timed one with its end T from now, a speed condition without a change of speed with the picked one |
| SpeedConditions.ComesAgain | src/condition.cpp:1483-1512 | a condition that comes again changes the one in the list: an endless one is not cut short, a speed condition takes the new time and change of speed and the creature's speed moves by the difference, another one is only ever prolonged |
| SpeedConditions.HasteIsPutOff | src/creature.cpp:1208-1214 | an unforced haste changes nothing while a paralysed walker is in the middle of a step |
| SpeedConditions.RemovalEndsOne | src/creature.cpp:1314-1334 | removing one condition ends that one only, and not a paralysis that waits for a step |
| SpeedConditions.Creature.ChangeSpeedBy | src/game.cpp:3973-3978 | the bonus is recovered from the total speed and moved by the difference |
| SpeedConditions.RunKeepsBalance | src/condition.cpp:1453-1512 | over every run the speed bonus minus the sum of the active speed deltas stays constant, modulo 2^32, and no two active conditions share a key |
| SpeedConditions.SpeedComesBack | src/condition.cpp:1478-1481 | once every condition has gone, in whatever order, the speed is the original one |
| SpeedConditions.PurgeIsComplete | src/creature.cpp:1246-1271 | unless it waits for a step, removing by type leaves nothing of the type and everything else |
| Areas.CreateArea | src/combat.cpp:1371-1402 | the matrix spells the list row by row, with the last marked cell as centre |
| Areas.Rotate | src/combat.cpp:1321-1368 | the output holds exactly the rotated cells of the input, every write inside the square |
| Areas.RotationFits | src/combat.cpp:1340-1366 | every rotated cell falls inside the square of twice the larger side |
| Areas.RotatedIsTurn | src/combat.cpp:1352-1364 | the source's cosine and sine formula is one, two or three exact quarter turns |
| Areas.RotationIsExact | src/combat.cpp:1321-1368 | the covered cells seen from the centre are the turned ones, none lost and none merged |
| Areas.CopyArea | src/combat.cpp:1289-1369 | every operation leaves its result in a blank matrix: copy, mirror, flip or rotation |
| Areas.CopyIsExact | src/combat.cpp:1294-1301 | a plain copy covers the same cells about the same centre |
| Areas.MirrorInto | src/combat.cpp:1302-1310 | every row written backwards |
| Areas.FlipInto | src/combat.cpp:1311-1319 | every column written backwards |
| Areas.MirrorIsExactIffSquare | src/combat.cpp:1310 | the mirrored area is the mirror image about its centre; for an area with cells, if and only if rows equal columns |
| Areas.FlipIsExactIffSquare | src/combat.cpp:1319 | the flipped area is the flip image about its centre; for an area with cells, if and only if rows equal columns |
| Areas.DiagonalsExact | src/combat.cpp:1499-1527 | for a square area the four diagonals are the area, its mirror image, its flip image and its point reflection |
| Areas.AreaCombat.SetupArea | src/combat.cpp:1404-1427 | the four directions are exact quarter turns of the described area, and the diagonals stay |
| Areas.AreaCombat.SetupExtArea | src/combat.cpp:1499-1527 | the four diagonals of a square description are exact reflections, and the four directions stay |
| Spreads.FanList | src/combat.cpp:1433-1457 | the loops end with the fan's values row by row, the narrowing of a row kept as a running width |
| Spreads.CasterInFront | src/combat.cpp:1446-1450 | the matrix of a fan that is not empty has the caster in the middle of its last row |
| Spreads.FanCovers | src/combat.cpp:1429-1462 | the area covers exactly the tiles in front of the caster within the reach of their row, for every spread |
| Spreads.FanIsSymmetric | src/combat.cpp:1429-1462 | the fan is its own mirror image |
| Spreads.SetupFan | src/combat.cpp:1429-1462 | the four directions cover the four exact quarter turns of the fan |
| Areas.ChoiceTurnsWithTarget | src/combat.h:185-217 | on the axes the covered cells turn a quarter turn when the target does |
| Areas.DiagonalChoiceTurnsIff | src/combat.h:199-210 | off the axes the covered cells turn with the target if and only if the north-western area is its own reflection about the diagonal |
| Areas.DiagonalChoiceMirrors | src/combat.h:199-210 | off the axes a mirrored target is always hit with the mirrored cells |
| Areas.AreaCombat.GetArea | src/combat.h:185-217 | once everything is set up, the area for a target covers exactly the chosen cells, none only if its direction is missing; a target due north gets exactly the north cells, and if those lie north and the north-western ones north-west, every area lies on its target's side |
| Areas.ChosenAims | src/combat.h:185-217 | if the north cells lie north of the centre and the north-western ones north-west of it, the chosen cells lie on the target's side for every target: all eight directions with an extended area, and without one west and east before north and south |

## Left out

- Lua callbacks, events, SQL, sockets, client messages and spectator notification: script hooks always allow.
- Players, tiles, depots and the inbox as cylinders: containers are plain ones; a container without a parent is the top.
- The exchange of items with a player's inventory inside a move, and house tiles.
- The list of cached pokeballs in a container, and the browse-field container.
- Game.InternalMoveItem: requires that the child-is-owner flag is not set; only containers set it, when they forward a question upwards, and it turns every check off. It also requires stacks within the maximal count; a higher stack makes the room to merge wrap around.
- Game.InternalMoveItem: the decay enqueue of a moved item and the identity of released items are not modelled; a fully merged item stays behind without a parent.
- Adding.InternalAddItem: only for the index that stands for any slot, and for an item that is in no container; the decay enqueue at its end is not modelled. The source's branch for a merge of nothing is shown to be dead and has no counterpart.
- Containers.Item.UpdateThing: the new kind is given as a whole; that setting an identifier also resets some attributes is not modelled.
- Containers.Item.AddThing: the caller passes an item that is in no container and that was accepted; the source does not check this itself.
- Item weights are a function of kind and count; two items are equal exactly if their kinds are.
- ConditionStream.Condition.AttributesProp: a stream with more skills or stats than there are places is refused; the source writes past its array.
- ConditionStream.Condition.Serialize: floats are kept as their four bytes and the outfit as its eighteen, padding included; percentages, special skills and the owner are not in the stream.
- ConditionStream.RestoredKeeps: the end time is not modelled.
- SaveLoad.Player.LoadStore: attributes of an item are one value that writing and reading keep; sids do not overflow; creating an item from a row always succeeds; which containers are open is left out.
- DecayWheel.Game.InternalDecayItem: what an item turns into is a parameter; chains of transformations without duration are one step.
- DecayWheel: the decay enqueue of added items and the removal of items from the wheel when they are removed from the world are not part of it.
- Trade.Game.PlayerAcceptTrade: whether the two moves of a transfer succeed is not modelled; the second result is ignored by the source, so no atomic exchange is claimed. Distances, the hundred-item limit and messages are answers given from outside.
- Money.Wallet.RemoveMoney: the funds are a list of coin stacks; the walk through nested containers is not modelled, and removing and adding coins succeeds. Stacks that are not worth anything are left alone.
- Money.Wallet.AddMoney: created coins form new entries of the wallet; onto which stack they merge is not modelled.
- DamageList.GenerateDamageList: ratios are exact rationals instead of floating point; a zero median leaves the inner loop.
- Areas.Rotate: cosine and sine are the exact values for quarter turns; rounding is not modelled.
- Spreads.SetupFan: a negative length is not modelled (the source turns it into a row count beyond 2^31); the fixed table of the round areas is left out.
- SpeedConditions: conditions are values in a list; suppressed conditions, what players and monsters do besides about an added or ended condition, effects and scheduled repetitions are left out, the random speed is a parameter.
- WalkCache: whether a tile can be walked is a function of the position at a moment; levels without the creature's cache flag answer unknown.
- Chat, guilds, houses, bans, configuration, pathfinding and combat formulas.
