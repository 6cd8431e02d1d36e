# Input-Magic core, modelled in Dafny

Input-Magic is a browser sandbox game with a block world. This project models its core.

**World**
- The chunked world. A chunk is a 16 × 16 column grid, 16 blocks high.
- Chunk-relative coordinates.
- A dimension fetches or generates chunks on demand, and reads and writes blocks through them.
- Two terrain generators: an all-stone placeholder, and a layered terrain column built from a ground height.
- Grid utilities: distances, array comprehensions and traversal order.

**Block update detector (BUD)**
- Both copies of the detector: `src/data/bud/bud.ts` and the older `src/bud/bud.ts`.
- Requests wait in a queue. Each tick, up to 100 due requests are handled in comparator order.
- The one handler is the water flow. A block with two water neighbours becomes water and queues its air neighbours.
- The handler factory and the neighbour functions the flow uses.

**Ticker and events**
- Both tickers (`src/tick.ts`, `src/tick/tick.ts`) and their priority task list.
- The event bus.

**Keyboard**
- The keyboard state of `src/control/state.ts`.
- The keyboard managers of `src/keyboard.ts` and `src/control/keyboard.ts`, which share one class model.
- Single-character keys are case-folded, so Shift+`a` counts as `a`.

**Block registry and renderer**
- The block registry of the data tree.
- The pure parts of the renderer: block colours, their darker shades, and the map between data and render block positions.

**How the model is written**
- Code that mutates objects in place becomes a Dafny `class`: `Dimension`, `TaskList`, the tickers, `Bud`, `Registry`, `Bus`, `KeyboardState` and `KeyboardManager`. Each method is proved against a specification function, and the properties the source promises are proved about those functions as lemmas.
- Pure code becomes functions and lemmas.
- Loops in the source are `while`/`for` loops with invariants.

**Inputs passed as parameters**
- `performance.now()`.
- The result of each task's `update`.
- A `disposed()` probe.
- The noise height of a terrain column.
- The dimensions the BUD handler reads and writes, as a `World` from dimension to a total map of block types.

Where the repository's description and its code differ, the model follows the code:
- the data tree's detector handles the *higher* BUD type first;
- a task added with a priority equal to existing ones goes *after* them.

## Model

| member | source | states |
|---|---|---|
| Chunks.RelativeCoord | src/map/chunk.ts:90-101 | one relative coordinate lies in 0..15 and is the floor-mod of the absolute coordinate by the chunk size, negative inputs included |
| Chunks.AbsoluteToRelative | src/data/map/chunk.ts:84-95 | the relative x and y are in 0..15 and congruent to the absolute ones mod 16; z is unchanged |
| Chunks.RelativeToAbsolute | src/data/map/chunk.ts:102-108 | z is unchanged and an in-chunk relative position lands inside the converting chunk |
| Chunks.ChunkOf | src/map/dimension.ts:86-93 | the chunk whose 16-wide x and y span contains the block |
| Chunks.AbsoluteToRelativeIgnoresChunk | src/map/chunk.ts:90-101 | absolute-to-relative does not depend on the chunk it is called on |
| Chunks.AbsoluteRelativeRoundTrip | src/map/chunk.ts:90-114 | in the chunk that holds a position, relative then absolute gives the position back |
| Chunks.RelativeAbsoluteRoundTrip | src/data/map/chunk.ts:84-108 | absolute then relative gives back every in-chunk relative position |
| Chunks.ConversionExamples | src/data/map/TESTS/chunk.test.ts:28-54 | the tests' conversions: (3,16,3)→(3,0,3), (-32,-1,3)→(0,15,3) and back in chunks (1,1) and (-2,-1) |
| MapUtils.ChebyshevDistance | src/map/utils.ts:15-24 | the largest per-axis gap; z counts only when both points have one |
| MapUtils.ManhattanDistance | src/map/utils.ts:32-41 | the sum of gaps, between one and three (two without z) times the Chebyshev distance |
| MapUtils.DistancesSymmetric | src/map/utils.ts:15-41 | both distances are symmetric and zero from a point to itself |
| MapUtils.DistanceZeroIff | src/map/utils.ts:15-41 | a distance is zero iff x and y agree and z agrees or is missing |
| MapUtils.Generate2D | src/map/utils.ts:153-162 | `size.x` rows of `size.y` (0 when negative) with element [x][y] = f(x,y) |
| MapUtils.Generate3D | src/map/utils.ts:195-206 | shape x × y × z with element [x][y][z] = f(x,y,z) |
| MapUtils.Visits2DInOrder | src/map/utils.ts:83-95 | each callback gets the element at its own index, and the indices strictly increase in (x, y) order: nothing is visited twice |
| MapUtils.Visits2DComplete | src/map/utils.ts:83-95 | every element is visited |
| MapUtils.Visits3DInOrder | src/map/utils.ts:118-132 | each callback gets the element at its index, in strictly increasing (x, y, z) order |
| MapUtils.Visits3DComplete | src/map/utils.ts:118-132 | every element is visited |
| MapUtils.Traverse2D | src/map/utils.ts:83-95 | the nested loop makes exactly the calls of the 2D visit order |
| MapUtils.Traverse3D | src/map/utils.ts:118-132 | the triple loop makes exactly the calls of the 3D visit order |
| Dimensions.WithCell | src/map/dimension.ts:174-182 | an in-range write sets that cell and no other |
| Dimensions.PutBlock | src/map/dimension.ts:174-182 | a write through the chunk map keeps the set of chunks |
| Dimensions.RelativeInjective | src/map/dimension.ts:157-182 | the same chunk plus the same relative position means the same block position |
| Dimensions.ReadOverWrite | src/map/dimension.ts:157-182 | after a write the written position reads the new block (if readable) and every other position reads as before |
| Dimensions.FlattenMember | src/map/dimension.ts:132-135 | `flat()` holds exactly the elements of the rows |
| Dimensions.FlattenLength | src/map/dimension.ts:132-135 | n rows of n flatten to n² entries |
| Dimensions.RadiusKeysAsWrittenMember | src/map/dimension.ts:117-138 | as written, the query asks for the chunks with −r ≤ x < r+1+pos.x (and likewise y) |
| Dimensions.RadiusKeysMember | src/map/dimension.ts:110-116 | the centred query asks for exactly the chunks within Chebyshev distance r of pos |
| Dimensions.RadiusKeysAtOrigin | src/map/dimension.ts:117-138 | around the origin the as-written and centred queries agree |
| Dimensions.RadiusKeysAsWrittenNotCentred | src/map/dimension.ts:122-131 | off the origin they differ: pos (1,0), r 0 asks for 2 chunks; pos (−3,0), r 1 for none |
| Dimensions.Present | src/map/dimension.ts:133-135 | the null filter keeps the chunks present at the keys, all of them when all are present |
| Dimensions.PresentAddAbsent | src/map/dimension.ts:101-108 | generating an absent chunk does not change the chunks found at keys already present |
| Dimensions.Dimension.constructor | src/map/dimension.ts:65-74 | a dimension holds its id, its initial chunks and its generator |
| Dimensions.Dimension.Fetched | src/map/dimension.ts:101-108 | a lookup changes the chunk map only on a miss with `generate`, by adding the generated chunk |
| Dimensions.Dimension.FetchedAll | src/map/dimension.ts:122-131 | repeated lookups keep every chunk, add every key when generating, change nothing otherwise |
| Dimensions.Dimension.GenerateChunk | src/map/dimension.ts:145-149 | the generated chunk is stored at pos, replacing any old one |
| Dimensions.Dimension.GetChunkFromChunkPos | src/map/dimension.ts:101-108 | stored chunk on a hit; generated and stored on a miss with `generate`; null otherwise |
| Dimensions.Dimension.GetChunkFromBlockPos | src/map/dimension.ts:86-93 | the same lookup at the floored chunk of the block |
| Dimensions.Dimension.GetBlock | src/map/dimension.ts:157-166 | the block at the position in its chunk, null when the chunk is absent |
| Dimensions.Dimension.SetBlock | src/map/dimension.ts:174-182 | the chunk map after fetching the block's chunk and writing the block into it |
| Dimensions.Dimension.ChunksAt | src/map/dimension.ts:122-135 | fetch each key in order, return the chunks present |
| Dimensions.Dimension.GetChunksInRadius | src/map/dimension.ts:117-138 | the query as written: fetches and returns the chunks at the as-written keys |
| Dimensions.Dimension.GetChunksInRadiusCentred | src/map/dimension.ts:110-138 | the centred query: the chunks within Chebyshev distance r |
| Dimensions.SetThenGet | src/map/dimension.ts:157-182 | set then get: the written block reads back, other positions are unchanged, and the get generates nothing new |
| StoneGenerator.GenerateBlock | src/map/generator/3d.ts:11-13 | a stone block at the position |
| StoneGenerator.GenerateChunk | src/map/generator/3d.ts:15-25 | a 16 × 16 × 16 chunk of stone at pos |
| Terrain.ColumnLayers | src/data/map/generator/3d.ts:37-92 | below mountain level a column has 16 blocks: stone, then sand and water to sea level (ocean), sand (sea level), or 1–2 dirt and grass (land), then air |
| Terrain.MountainColumnEmpty | src/data/map/generator/3d.ts:73-110 | a ground height at or above mountain level yields an empty column |
| Terrain.ColumnIntendedLayers | src/data/map/generator/3d.ts:94-109 | with the mountain branch reachable, every column up to the maximum ground height has 16 blocks, and a mountain column is stone, then the branch's one dirt, grass and snow |
| Terrain.MountainBranchDead | src/data/map/generator/3d.ts:94-109 | at mountain level the as-written column is empty where the layered one is full |
| Terrain.GenerateZAxis | src/data/map/generator/3d.ts:28-113 | the push-by-push loops build exactly the column for the ground height |
| Terrain.GenerateChunk | src/data/map/generator/3d.ts:120-136 | a 16 × 16 grid of columns at pos |
| Terrain.GenerateChunkColumns | src/data/map/generator/3d.ts:120-136 | column (x,y) lies in the chunk and is the column for the height at its absolute position |
| Terrain.GenerateChunkFull | src/data/map/generator/3d.ts:120-136 | where all heights are below mountain level, every column is 16 blocks high |
| ValueUtils.ElementInSet | src/utils.ts:3-9 | true iff some member of the set equals the element deeply |
| ValueUtils.ElementInArray | src/utils.ts:11-17 | true iff the array holds an equal element |
| Adjacency.PlaneAdjacent | src/data/bud/utils.ts:10-18 | four neighbours at the same height |
| Adjacency.PlaneAdjacentCharacterized | src/data/bud/utils.ts:10-18 | q is a plane neighbour iff it is at the same height at Manhattan distance 1 |
| Adjacency.PlaneAdjacentDistinct | src/data/bud/utils.ts:10-18 | the four are pairwise distinct and exclude the position |
| Adjacency.SpaceAdjacent | src/data/bud/utils.ts:25-38 | the plane four followed by up to two vertical neighbours |
| Adjacency.SpaceAdjacentInRange | src/data/bud/utils.ts:25-38 | below is present iff z > 0, above iff z < 15; all neighbours are one step away and in range |
| Adjacency.BlocksAt | src/data/bud/utils.ts:45-51 | the block type at each listed position, in order |
| Adjacency.PlaneAdjacentBlocks | src/data/bud/utils.ts:45-51 | the four plane neighbours' block types, in order |
| Adjacency.SpaceAdjacentBlocks | src/data/bud/utils.ts:58-64 | the space neighbours' block types, the plane four first |
| BudTypes.Ordinal | src/bud/types.ts:7-10 | NORMAL is 0, POWERED is 1 |
| HandlerFactory.GetAllHandlers | src/data/bud/factory.ts:11-13 | the dictionary's values in order |
| HandlerFactory.Lookup | src/bud/factory.ts:15-17 | found iff some entry has the name, and then that entry's value |
| HandlerFactory.GetHandler | src/bud/factory.ts:15-17 | the handler registered under the name; else the inherited `Object.prototype` member of that name; else undefined |
| HandlerFactory.GetHandlerByType | src/bud/factory.ts:19-21 | the value at the type's ordinal, undefined past the end |
| HandlerFactory.HandlerByTypeCases | src/data/bud/factory.ts:4-21 | NORMAL selects `NormalUpdate`; POWERED selects nothing |
| HandlerFactory.GetHandlerInherited | src/bud/factory.ts:15-17 | `getHandler("toString")` finds the inherited member, not undefined; an unregistered, uninherited name finds nothing |
| Liquid.WaterCount | src/data/bud/normal.ts:15-17 | at most the number of blocks counted |
| Liquid.FlowGrid | src/data/bud/normal.ts:19-21 | only the flowing position may change, and it becomes water iff two neighbours are water |
| Liquid.AirTargetsMember | src/data/bud/normal.ts:22-32 | a request is queued for the list iff it is NORMAL, delay 1, at an air position of the list |
| Liquid.FlowTargetsCharacterized | src/bud/normal.ts:9-33 | the flow queues exactly one NORMAL, delay-1 request per air plane neighbour when it flows, never the block itself |
| Liquid.WithBlock | src/data/bud/normal.ts:21 | `setBlock` in one dimension changes only that position there |
| Liquid.HandleWorld | src/data/bud/normal.ts:9-45 | the handler changes only the request's position in its dimension, to water iff it flows |
| Liquid.WaterCountExample | src/data/bud/normal.ts:15-17 | the count of water among four blocks, case by case |
| Liquid.AirTargetsOfFour | src/data/bud/normal.ts:22-32 | the queued requests of four neighbours, in neighbour order |
| Liquid.FlowExample | src/bud/normal.ts:9-33 | two water neighbours: the block becomes water and its one air neighbour is queued |
| Liquid.NoFlowExample | src/bud/normal.ts:9-33 | one water neighbour: nothing changes and nothing is queued |
| BatchOrder.BeforeIsStrictTotal | src/data/bud/bud.ts:78-83 | the comparator is a strict order whose ties are exactly same type and position |
| BatchOrder.Slot | src/data/bud/bud.ts:78-83 | the insertion slot: every later element sorts strictly after d; the one before does not |
| BatchOrder.InsertAtSlotProperties | src/data/bud/bud.ts:78-83 | insertion keeps an ordered queue ordered and adds exactly d |
| BatchOrder.InsertAtSlotStable | src/data/bud/bud.ts:78-83 | insertion appends d after its ties and keeps other keys' order |
| BatchOrder.WithKeyOfConcat | src/data/bud/bud.ts:78-83 | tie groups distribute over concatenation |
| BatchOrder.WithKeyOfSplit | src/data/bud/bud.ts:78-83 | tie groups of a three-part split |
| BatchOrder.WithKeyOfSingle | src/data/bud/bud.ts:78-83 | tie group of one request |
| BatchOrder.NoneWithKey | src/data/bud/bud.ts:78-83 | nothing after the slot ties with d |
| BatchOrder.SortBatchProperties | src/bud/bud.ts:70-75 | the sort is ordered, a permutation, and stable (ties keep queue order) |
| BudQueue.Added | src/data/bud/bud.ts:52-58 | `add` appends exactly when no equal request waits and the position is not skipped |
| BudQueue.AddedDistinct | src/bud/bud.ts:47-51 | `add` keeps the waiting requests free of duplicates |
| BudQueue.AddAllProperties | src/data/bud/bud.ts:52-58 | repeated adds keep duplicates out, keep every waiting request, add each unskipped one, add nothing else |
| BudQueue.AddAllNothingUpdated | src/data/bud/bud.ts:52-58 | with no updated positions, asking to skip changes nothing |
| BudQueue.Stepped | src/data/bud/bud.ts:69 | a nonzero delay drops by one; position and type stay |
| BudQueue.CountdownDelay | src/bud/types.ts:26-28 | n prepares lower a delay k ≥ n to k − n |
| BudQueue.DelayWaitsExactly | src/data/bud/bud.ts:69 | with `delay-- > 0`, delay k waits exactly k ticks |
| BudQueue.PreDecrementWaits | src/bud/bud.ts:61 | with `--delay > 0`, delay k waits only k − 1 ticks; delay 1 does not delay |
| BudQueue.SteppedAll | src/data/bud/bud.ts:66-76 | each waiting request counted down |
| BudQueue.PrepareTakesFirstDue | src/data/bud/bud.ts:66-76 | the queue is the first 100 due requests in waiting order |
| BudQueue.PrepareConserves | src/data/bud/bud.ts:66-76 | every request, counted down, lands in the queue or back in waiting, exactly once |
| BudQueue.PrepareBounded | src/data/bud/bud.ts:70 | at most 100 queued, only due ones, and none lost |
| BudQueue.PrepareAllDue | src/bud/TESTS/bud.test.ts:126-134 | with all requests due, min(n, 100) are queued and the rest wait |
| BudQueue.WaitingStays | src/data/bud/bud.ts:66-76 | a request not yet due stays waiting, counted down |
| BudQueue.Positions | src/data/bud/bud.ts:96-98 | the queued requests' positions in queue order |
| BudQueue.RunHandlersAppends | src/data/bud/bud.ts:92-94 | the handlers only append to the waiting requests, and keep duplicate-free requests duplicate-free |
| BudQueue.RunHandlersAddsNeighbours | src/data/bud/normal.ts:22-32 | every request the handlers add is NORMAL, delay 1, beside a queued request |
| BudQueue.RunHandlersStopsAtMissing | src/data/bud/bud.ts:92-94 | after a missing handler the later requests change nothing |
| BudQueue.RunHandlersSkipsNothing | src/data/bud/bud.ts:63-64 | with `updatedBlockPos` just cleared, the flow's skip request skips nothing |
| BudQueue.RunHandlersAllNormal | src/data/bud/factory.ts:19-21 | a queue of NORMAL requests never misses its handler |
| DataBud.Bud.constructor | src/data/bud/bud.ts:26-37 | nothing queued, waiting or updated |
| DataBud.Bud.Add | src/data/bud/bud.ts:52-58 | `add(data, skipIfUpdated)` yields the `Added` waiting list; nothing else changes |
| DataBud.Bud.PrepareQueue | src/data/bud/bud.ts:63-84 | the queue is the sorted first ≤100 due requests, the rest wait, updated positions are cleared |
| DataBud.Bud.Flow | src/data/bud/normal.ts:9-33 | the world becomes `HandleWorld` and the waiting list gains the flow's targets via `add(…, true)` |
| DataBud.Bud.HandleQueue | src/data/bud/bud.ts:92-94 | the handler loop ends in the state of `RunHandlers` over the queue |
| DataBud.Bud.RecordPositions | src/data/bud/bud.ts:96-98 | the queued positions are appended to `updatedBlockPos` |
| DataBud.Bud.Update | src/data/bud/bud.ts:89-101 | one tick: queue, world and waiting list as the tick specification; returns the handled positions, or the request with no handler |
| DataBud.Bud.Clear | src/data/bud/bud.ts:106-110 | everything emptied |
| DataBud.OnBudAdd | src/data/bud/bud.ts:115-117 | the `bud:add` listener adds the data with skipping on |
| DataBud.TickProperties | src/data/bud/bud.ts:63-101 | a tick handles ≤100 due requests in comparator order, conserves requests, only appends to any waiting list, and only NORMAL delay-1 neighbours of handled requests, keeps distinct waiting requests distinct, skips none |
| DataBud.SortFilterExample | src/bud/TESTS/bud.test.ts:81-97 | the test's three requests give queue [type 1 at (2,1,1), type 0 at (1,1,1)]; the delayed one waits |
| DataBud.QueueFullExample | src/bud/TESTS/bud.test.ts:126-134 | 105 due requests: 100 handled, 5 wait |
| LegacyBud.Bud.constructor | src/bud/bud.ts:26-33 | nothing queued or waiting |
| LegacyBud.Bud.Add | src/bud/bud.ts:47-51 | `add(data)` appends unless an equal request waits |
| LegacyBud.Bud.PrepareQueue | src/bud/bud.ts:56-76 | queue is the first ≤100 requests due after pre-decrement, sorted lower type first; the rest wait |
| LegacyBud.Bud.Flow | src/bud/normal.ts:9-33 | the world becomes `HandleWorld`; the flow's targets are added |
| LegacyBud.Bud.HandleQueue | src/bud/bud.ts:84-86 | the handler loop ends in the state of `RunHandlers` |
| LegacyBud.Bud.Update | src/bud/bud.ts:81-94 | one tick per the legacy tick specification; returns the handled positions or the missing-handler request |
| LegacyBud.CollectPositions | src/bud/bud.ts:88-91 | the new set of the queued positions, in order |
| LegacyBud.OnBudAdd | src/bud/bud.ts:99-101 | the `bud:add` listener adds the data |
| LegacyBud.TickProperties | src/bud/bud.ts:56-76 | ≤100 due requests, lower type first, conserved, all due |
| LegacyBud.SortFilterAsWritten | src/bud/TESTS/bud.test.ts:81-97 | as written, the test's input gives [type 0, type 1, type 1], not the expected [type 1, type 0], and nothing waits |
| Tasks.IsDisposed | src/tick.ts:69-83 | absent means no, a flag is used as is, a function is called |
| Tasks.ScanStop | src/tick/tick.ts:31-39 | the shifting loop stops after the last task of priority ≥ the new one |
| Tasks.InsertContents | src/tick.ts:54-62 | `add` inserts exactly the task at the scan stop |
| Tasks.InsertAt | src/tick/tick.ts:31-39 | index by index: old tasks, the new task, the shifted tasks |
| Tasks.InsertSorted | src/tick/tick.ts:26-39 | `add` keeps the list sorted, highest priority first, equal priorities in insertion order |
| Tasks.InsertExample | src/TESTS/tick.test.ts:14-24 | adding priorities 2, 1, 3 gives 3, 2, 1 |
| Tasks.SurvivorsCount | src/tick/tick.ts:59-65 | `sweep` keeps each non-disposed task with its multiplicity and drops every disposed one |
| Tasks.DisposeCallsCount | src/tick.ts:89-95 | `dispose` is called once per removed occurrence that has one, never on a kept task |
| Tasks.SurvivorsSorted | src/tick/tick.ts:59-65 | `sweep` keeps the list sorted |
| Tasks.SurvivorsSubset | src/tick/tick.ts:59-65 | every survivor was in the list and is not disposed |
| Tasks.SweepExample | src/data/tick/TESTS/tick.test.ts:28-46 | of 4, 3, 2, 1 with 4 and 2 disposed, 3 and 1 stay |
| Tasks.TaskList.constructor | src/tick/tick.ts:11-16 | an empty list |
| Tasks.TaskList.Add | src/tick/tick.ts:31-39 | the shifting loop yields `Insert` of the old list |
| Tasks.TaskList.Sweep | src/tick/tick.ts:59-65 | the list becomes the survivors; `dispose` is called on the removed ones that have it |
| Tasks.TaskList.Clear | src/tick/tick.ts:70-72 | the list becomes empty |
| TickShared.Results | src/tick.ts:166-184 | one `update` result per task, in list order |
| TickShared.CollectedMember | src/tick.ts:166-184 | a position is collected iff some task returned it |
| TickShared.ResultsStep | src/tick/tick.ts:166-175 | the results grow by one task at a time |
| TickShared.MsUntilNextTick | src/tick/tick.ts:188-194 | null when stopped; otherwise in (0, 100] and landing on the next tick boundary after the start |
| TickShared.MsUntilNextTickExample | src/tick.ts:190-196 | started at 0, at 250 ms: 50 ms; at a boundary: a full tick |
| ClassicTicker.Ticker.constructor | src/tick.ts:126-129 | stopped, no tasks |
| ClassicTicker.Ticker.Start | src/tick.ts:134-139 | no-op when started; otherwise records the time and runs one tick |
| ClassicTicker.Ticker.Stop | src/tick.ts:144-150 | stopped afterwards |
| ClassicTicker.Ticker.RunTasks | src/tick.ts:166-184 | one tick as `TickOf`; the list becomes the survivors |
| ClassicTicker.Ticker.GetMillisecondsUntilNextTick | src/tick.ts:190-196 | null iff stopped; otherwise within the tick duration, to the next boundary |
| ClassicTicker.UpdateAll | src/tick.ts:166-184 | each task updated once in order; every returned position is collected |
| ClassicTicker.TickOfProperties | src/tick.ts:166-184 | every task updated in order, `"tick"` carries exactly the returned positions, `dispose` only on removed tasks |
| Ticker.DistinctProperties | src/tick/tick.ts:171-174 | the deduplicated positions are exactly the input's, with no value twice |
| Ticker.DistinctSnoc | src/tick/tick.ts:171-174 | adding one position appends it iff no equal one is present |
| Ticker.AddDistinct | src/tick/tick.ts:171-174 | the inner loop extends the deduplicated positions by a task's result |
| Ticker.UpdateAll | src/tick/tick.ts:166-175 | each task updated once in order; changed blocks are the deduplicated returned positions |
| Ticker.Ticker.constructor | src/tick/tick.ts:115-118 | stopped, no tasks |
| Ticker.Ticker.Start | src/tick/tick.ts:128-133 | no-op when started; otherwise records the time and runs one tick |
| Ticker.Ticker.Stop | src/tick/tick.ts:138-144 | stopped afterwards |
| Ticker.Ticker.RunTasks | src/tick/tick.ts:163-182 | one tick as `TickOf`; the list becomes the survivors |
| Ticker.Ticker.GetMillisecondsUntilNextTick | src/tick/tick.ts:188-194 | null iff stopped; otherwise within the tick duration, to the next boundary |
| Ticker.OnRegister | src/tick/tick.ts:199-202 | `ticker:register` inserts the task by priority |
| Ticker.TickOfProperties | src/tick/tick.ts:163-182 | `"ticker:tick"` carries each returned position exactly once; tasks updated in order; `dispose` only on removed tasks |
| Ticker.TickExample | src/tick/tick.ts:171-173 | one task returning two positions and another returning the first again: each is reported once, in first-returned order |
| BlockRegistry.WithAllLookup | src/data/map/block-registry.ts:18-23 | after registrations a name is present iff it was or was registered; its last registration wins |
| BlockRegistry.BasicRegistry | src/config/basic-blocks.ts:3-19 | the basic registry is exactly air (−1) and dirt (0.5) |
| BlockRegistry.Registry.constructor | src/data/map/block-registry.ts:6 | an empty properties map |
| BlockRegistry.Registry.RegisterBlockType | src/data/map/block-registry.ts:18-23 | the type maps to the new properties, others unchanged |
| BlockRegistry.Registry.RegisterAll | src/data/map/block-registry.ts:54-56 | each entry registered in order |
| BlockRegistry.Registry.GetBlockTypeProperties | src/data/map/block-registry.ts:38-42 | the registered properties, undefined iff not registered |
| BlockRegistry.Registry.Clear | src/data/map/block-registry.ts:44-49 | back to exactly the basic blocks |
| BlockRegistry.Load | src/data/map/block-registry.ts:52-56 | the loaded registry holds exactly the basic blocks |
| BlockRegistry.HasBlockTypeInherited | src/data/map/block-registry.ts:29-31 | `hasBlockType("constructor")` is true although it was never registered |
| BlockRegistry.HasOwnBlockTypeAgrees | src/data/map/block-registry.ts:29-42 | own-key membership agrees with `getBlockTypeProperties`, and with `in` for non-inherited names |
| BlockRegistry.ClearThenRegister | src/data/map/TESTS/block-registry.test.ts:13-70 | after clear the basics are present and earlier types gone; re-registering keeps the second properties |
| EventBus.RemoveCount | src/event-bus.ts:65-67 | the filter drops every occurrence of the handler and keeps the others' counts |
| EventBus.RemoveAbsent | src/event-bus.ts:65-67 | removing an unsubscribed handler changes nothing |
| EventBus.RemoveAppended | src/event-bus.ts:51-67 | subscribe then remove gives the list back |
| EventBus.Handlers | src/event-bus.ts:78-82 | an event nobody subscribed to has no handlers |
| EventBus.Bus.constructor | src/event-bus.ts:35 | no subscriptions |
| EventBus.Bus.On | src/event-bus.ts:51-54 | the handler is appended to the event's list, created if missing |
| EventBus.Bus.Off | src/event-bus.ts:61-71 | unknown event: nothing; with a handler: every copy removed; without: the entry deleted |
| EventBus.Bus.Emit | src/event-bus.ts:78-82 | calls exactly the event's handlers in order |
| EventBus.OnThenOff | src/event-bus.ts:51-71 | on then off leaves the event's handlers as before |
| EventBus.BusExample | src/TESTS/event-bus.test.ts:4-27 | the bus tests: subscribed handlers are called, unsubscribed are not, unknown events call none |
| KeyCase.IsKeyPressedMatches | src/control/state.ts:35-44 | pressed iff a stored key matches in either case (single characters) or exactly |
| KeyCase.Deleted | src/control/state.ts:50-61 | deletion removes only forms of the key, and the key is then not pressed |
| KeyCase.Stored | src/control/state.ts:68-77 | the stored key keeps its length; multi-character keys are stored as is |
| KeyCase.SingleIsOwnCase | src/keyboard.ts:58-71 | a single character is its own upper or lower case |
| KeyCase.StoredMatches | src/keyboard.ts:98-110 | the stored form is found by the lookup |
| KeyCase.LowerKeepsForms | src/keyboard.ts:58-71 | lower-casing first does not change the looked-up forms |
| KeyCase.PressMakesPressed | src/control/state.ts:68-77 | after storing, the key is pressed |
| KeyCase.PressThenDelete | src/control/state.ts:50-77 | pressing a new key then deleting it restores the set |
| KeyCase.DeleteStored | src/control/state.ts:84-93 | deleting the stored form removes the same forms as deleting the key |
| KeyCase.KeyCaseExample | src/control/TESTS/status.test.ts:55-75 | `A` is stored as `a` only when lower-casing; Shift+`a` counts as `a` |
| ControlState.KeyboardState.constructor | src/control/state.ts:7-19 | lower-casing on, no keys |
| ControlState.KeyboardState.Press | src/control/state.ts:68-77 | a new key is stored and the set published; a pressed key is ignored; the key is pressed afterwards |
| ControlState.KeyboardState.Release | src/control/state.ts:84-93 | a pressed key's forms are deleted and the set published; otherwise ignored; the key is not pressed afterwards |
| ControlState.KeyboardState.ClearPressedKeys | src/control/state.ts:98-103 | empties the set, publishing only if it was not empty |
| ControlState.KeyboardState.HandleVisibilityChange | src/control/state.ts:109-113 | hidden: clear; visible: nothing |
| Keyboard.KeyboardManager.constructor | src/keyboard.ts:29-41 | lower-casing on, no keys, not listening |
| Keyboard.KeyboardManager.HandleKeyDown | src/keyboard.ts:98-110 | a new key is stored and published; a pressed key is ignored |
| Keyboard.KeyboardManager.HandleKeyUp | src/control/keyboard.ts:131-140 | a pressed key's forms are deleted and published; otherwise ignored |
| Keyboard.KeyboardManager.ClearPressedKeys | src/keyboard.ts:142-145 | empties the set and always publishes |
| Keyboard.KeyboardManager.HandleVisibilityChange | src/keyboard.ts:132-136 | hidden: clear and publish; visible: nothing |
| Keyboard.KeyboardManager.Start | src/keyboard.ts:162-170 | listening afterwards; keys unchanged |
| Keyboard.KeyboardManager.Stop | src/control/keyboard.ts:194-202 | keys cleared and published, no longer listening |
| Render.ColorOf | src/render/render.ts:367-370 | the mapped colour of the type, black otherwise |
| Render.ColorOfIsHexColor | src/render/render.ts:136-143 | every mapped colour, and the default, is a valid hex colour |
| Render.HexString | src/render/render.ts:160-168 | `toString(16)`: at least one digit; below 16, one digit |
| Render.ChannelRoundTrip | src/render/render.ts:153-168 | a channel is written as two lower-case hex digits that parse back to it |
| Render.Darken | src/render/render.ts:160 | `max(0, c − 30(i+1))`, still a channel |
| Render.ColorVariants | src/render/render.ts:147-173 | throws "Invalid hex color format" iff the input is not `#` and six hex digits; otherwise the colour and two shades |
| Render.VariantChannels | src/render/render.ts:159-170 | each shade is a lower-case hex colour whose channels are the darkened originals |
| Render.StoneVariants | src/render/render.ts:136-173 | stone `#808080` shades to `#444444` and `#262626` |
| Render.ToRenderBlockPos | src/render/render.ts:244-250 | x kept, depth is y, row is height counted from the top; in-chunk heights stay in-chunk |
| Render.FromRenderBlockPos | src/render/render.ts:252-258 | as written: x kept and the data z is the render row |
| Render.RenderRoundTripAsWritten | src/render/render.ts:244-258 | converting there and back mirrors y and z; no position comes back unchanged |
| Render.FromRenderBlockPosInverse | src/render/render.ts:244-250 | the corrected back-conversion keeps x, takes y from depth and keeps in-chunk heights |
| Render.RenderRoundTrip | src/render/render.ts:244-250 | the corrected back-conversion is a two-sided inverse |

## Left out

- Rendering with pixi (stages, textures, polygons, scrolling, `renderRChunk`, screen edges) and the floating-point geometry of `render.ts`: graphics, not logic.
- `euclideanDistance`: floating-point square root.
- Perlin and simplex noise: floating point. The terrain column takes the floored noise height as an integer input.
- `performance.now()`, `setTimeout` and `clearTimeout`: the clock is a parameter and timer scheduling is not modelled; `Start` runs the first tick.
- DOM event listeners (`keydown`, `keyup`, `visibilitychange`): they are the method calls themselves, and `Keyboard.KeyboardManager` records only whether it listens.
- `async` `emit`: handlers are called in order; completion of their promises is not modelled.
- Singletons (`getInstance`): each class is modelled as one object.
- Aliasing: a `BudData` object is a value here. The source's in-place `delay--` also mutates the object a caller may still hold.
- `Set` reference semantics: sets of positions are sequences in insertion order. Value-equal positions from different objects stay distinct entries where the source keeps them.
- Case mapping: `toUpperCase` and `toLowerCase` are modelled for ASCII letters only.
- KeyCase.IsSingle: a key is a sequence of Unicode characters, so `|key|` counts characters where JavaScript's `key.length` counts UTF-16 code units; a key outside the Basic Multilingual Plane is single here and two units long in the source.
- Inherited `Object.prototype` names: modelled for `hasBlockType` and `getHandler` only. `ColorOf`, `getBlockTypeProperties` and the event bus treat a name such as `"constructor"` as absent.
- A POWERED request reaching the handler loop finds no handler, and the source then throws a `TypeError`. `DataBud.UpdateResult.NoHandler` models this: the tick ends at that request.
- `Array.prototype.sort`: modelled as a stable insertion sort, `BatchOrder.SortBatch`. Engines sort stably, and the results agree for any comparator that is a strict weak order, as this one is.
- The tests' mocked handler factory (src/bud/TESTS/bud.test.ts:99-116): not modelled.
- The legacy detector has no `clear`, although its test calls one.
- The data tree's `Dimension` class is not part of this model. Its chunk dictionary code matches the modelled src/map/dimension.ts.
- Chunk `entities` and block properties other than the type: not modelled.
- Positions outside the chunk height are not modelled. The source's chunk arrays are JavaScript arrays: a write at z ≥ 16 grows the column, a write at z = −1 becomes a property, and a later read returns the block.
- Dimensions.WithCell: a write at a z outside 0..15 leaves the blocks unchanged, where the source stores the block.
- Dimensions.Dimension.SetBlock: for the same reason, a block set outside 0..15 is dropped.
- Dimensions.Dimension.GetBlock: a read at a z outside 0..15 is `None`, where the source returns a block stored there.
- The BUD `World` gives every position a block type. In the source, `getBlock(pos)!` is undefined above or below the chunk, and the liquid handler then throws a `TypeError` reading its type.

## Findings

| source | as written | input that shows it | evidently intended | confidence | as-written member | corrected member |
|---|---|---|---|---|---|---|
| src/map/dimension.ts:122-128 | the grid is `2r+1+pos.x` wide, and cell x asks for chunk `x − r`; the centre only resizes the grid | pos (1,0), r 0 returns chunks (0,0) and (1,0); pos (−3,0), r 1 returns none | the chunks within Chebyshev distance r of pos, as the doc comment says | not executed | Dimensions.RadiusKeysAsWrittenNotCentred | Dimensions.RadiusKeysMember |
| src/data/map/generator/3d.ts:94-109 | the mountain branch is nested inside `groundHeight < mountLevel` and never runs | ground height 10 (mountain level) gives an empty column | stone, dirt, grass, snow, then air up to 16 blocks, as the branch pushes them; the layering comment at line 40 asks for two dirt blocks, and the corrected column follows the branch's one | not executed | Terrain.MountainBranchDead | Terrain.ColumnIntendedLayers |
| src/render/render.ts:252-258 | the back-conversion copies the forward formula | block (0,0,0) goes to render (0,15,0) and back to (0,15,15) | the inverse of `convertBlockPosToRenderBlockPos`, judged from the method's name and the coordinate description only: the method's own doc comment (render.ts:57-59) gives the formula as written, and nothing in the source calls it | not executed | Render.RenderRoundTripAsWritten | Render.RenderRoundTrip |
| src/data/map/block-registry.ts:29-31 | `in` also sees inherited object members | `hasBlockType("constructor")` on the loaded registry is true | true only for registered types | not executed | BlockRegistry.HasBlockTypeInherited | BlockRegistry.HasOwnBlockTypeAgrees |
| src/bud/bud.ts:61 | `--data.delay > 0` tests after decrementing | delay 1 is due at once, with no delay | delay k waits k ticks, as the data tree's `delay--` does | not executed | BudQueue.PreDecrementWaits | BudQueue.DelayWaitsExactly |
| src/bud/bud.ts:70-75 | lower type first, and delay 1 due at once | the test's requests (1,1,1) type 0; (2,1,1) type 1 delay 1; (2,1,1) type 1 give [type 0, type 1, type 1] | [type 1, type 0], with the delayed request waiting, as the test and the `BudType` doc comment expect | not executed | LegacyBud.SortFilterAsWritten | DataBud.SortFilterExample |
