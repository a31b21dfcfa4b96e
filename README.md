# Channel-constrained cheapest routes

This project models five C++ variants of one routing engine.

The engine works on an undirected graph whose every edge carries one cost for each of 100 channels. A route carries a band of adjacent channels over every edge it uses. The band may change channels only at some nodes. The engine looks for the cheapest route from a source node to a target node.

The variants and the Dafny modules that model them:

| module | C++ file | what it searches |
|---|---|---|
| `FixedBandSpec`, `FixedBandSearch`, `FixedBand` | `ChannelGraph.cpp`, `ChannelGraph2.cpp` | a band of fixed width 1 to 3; a state is (node, first channel of the band); the band may move only when leaving the source or a node that supports conversion |
| `GrowingBand`, `PrecomputedGraph` | `OptimizedEfficientGraph.cpp` | a band that grows one channel per edge; a state is `node * 101 + slot`, slot 100 meaning that no band has started; the cost only, from precomputed 1-, 2- and 3-channel block costs |
| `GrowingBand`, `TracedGraph` | `OptimizedEfficientGraph1.cpp` | the same state space, with pruning against the best cost found, predecessor tables and path reconstruction |
| `VisitedPathGraph` | `OptimizedEfficientGraph3.cpp` | a branch-and-bound search in which every queue entry carries the set of nodes its branch has visited, so every branch is a simple path; predecessors are recorded under the key `node * 1000 + channel * 10 + count`; and `validatePath` |

`Common` holds what the variants share:
- the 100 channels and the `INT_MAX` sentinel `INF`;
- edges and adjacency lists;
- the error kinds the C++ code throws;
- sums of channel blocks;
- sequence reversal.

Each search is an imperative method with loop invariants, proved against ghost specifications:
- `IsRoute` / `Answer` in `FixedBandSpec`;
- `Run` / `WalkTo` / `Cheapest` in `GrowingBand`;
- `Walk` / `Route` in `VisitedPathGraph`.

The priority queue is a multiset (a sequence in `VisitedPathGraph`). Popping it yields some entry of least cost.

Termination is proved without any unbounded loop:
- `ChannelGraph.cpp`, `OptimizedEfficientGraph.cpp` and `OptimizedEfficientGraph1.cpp` (cost-table searches): the total of the best-known-cost table goes down lexicographically with the queue size.
- `ChannelGraph2.cpp`: the number of unvisited states goes down.
- `OptimizedEfficientGraph3.cpp`: a weight of the queue goes down. Every entry weighs a power of the branching factor that falls as its branch grows.

## Model

| member | source | states |
|---|---|---|
| FixedBand.ChannelGraph.constructor | ChannelGraph.cpp:47 | n nodes, no edges, no node converts |
| FixedBand.ChannelGraph.AddEdge | ChannelGraph.cpp:50-60 | out_of_range for an endpoint outside 0..n-1, then invalid_argument unless there are exactly 100 costs, and nothing changes; otherwise one edge with these costs is appended to each endpoint's list and the conversion flags are unchanged |
| FixedBand.ChannelGraph.SetNodeConversion | ChannelGraph.cpp:63-68 | out_of_range for an id outside 0..n-1 with nothing changed; otherwise only that node's flag is overwritten |
| FixedBand.ChannelGraph.FindShortestPath | ChannelGraph.cpp:71-144 | invalid_argument for a width outside 1..3, then out_of_range for a bad source or target; otherwise an empty path with cost INF exactly when no route reaches the target below INF, and else a route to the target that costs what is returned and no more than any other route; source == target gives a one-state path of cost 0 |
| FixedBand.ChannelGraph.FindShortestPathVisited | ChannelGraph2.cpp:57-141 | the same argument checks; on success either an empty path with cost INF (no route exists when costs are non-negative) or a route to the target that never repeats a node (cheapest when costs are non-negative); runtime_error only when the search found a route to the target that repeats a node; source == target gives a one-state path of cost 0 |
| FixedBand.Search | ChannelGraph.cpp:90-143 | the loop of findShortestPath returns an answer: a cheapest route, or an empty path with INF when the target is unreachable |
| FixedBand.SearchVisited | ChannelGraph2.cpp:79-140 | the loop with a visited table returns a checked answer, or runtime_error exactly when the route it rebuilt repeats a node |
| FixedBand.CalculateChannelCost | ChannelGraph.cpp:148-156 | INF when start + width > 100, otherwise the sum of the width costs from start |
| FixedBand.StartChannels | ChannelGraph2.cpp:104-116 | every fitting start channel when leaving the source or a converting node; otherwise only the incoming start channel, which the visited variant keeps only when its band fits |
| FixedBand.StartSearch | ChannelGraph.cpp:80-94 | the initial tables and queue satisfy the search invariant: every queued entry is at the source, the band from channel 0 among them at cost 0; no best-known cost is negative, and no state has a predecessor |
| FixedBand.InitialSearch | ChannelGraph.cpp:80-94 | every start band of the source that fits costs 0 and is queued; every other state is unreached and has no predecessor |
| FixedBand.RelaxInto | ChannelGraph.cpp:126-138 | one relaxation only lowers costs, keeps the search invariant, and leaves the target state no dearer than the popped cost plus the band cost |
| FixedBand.RelaxChannel | ChannelGraph2.cpp:118-135 | one start channel of an edge is relaxed, visited target states skipped, and the relaxed prefix of the channel list grows |
| FixedBand.RelaxEdge | ChannelGraph.cpp:111-139 | all start channels of one edge are relaxed |
| FixedBand.Expand | ChannelGraph.cpp:110-140 | after the loop over the edges every move out of an expanded state is relaxed |
| FixedBand.SearchStep | ChannelGraph.cpp:105-140 | a stale entry is skipped, otherwise its state is expanded; the invariant holds and the cost total or the queue shrinks |
| FixedBand.SkipVisited | ChannelGraph2.cpp:89-92 | a popped visited state is dropped and the loop invariant holds |
| FixedBand.NoneVisited | ChannelGraph2.cpp:73 | the visited table starts with no state visited |
| FixedBand.MarkVisited | ChannelGraph2.cpp:93 | marking a popped state visited removes one unvisited state |
| FixedBand.SearchStepVisited | ChannelGraph2.cpp:100-137 | expanding a newly visited state keeps the loop invariant |
| FixedBand.FinishAt | ChannelGraph.cpp:101-103 | the first target entry popped yields an answer |
| FixedBand.FinishAtChecked | ChannelGraph2.cpp:96-98 | the first unvisited target entry yields a checked answer or a runtime_error backed by a route that repeats a node |
| FixedBand.TargetReached | ChannelGraph.cpp:101-102 | the reversed predecessor chain of the first popped target state is a route of exactly the popped cost, a cheapest one when costs are non-negative |
| FixedBand.ReconstructPath | ChannelGraph.cpp:159-174 | the predecessor links are followed from the target state to (-1, -1) and reversed; the cost is passed through |
| FixedBand.ReconstructPathChecked | ChannelGraph2.cpp:156-185 | the same chain, but runtime_error when a node occurs twice on it or when the reversed path does not start at the source |
| FixedBand.NodesMember | ChannelGraph2.cpp:159-169 | the set of nodes collected holds exactly the nodes of the chain |
| FixedBand.AddEdgeKeepsRoutes | ChannelGraph.cpp:58-59 | adding an edge keeps every existing route at its cost |
| FixedBandSpec.HopCostNonNegative | ChannelGraph.cpp:128-131 | a band's cost is not negative when no channel cost is |
| FixedBandSpec.RouteShape | ChannelGraph.cpp:91-94 | every route starts at the source, stays in the state table, and costs nothing negative when costs are non-negative |
| FixedBandSpec.AnswerCostUnique | ChannelGraph.cpp:96-143 | any two answers agree on the cost and on whether the target is reachable |
| FixedBandSpec.SimpleReversed | ChannelGraph2.cpp:177 | reversal keeps a route simple and keeps it non-simple |
| FixedBandSpec.BackChainLinks | ChannelGraph.cpp:165-170 | the chain ends at a state without predecessor, and each element's predecessor is the next one |
| FixedBandSearch.PopCheapest | ChannelGraph.cpp:97-98 | the popped entry is queued and no queued entry is cheaper |
| FixedBandSearch.ChainIsRoute | ChannelGraph.cpp:134-137 | the reversed predecessor chain of any reached state is a route costing that state's best-known cost |
| FixedBandSearch.RouteBound | ChannelGraph.cpp:96-140 | along any route, the first state not yet expanded has a best-known cost no higher than the route's cost to it |
| FixedBandSearch.PopOptimal | ChannelGraph.cpp:101-102 | the first target entry popped costs no more than any route to the target |
| FixedBandSearch.Exhausted | ChannelGraph.cpp:143 | when the queue runs empty no route reaches the target below INF |
| GrowingBand.StateIdRoundTrip | OptimizedEfficientGraph.cpp:80-91 | decoding node * 101 + slot by / 101 and % 101 gives back the node and the slot |
| GrowingBand.StateIdRange | OptimizedEfficientGraph.cpp:74-91 | the states of n nodes are numbered 0..n*101-1, and every such number decodes to a node below n |
| GrowingBand.MoveTargetRange | OptimizedEfficientGraph.cpp:98-144 | a move never leads to the not-started slot or out of the graph, and costs nothing negative when channel costs are non-negative |
| GrowingBand.RunExtend | OptimizedEfficientGraph.cpp:104-110 | a walk extended by one allowed move ends at that move's target state, at that move's added cost |
| GrowingBand.BandStartSnoc | OptimizedEfficientGraph1.cpp:136-161 | a new band sets the first channel; continuing keeps it |
| GrowingBand.BandStartStarted | OptimizedEfficientGraph1.cpp:111 | after at least one move a band is in use, with a first channel in 0..99 |
| PrecomputedGraph.GetSegmentCost | OptimizedEfficientGraph.cpp:27-32 | a block size other than 1, 2 or 3 gives INT_MAX; for 1 to 3 the lookup is a block sum, as SegmentCostIsBlockSum states |
| PrecomputedGraph.SegmentCostIsBlockSum | OptimizedEfficientGraph.cpp:27-32 | a lookup for 1, 2 or 3 channels is the sum of that many costs from start; any other size gives INT_MAX |
| PrecomputedGraph.PrecomputeEdge | OptimizedEfficientGraph.cpp:38-56 | single costs are copied; the double table holds costs[i]+costs[i+1] for i < 99 and the triple table costs[i]+costs[i+1]+costs[i+2] for i < 98 |
| PrecomputedGraph.MirrorsAdd | OptimizedEfficientGraph.cpp:65-71 | adding the precomputed edges keeps every edge's tables built from its costs |
| PrecomputedGraph.PopCheapest | OptimizedEfficientGraph.cpp:85-86 | the popped entry is queued and no queued entry is cheaper |
| PrecomputedGraph.Relax | OptimizedEfficientGraph.cpp:106-111 | a cheaper walk lowers the best-known cost of its target state and queues it; otherwise nothing changes; every finite cost stays the cost of a recorded walk |
| PrecomputedGraph.LowerStep | OptimizedEfficientGraph.cpp:106-111 | one relaxation only lowers costs, queues what it lowers, adds no entry cheaper than the popped cost, and leaves its move relaxed |
| PrecomputedGraph.LoweredTrans | OptimizedEfficientGraph.cpp:95-146 | two expansion steps from the same popped state compose into one |
| PrecomputedGraph.RelaxedBelow | OptimizedEfficientGraph.cpp:108-110 | lowering costs keeps a relaxed move relaxed |
| PrecomputedGraph.SoundLower | OptimizedEfficientGraph.cpp:108-110 | lowering a cost to that of a new walk keeps the search sound and lowers the total of the best-known costs |
| PrecomputedGraph.BeginBand | OptimizedEfficientGraph.cpp:103-111 | one band is tried: the search stays sound and that move is relaxed |
| PrecomputedGraph.BeginBandsOfSize | OptimizedEfficientGraph.cpp:101-112 | every start of a band of one size is relaxed |
| PrecomputedGraph.BeginBands | OptimizedEfficientGraph.cpp:98-113 | every band of 1 to 3 channels that fits is relaxed, and the search stays sound |
| PrecomputedGraph.ExtendOnTables | OptimizedEfficientGraph.cpp:117-120 | continuing the band reads the next channel's cost from the single-channel table and leads to that channel's state |
| PrecomputedGraph.ExtendBand | OptimizedEfficientGraph.cpp:116-126 | continuing the band by its next channel is relaxed |
| PrecomputedGraph.ExpandEdge | OptimizedEfficientGraph.cpp:95-145 | from the not-started slot every band is tried; otherwise the band is extended below channel 99, and new bands are tried at switching nodes or from channel 99; every allowed move along the edge ends relaxed |
| PrecomputedGraph.ExpandState | OptimizedEfficientGraph.cpp:95-146 | expanding a state keeps the search sound, never raises a cost, and relaxes every allowed move from the state |
| PrecomputedGraph.TargetReached | OptimizedEfficientGraph.cpp:93 | a popped non-stale target state with a started band carries the cost of a walk there |
| PrecomputedGraph.WalkBound | OptimizedEfficientGraph.cpp:84-147 | along any walk cheaper than INT_MAX, the queue holds an entry no dearer than the walk, or the walk ends in an expanded state no dearer than the walk |
| PrecomputedGraph.PopOptimal | OptimizedEfficientGraph.cpp:85-93 | a cheapest queued entry costs no more than any walk to a started state of the target |
| PrecomputedGraph.EmptyQueueUnreachable | OptimizedEfficientGraph.cpp:84-149 | with the queue empty, no walk reaches a started state of the target below INT_MAX |
| PrecomputedGraph.Unreached | OptimizedEfficientGraph.cpp:75 | the dist table starts with every one of its n * 101 entries at INT_MAX |
| PrecomputedGraph.SettledInit | OptimizedEfficientGraph.cpp:75-82 | the initial tables and queue satisfy the search invariant |
| PrecomputedGraph.PopStale | OptimizedEfficientGraph.cpp:88 | skipping a stale entry keeps the search invariant |
| PrecomputedGraph.PopExpand | OptimizedEfficientGraph.cpp:85-146 | expanding a cheapest non-stale entry that is not the target keeps the search invariant with its state added to the expanded ones |
| PrecomputedGraph.Visit | OptimizedEfficientGraph.cpp:85-146 | one pass of the loop returns the least cost when it pops a started target state; otherwise it keeps the invariant and makes progress |
| PrecomputedGraph.MinCost | OptimizedEfficientGraph.cpp:73-150 | the result is the least cost of a walk from the source to a started state of the target, or -1 when no such walk costs less than INT_MAX |
| PrecomputedGraph.OptimizedEfficientGraph.constructor | OptimizedEfficientGraph.cpp:59 | n nodes, no edges, no node supports switching |
| PrecomputedGraph.OptimizedEfficientGraph.SetChannelSwitchSupport | OptimizedEfficientGraph.cpp:61-63 | only that node's flag is overwritten |
| PrecomputedGraph.OptimizedEfficientGraph.AddEdge | OptimizedEfficientGraph.cpp:65-71 | both endpoints get an edge precomputed from the same costs |
| PrecomputedGraph.OptimizedEfficientGraph.FindMinCost | OptimizedEfficientGraph.cpp:73-150 | the least cost of a walk that reaches the target with a started band, or -1 when there is none below INT_MAX |
| TracedGraph.GetSegmentCost | OptimizedEfficientGraph1.cpp:25-31 | the sum of size costs from start |
| TracedGraph.PopCheapest | OptimizedEfficientGraph1.cpp:95-96 | the popped entry is queued and no queued entry is cheaper |
| TracedGraph.PushKeeps | OptimizedEfficientGraph1.cpp:134-136 | pushing a cheaper entry for a move of the expanded state keeps the queue invariant |
| TracedGraph.Relax | OptimizedEfficientGraph1.cpp:129-137 | the best-known cost is lowered and the entry queued exactly when the new cost is below both min_cost and the best-known cost |
| TracedGraph.RelaxKeeps | OptimizedEfficientGraph1.cpp:134-137 | a relaxation keeps the frontier invariant, lowers the cost total or changes nothing, and leaves the move pruned or relaxed |
| TracedGraph.RelaxGrows | OptimizedEfficientGraph1.cpp:128-137 | afterwards the move either costs min_cost or more, or its target is no dearer than the move; only a state not yet popped gets cheaper, and its new cost is queued |
| TracedGraph.GrownTrans | OptimizedEfficientGraph1.cpp:120-186 | two expansion steps from the same popped state compose into one |
| TracedGraph.RelaxedBelow | OptimizedEfficientGraph1.cpp:134-136 | lowering costs keeps a relaxed move relaxed |
| TracedGraph.Push | OptimizedEfficientGraph1.cpp:128-137 | a move below min_cost is relaxed, any other is pruned; predecessors, min_cost and best state are untouched |
| TracedGraph.TryBand | OptimizedEfficientGraph1.cpp:127-137 | one band, pruned when not below min_cost and relaxed otherwise |
| TracedGraph.StartsRelaxed | OptimizedEfficientGraph1.cpp:126-138 | the bands of one size already tried stay relaxed while the next one is tried |
| TracedGraph.SizesRelaxed | OptimizedEfficientGraph1.cpp:125-139 | the bands of smaller sizes stay relaxed while those of the next size are tried |
| TracedGraph.BeginsRelaxed | OptimizedEfficientGraph1.cpp:125-126 | the bands of 1 to 3 channels that fit are all the bands a move may begin |
| TracedGraph.BandsOfSize | OptimizedEfficientGraph1.cpp:126-138 | every band of one size that fits ends pruned or relaxed |
| TracedGraph.BeginBands | OptimizedEfficientGraph1.cpp:125-139 | every band of 1 to 3 channels that fits ends pruned or relaxed |
| TracedGraph.ExtendFacts | OptimizedEfficientGraph1.cpp:145-161 | continuing leads to the next channel at that channel's cost, and the recorded first channel is carried forward |
| TracedGraph.TryExtend | OptimizedEfficientGraph1.cpp:145-164 | the band is continued when below min_cost, and the continuing move ends pruned or relaxed |
| TracedGraph.ExpandEdge | OptimizedEfficientGraph1.cpp:120-185 | the not-started slot tries every band; otherwise continue below channel 99, and restart at switching nodes or from channel 99; every allowed move on the edge ends pruned or relaxed |
| TracedGraph.ExpandState | OptimizedEfficientGraph1.cpp:120-186 | expanding keeps the frontier invariant, leaves predecessors, min_cost and the best state alone, and leaves every allowed move from the state pruned or relaxed |
| TracedGraph.PopKeeps | OptimizedEfficientGraph1.cpp:95-96 | popping the cheapest entry keeps the invariant with that entry's cost as the new floor |
| TracedGraph.CloseKeeps | OptimizedEfficientGraph1.cpp:98 | a non-stale popped state may be counted as settled |
| TracedGraph.RecordKeeps | OptimizedEfficientGraph1.cpp:105-108 | recording the first predecessor of a state keeps the recorded chains consistent |
| TracedGraph.Settle | OptimizedEfficientGraph1.cpp:104-117 | the predecessor and start channel are written only when a state is first reached; the state is expanded exactly when it is not a started state of the target; such a target state costing less than min_cost becomes the best final state with its cost as min_cost, and otherwise min_cost and the best state are unchanged, so min_cost never rises |
| TracedGraph.SettledPop | OptimizedEfficientGraph1.cpp:95-98 | popping a stale entry keeps the least-cost invariant; popping a fresh one makes its state popped, pending its expansion |
| TracedGraph.SettledResume | OptimizedEfficientGraph1.cpp:99 | a state popped above min_cost meets the invariant without being expanded |
| TracedGraph.SettledTarget | OptimizedEfficientGraph1.cpp:111-116 | a popped started target state brings min_cost down to at most its cost, and the invariant holds with nothing pending |
| TracedGraph.ExpandSettles | OptimizedEfficientGraph1.cpp:120-186 | once every move from the pending state is pruned or relaxed, the invariant holds with nothing pending |
| TracedGraph.WalkBound | OptimizedEfficientGraph1.cpp:94-187 | along any walk cheaper than min_cost, the queue holds an entry no dearer than the walk, or the walk ends in a popped state no dearer than the walk |
| TracedGraph.NoneBelowMinCost | OptimizedEfficientGraph1.cpp:94-187 | once the queue is empty, no walk reaches a started state of the target for less than min_cost |
| TracedGraph.Visit | OptimizedEfficientGraph1.cpp:94-187 | one turn keeps the invariant (the best final state is a started target state costing min_cost) and the least-cost invariant, never raises min_cost, and lowers the cost total or shrinks the queue |
| TracedGraph.ReconstructPath | OptimizedEfficientGraph1.cpp:194-230 | empty for no final state; otherwise the trace of the final state's walk |
| TracedGraph.TraceBack | OptimizedEfficientGraph1.cpp:206-214 | following prev_state from the final state collects the reversed (node, start channel) pairs |
| TracedGraph.Unreverse | OptimizedEfficientGraph1.cpp:217-227 | the pairs are reversed, with -1 as channel at the source and the target |
| TracedGraph.RawTraceStep | OptimizedEfficientGraph1.cpp:209-213 | one more move adds the pair of the state it reaches |
| TracedGraph.MinCostPath | OptimizedEfficientGraph1.cpp:76-191 | an empty path only when no walk to a started target state costs less than INT_MAX; otherwise the trace of a walk from the source to a started target state whose cost is the least |
| TracedGraph.Filled | OptimizedEfficientGraph1.cpp:80-82 | a table of the given size filled with one value |
| TracedGraph.RawTraceShape | OptimizedEfficientGraph1.cpp:209-214 | the pairs of a walk start at (source, -1), follow edges, and carry a channel in 0..99 after the first |
| TracedGraph.TraceShape | OptimizedEfficientGraph1.cpp:194-230 | the rebuilt path runs from (source, -1) to (target, -1) along edges, and inner nodes carry a first channel in 0..99 |
| TracedGraph.OptimizedEfficientGraph.constructor | OptimizedEfficientGraph1.cpp:49 | n nodes, no edges, no node supports switching |
| TracedGraph.OptimizedEfficientGraph.SetChannelSwitchSupport | OptimizedEfficientGraph1.cpp:51-55 | an out-of-range id is ignored; otherwise only that node's flag changes |
| TracedGraph.OptimizedEfficientGraph.AddEdge | OptimizedEfficientGraph1.cpp:57-73 | invalid_argument unless there are exactly 100 costs, with nothing changed; otherwise the edge is added in both directions |
| TracedGraph.OptimizedEfficientGraph.FindMinCostPath | OptimizedEfficientGraph1.cpp:76-191 | an empty path only when no walk to a started target state costs less than INT_MAX; otherwise a path rebuilt from a cheapest walk reaching a started target state |
| VisitedPathGraph.WalkShape | OptimizedEfficientGraph3.cpp:95-96 | every branch stays in the graph, has a band of 1 to 3 channels after its first edge, and visits one node more than it has hops |
| VisitedPathGraph.BranchIsSimplePath | OptimizedEfficientGraph3.cpp:127-129 | each branch starts at the source, follows edges, never repeats a node, and its nodes are exactly its visited set |
| VisitedPathGraph.HopCost | OptimizedEfficientGraph3.cpp:135-136 | with non-negative channel costs a hop never lowers the cost of a branch |
| VisitedPathGraph.WalkPrefix | OptimizedEfficientGraph3.cpp:123-196 | every prefix of a branch is a branch, the next hop is allowed from it and leads to the next prefix, and with non-negative costs the prefix costs no more than the whole branch |
| VisitedPathGraph.KeyDecode | OptimizedEfficientGraph3.cpp:144 | a key decodes to its node, channel and count for channels 0..99 and counts 0..9 |
| VisitedPathGraph.KeyInjective | OptimizedEfficientGraph3.cpp:225 | distinct (node, channel, count) triples get distinct keys |
| VisitedPathGraph.BeginChild | OptimizedEfficientGraph3.cpp:135-141 | a band of size s from channel c ends at channel c+s-1 with count s, costs the block sum and adds the node to the visited set |
| VisitedPathGraph.ExtendChild | OptimizedEfficientGraph3.cpp:155-163 | continuing moves to the next channel with one more in the count, at that channel's cost |
| VisitedPathGraph.PushKeeps | OptimizedEfficientGraph3.cpp:143-147 | pushing a child and recording its predecessor keeps the queue and predecessor invariants |
| VisitedPathGraph.Push | OptimizedEfficientGraph3.cpp:143-147 | the child is appended and the expanded state recorded under its key |
| VisitedPathGraph.TryBand | OptimizedEfficientGraph3.cpp:135-147 | one band is tried: the queue only grows at the back, and the band's entry is in it when the hop is allowed and costs less than min_cost |
| VisitedPathGraph.PushBand | OptimizedEfficientGraph3.cpp:139-147 | the band's entry, with one more visited node, is appended behind the queue, and the search invariant is kept |
| VisitedPathGraph.Bands | OptimizedEfficientGraph3.cpp:133-149 | every band on the edge that is allowed and costs less than min_cost has its entry in the queue, which only grows at the back, by at most 300 entries |
| VisitedPathGraph.BandsOfSize | OptimizedEfficientGraph3.cpp:134-148 | the same for the bands of one size, by at most 100 entries |
| VisitedPathGraph.Continue | OptimizedEfficientGraph3.cpp:155-170 | the continued band's entry is in the queue when that hop is allowed and costs less than min_cost; at most one entry is appended |
| VisitedPathGraph.ExpandEdge | OptimizedEfficientGraph3.cpp:123-196 | every allowed hop along the edge that costs less than min_cost has its entry in the queue: none to a visited node, every band before the first edge, continuing below channel 99 with fewer than 3 channels, new bands at a switching node, from channel 99 or with 3 channels |
| VisitedPathGraph.ExpandState | OptimizedEfficientGraph3.cpp:123-196 | expanding keeps the invariant, appends at most 601 entries per edge, each with one more visited node, and leaves in the queue the entry of every allowed hop that costs less than min_cost |
| VisitedPathGraph.CoveredKept | OptimizedEfficientGraph3.cpp:147 | an entry pushed stays in a queue that only grows at the back |
| VisitedPathGraph.QueueWeightChildren | OptimizedEfficientGraph3.cpp:140-147 | the appended children add their weight to the queue weight |
| VisitedPathGraph.ExpansionLighter | OptimizedEfficientGraph3.cpp:123-196 | the children of an expanded entry weigh less than the entry |
| VisitedPathGraph.QueueWeightRemove | OptimizedEfficientGraph3.cpp:105-106 | removing an entry takes its weight off the queue |
| VisitedPathGraph.CheapestExists | OptimizedEfficientGraph3.cpp:105 | a non-empty queue has an entry of least cost |
| VisitedPathGraph.PopCheapest | OptimizedEfficientGraph3.cpp:105-106 | the popped position holds an entry of least cost |
| VisitedPathGraph.PopKeeps | OptimizedEfficientGraph3.cpp:105-106 | popping keeps the invariant, and the entry ends its branch |
| VisitedPathGraph.Visit | OptimizedEfficientGraph3.cpp:104-197 | one turn prunes above min_cost, keeps a cheaper target entry as best state, or expands; min_cost never rises, the queue weight falls, and every branch to the target cheaper than min_cost still has a prefix entry in the queue |
| VisitedPathGraph.StartComplete | OptimizedEfficientGraph3.cpp:93-98 | the start entry is a prefix of every branch |
| VisitedPathGraph.PopCompletes | OptimizedEfficientGraph3.cpp:104-197 | popping an entry loses no branch below min_cost: it was pruned or set min_cost at or below its cost, or its allowed children below min_cost were pushed |
| VisitedPathGraph.ExhaustedLeast | OptimizedEfficientGraph3.cpp:104 | once the queue is empty, no branch reaches the target for less than min_cost |
| VisitedPathGraph.ReconstructPath | OptimizedEfficientGraph3.cpp:204-253 | empty with no best state; otherwise the chain of recorded keys to the source or to a missing key, reversed and labelled, or None when the chain comes round to a state it passed |
| VisitedPathGraph.TraceKeys | OptimizedEfficientGraph3.cpp:214-232 | the collected states follow the recorded keys and stop at the source or a missing key |
| VisitedPathGraph.LongChainCycles | OptimizedEfficientGraph3.cpp:217-232 | a chain longer than the number of recorded states goes round a cycle |
| VisitedPathGraph.Pigeonhole | OptimizedEfficientGraph3.cpp:217-232 | a sequence longer than a set it draws from repeats an element |
| VisitedPathGraph.Relabelled | OptimizedEfficientGraph3.cpp:235-250 | the reversed states become pairs with first channel channel - count + 1, and -1 at the source and the target |
| VisitedPathGraph.ChainPath | OptimizedEfficientGraph3.cpp:204-253 | a chain from a target state back to the source gives a path from (source, -1) to (target, -1) along edges |
| VisitedPathGraph.ChainShaped | OptimizedEfficientGraph3.cpp:225-231 | every recorded predecessor on a chain is a well-formed state |
| VisitedPathGraph.ChainAdjacent | OptimizedEfficientGraph3.cpp:225-231 | each state on a chain has an edge to the state before it |
| VisitedPathGraph.ChainKeyed | OptimizedEfficientGraph3.cpp:225-228 | the chain ends at the source or at a key that is recorded |
| VisitedPathGraph.MinCostPath | OptimizedEfficientGraph3.cpp:86-201 | [(source, -1)] when source == target; otherwise the path rebuilt from the best state: empty only when, with non-negative costs, no branch reaches the target below INT_MAX; else a path from the source to the target, with a simple branch to the target whose cost, with non-negative costs, no branch undercuts |
| VisitedPathGraph.ValidatePath | OptimizedEfficientGraph3.cpp:292-320 | true exactly when the path is non-empty, starts at the source, ends at the target and repeats no node |
| VisitedPathGraph.OptimizedEfficientGraph.constructor | OptimizedEfficientGraph3.cpp:59 | n nodes, no edges, no node supports switching |
| VisitedPathGraph.OptimizedEfficientGraph.SetChannelSwitchSupport | OptimizedEfficientGraph3.cpp:61-65 | an out-of-range id is ignored; otherwise only that node's flag changes |
| VisitedPathGraph.OptimizedEfficientGraph.AddEdge | OptimizedEfficientGraph3.cpp:67-83 | invalid_argument unless there are exactly 100 costs, with nothing changed; otherwise the edge is added in both directions |
| VisitedPathGraph.OptimizedEfficientGraph.FindMinCostPath | OptimizedEfficientGraph3.cpp:86-201 | as MinCostPath, on the object's graph |
| Common.SegSumExtend | ChannelGraph.cpp:152-154 | a block sum grows by the next channel's cost |
| Common.ReversedTwice | ChannelGraph.cpp:172 | reversing twice gives back the sequence |
| Common.MinExists | ChannelGraph.cpp:97 | a non-empty queue has an entry of least cost |

## Left out

- Priority-queue ties: the queues of ChannelGraph.cpp:87, ChannelGraph2.cpp:76 and OptimizedEfficientGraph.cpp:77 hold `tuple`/`pair` entries and break cost ties by comparing the whole entry; the `operator>` of OptimizedEfficientGraph1.cpp:43-45 and OptimizedEfficientGraph3.cpp:45-47 compares `cost` only, so equal-cost entries leave those queues in whatever order the heap keeps them. The model pops any cheapest entry, so every result holds for every tie order.
- Integer width: costs are unbounded integers, and `INF` is the `INT_MAX` sentinel of the C++ code. Every cost sum in the C++ code is a plain 32-bit `int` addition (for example ChannelGraph.cpp:131, OptimizedEfficientGraph.cpp:106, OptimizedEfficientGraph1.cpp:128, OptimizedEfficientGraph3.cpp:136). A settled cost plus a channel cost can exceed `INT_MAX`; the C++ sum then wraps to a negative value that can pass the `new_cost < dist[...]` or `new_cost < min_cost` test, while the model keeps the true sum and treats such a state as unreached. The results of the model match the code only on graphs where no such sum exceeds `INT_MAX`.
- Exceptions: `out_of_range`, `invalid_argument` and `runtime_error` are `Failure` or `Fail` results. The messages written to `cout`/`cerr` (including those of `validatePath`) are not modelled.
- `main`, the test runners, `TestUtils` and `TestCaseGenerator`: printing, assertion harnesses and random cost generators seeded from the clock.
- Ownership and hashing: `shared_ptr`, the copy constructor of the OptimizedEfficientGraph3 `State`, and the hashing of `unordered_map`/`unordered_set` are Dafny values, maps and sets.
- `MAX_NODES` of ChannelGraph.cpp is declared but never used.
- FixedBand.ChannelGraph.FindShortestPath requires channel costs that are never negative. With a negative cost the loop of ChannelGraph.cpp need not end, and the proof of termination relies on the costs only going down.
- FixedBand.Search: requires channel costs that are never negative, for the same reason: it is the loop of findShortestPath, and its termination measure needs costs that only go down.
- PrecomputedGraph.MinCost: requires non-negative costs, for termination and for Dijkstra's argument. Its -1 means only that no walk costs less than INT_MAX, because costs of INT_MAX and above count as unreached.
- PrecomputedGraph.OptimizedEfficientGraph.FindMinCost: the same requirements as MinCost.
- PrecomputedGraph.OptimizedEfficientGraph.AddEdge: requires both endpoints in range and exactly 100 costs. The C++ code checks neither, and then indexes out of bounds.
- PrecomputedGraph.OptimizedEfficientGraph.SetChannelSwitchSupport: requires the id in range, because the C++ code writes without checking.
- TracedGraph.MinCostPath: requires non-negative costs, for termination and for Dijkstra's argument. An empty path means only that no walk costs less than INT_MAX, because costs of INT_MAX and above count as unreached.
- TracedGraph.OptimizedEfficientGraph.FindMinCostPath: the same requirements as MinCostPath.
- TracedGraph.OptimizedEfficientGraph.AddEdge: requires both endpoints in range. The C++ code does not check them.
- VisitedPathGraph.MinCostPath: the least cost is stated only for non-negative channel costs, where a hop never lowers the cost of a branch; with a negative cost, min_cost pruning can drop a branch that would get cheaper later. It does not state that the path rebuilt from the keys is the cheapest branch: keys ignore the visited sets, and a later push with the same key overwrites an earlier predecessor.
- VisitedPathGraph.ReconstructPath: when following the keys comes back to a state already passed, the C++ loop never ends. The model stops after as many steps as there are recorded states, plus two, and returns `None`, with a proof that the chain has gone round a cycle.
- VisitedPathGraph.OptimizedEfficientGraph.FindMinCostPath: the same promise as MinCostPath. It requires the source in range unless it is the target, because the C++ code indexes `adj` without a check.
- VisitedPathGraph.OptimizedEfficientGraph.AddEdge: requires both endpoints in range. The C++ code does not check them.
- The concrete scenarios of the test runners, such as the line graph of ChannelGraph2.cpp:219-232, are not restated as lemmas.
