/** The OptimizedEfficientGraph class of OptimizedEfficientGraph1.cpp: the growing-band
    search of OptimizedEfficientGraph.cpp that also records, for every state it
    settles, the state it came from and the first channel of the band in use, keeps
    the cheapest cost found at the target so far to prune the search, and rebuilds
    the path as (node, first channel) pairs. */
module TracedGraph {
  import opened Common
  import opened GrowingBand

  /** Edge::getSegmentCost: the costs of `size` channels from `start`, added up one by
      one. The channel array is not bounds-checked, so the block must fit. */
  method GetSegmentCost(costs: seq<int>, start: int, size: int) returns (total: int)
    requires 0 <= start && 0 <= size && start + size <= |costs|
    ensures total == SegSum(costs, start, size)
  {
    total := 0;
    for i := 0 to size
      invariant total == SegSum(costs, start, i)
    {
      SegSumExtend(costs, start, i);
      total := total + costs[start + i];
    }
  }

  /** PathState: an entry of the priority queue. */
  datatype PathState = PathState(cost: int, state: int, prevState: int, startChannel: int)

  /** priority_queue::top under greater<PathState>: an entry of least cost (the order
      among entries of equal cost is left open). */
  method PopCheapest(q: multiset<PathState>) returns (x: PathState)
    requires q != multiset{}
    ensures x in q && forall y :: y in q ==> x.cost <= y.cost
  {
    MinExists(q, (e: PathState) => e.cost);
    x :| x in q && forall y :: y in q ==> x.cost <= y.cost;
  }

  /** The locals of findMinCostPath: dist, prev_state, start_channel, the queue,
      min_cost and best_final_state. */
  datatype Search = Search(dist: seq<int>, prev: seq<int>, startChannel: seq<int>,
                           pq: multiset<PathState>, minCost: int, best: int)

  /** What the proof keeps beside the search: the walk to every state whose
      predecessor has been recorded (and to the start state), the move each queued
      entry was pushed for, the states already popped with their best cost, and the
      cost of the last entry popped. */
  datatype Ledger = Ledger(walkOf: map<int, seq<Move>>, moveOf: map<PathState, Move>, closed: set<int>, floor: int)

  /** `moves` leads from the start state of the source to `s`. */
  ghost predicate RunsTo(G: Graph, source: int, moves: seq<Move>, s: int)
  {
    var r := Run(G, StartState(source), moves);
    r.Some? && r.value.state == s
  }

  ghost predicate Sizes(G: Graph, S: Search)
  {
    |S.dist| == |G.adj| * STATE_COUNT && |S.prev| == |S.dist| && |S.startChannel| == |S.dist|
  }

  ghost predicate DistRange(dist: seq<int>)
  {
    forall s :: 0 <= s < |dist| ==> 0 <= dist[s] <= INF
  }

  /** A queued entry: its cost is at least the best known cost of its state and at
      least that of the last entry popped, and it is stale when its state was already
      popped with its best cost. */
  ghost predicate EntryOK(G: Graph, source: int, dist: seq<int>, walkOf: map<int, seq<Move>>,
                          moveOf: map<PathState, Move>, closed: set<int>, floor: int, x: PathState)
  {
    && 0 <= x.state < |dist| && dist[x.state] <= x.cost < INF && floor <= x.cost
    && (x.state in closed ==> dist[x.state] < x.cost)
    && Pushed(G, source, walkOf, moveOf, x)
  }

  /** How an entry came to be queued: the start entry has no predecessor; any other
      entry extends the recorded walk to its predecessor by one move, costs what that
      walk costs, and carries the first channel of the band that walk ends in. */
  ghost predicate Pushed(G: Graph, source: int, walkOf: map<int, seq<Move>>, moveOf: map<PathState, Move>,
                         x: PathState)
  {
    if x.prevState == -1 then x.state == StartState(source) && x.cost == 0 && x.startChannel == -1
    else
      && x.prevState in walkOf && x in moveOf
      && WalkTo(G, source, walkOf[x.prevState] + [moveOf[x]], x.state, x.cost)
      && x.startChannel == BandStart(walkOf[x.prevState] + [moveOf[x]])
  }

  ghost predicate Queued(G: Graph, source: int, dist: seq<int>, pq: multiset<PathState>, walkOf: map<int, seq<Move>>,
                         moveOf: map<PathState, Move>, closed: set<int>, floor: int)
  {
    forall x :: x in pq ==> EntryOK(G, source, dist, walkOf, moveOf, closed, floor, x)
  }

  /** The recorded predecessors, as reconstructPath reads them: the start state has
      none and no band; every other recorded state has a recorded predecessor, its
      walk is the predecessor's walk and one more move, and its start channel is the
      first channel of the band that walk ends in. */
  ghost predicate Recorded(G: Graph, source: int, prev: seq<int>, startChannel: seq<int>,
                           walkOf: map<int, seq<Move>>)
  {
    var start := StartState(source);
    && |prev| == |startChannel|
    && start in walkOf && walkOf[start] == [] && 0 <= start < |prev| && prev[start] == -1 && startChannel[start] == -1
    && (forall s :: s in walkOf ==> 0 <= s < |prev| && RunsTo(G, source, walkOf[s], s))
    && (forall s {:trigger prev[s]} :: s in walkOf && s != start ==>
          && walkOf[s] != [] && prev[s] in walkOf && walkOf[prev[s]] == walkOf[s][..|walkOf[s]| - 1]
          && startChannel[s] == BandStart(walkOf[s]))
  }

  /** Beyond Recorded: only popped states are recorded, and a state that is not
      recorded has no predecessor. */
  ghost predicate Chain(G: Graph, source: int, prev: seq<int>, startChannel: seq<int>,
                        walkOf: map<int, seq<Move>>, closed: set<int>)
  {
    && Recorded(G, source, prev, startChannel, walkOf)
    && (forall s :: s in walkOf && s != StartState(source) ==> s in closed)
    && (forall s :: 0 <= s < |prev| && s !in walkOf ==> prev[s] == -1)
  }

  /** Two queued entries for one state are never both fresh. */
  ghost predicate FreshUnique(dist: seq<int>, pq: multiset<PathState>)
  {
    forall x, y :: x in pq && y in pq - multiset{x} && x.state == y.state && 0 <= x.state < |dist| ==>
      dist[x.state] < x.cost || dist[y.state] < y.cost
  }

  /** Popped states are no dearer than the last popped cost. */
  ghost predicate ClosedBelow(dist: seq<int>, closed: set<int>, floor: int)
  {
    forall s :: s in closed ==> 0 <= s < |dist| && dist[s] <= floor
  }

  /** best_final_state is -1 while min_cost is INT_MAX; afterwards it is a started
      state of the target whose recorded walk costs min_cost. */
  ghost predicate BestOK(G: Graph, source: int, target: int, best: int, minCost: int, walkOf: map<int, seq<Move>>)
  {
    if best == -1 then minCost == INF
    else
      && best in walkOf && NodeOf(best) == target && SlotOf(best) < CHANNELS && 0 <= minCost < INF
      && WalkTo(G, source, walkOf[best], best, minCost)
  }

  /** The part of the invariant that expanding a state changes: the best known costs
      and the queue. */
  ghost predicate Frontier(G: Graph, source: int, S: Search, L: Ledger)
  {
    && ValidGraph(G) && NonNegativeCosts(G.adj) && 0 <= source < |G.adj|
    && Sizes(G, S) && DistRange(S.dist) && S.minCost <= INF && 0 <= L.floor
    && Queued(G, source, S.dist, S.pq, L.walkOf, L.moveOf, L.closed, L.floor)
    && FreshUnique(S.dist, S.pq) && ClosedBelow(S.dist, L.closed, L.floor)
  }

  ghost predicate Inv(G: Graph, source: int, target: int, S: Search, L: Ledger)
  {
    && Frontier(G, source, S, L)
    && Chain(G, source, S.prev, S.startChannel, L.walkOf, L.closed)
    && BestOK(G, source, target, S.best, S.minCost, L.walkOf)
  }

  /** Expanding a state leaves the recorded predecessors, min_cost, best_final_state
      and the popped states alone. */
  ghost predicate Untouched(S0: Search, L0: Ledger, S: Search, L: Ledger)
  {
    && S.prev == S0.prev && S.startChannel == S0.startChannel && S.minCost == S0.minCost && S.best == S0.best
    && L.walkOf == L0.walkOf && L.closed == L0.closed && L.floor == L0.floor
  }

  /** The popped entry `x` is being expanded: its state has been popped with its best
      cost, which is the last popped cost, and its recorded walk costs that much and
      ends in a band starting at the entry's start channel. */
  ghost predicate Expanding(G: Graph, source: int, walkOf: map<int, seq<Move>>, closed: set<int>, floor: int,
                            x: PathState)
  {
    && x.state in walkOf && x.state in closed && x.cost == floor
    && WalkTo(G, source, walkOf[x.state], x.state, x.cost)
    && x.startChannel == BandStart(walkOf[x.state])
  }

  /** Either the best known costs went down in total, or nothing changed. */
  ghost predicate Progress(S0: Search, S: Search)
  {
    Sum(S.dist) < Sum(S0.dist) || (S.dist == S0.dist && S.pq == S0.pq)
  }

  lemma ProgressTrans(S0: Search, S1: Search, S2: Search)
    requires Progress(S0, S1) && Progress(S1, S2)
    ensures Progress(S0, S2)
  {
  }

  /** Some queued entry for state `s` costs `c`. */
  ghost predicate HasEntry(pq: multiset<PathState>, s: int, c: int)
  {
    exists y :: y in pq && y.state == s && y.cost == c
  }

  /** Move `m` out of state `s`, reached at `cost`, is either pruned, because it
      reaches min_cost, or leads to a state whose best known cost is no dearer. */
  ghost predicate RelaxedMove(G: Graph, dist: seq<int>, minCost: int, s: int, cost: int, m: Move)
  {
    MoveOK(G, s, m) ==>
      || minCost <= cost + MoveCost(G, s, m)
      || (0 <= MoveTarget(G, s, m) < |dist| && dist[MoveTarget(G, s, m)] <= cost + MoveCost(G, s, m))
  }

  /** What expanding a state does to the best known costs and the queue: costs only
      drop, never for a popped state, every drop is queued, and no entry is taken off. */
  ghost predicate Grown(S0: Search, S: Search, closed: set<int>)
  {
    && |S.dist| == |S0.dist| && S0.pq <= S.pq
    && (forall k :: 0 <= k < |S.dist| ==> S.dist[k] <= S0.dist[k])
    && (forall k :: k in closed && 0 <= k < |S.dist| ==> S.dist[k] == S0.dist[k])
    && (forall k :: 0 <= k < |S.dist| && S.dist[k] < S0.dist[k] ==> HasEntry(S.pq, k, S.dist[k]))
  }

  lemma GrownTrans(S0: Search, S1: Search, S2: Search, closed: set<int>)
    requires Grown(S0, S1, closed) && Grown(S1, S2, closed)
    ensures Grown(S0, S2, closed)
  {
    forall k | 0 <= k < |S2.dist| && S2.dist[k] < S0.dist[k]
      ensures HasEntry(S2.pq, k, S2.dist[k])
    {
      if S2.dist[k] == S1.dist[k] {
        var y :| y in S1.pq && y.state == k && y.cost == S1.dist[k];
        assert y in S2.pq;
      }
    }
  }

  /** A relaxed move stays relaxed while costs drop and min_cost stays. */
  lemma RelaxedBelow(G: Graph, S0: Search, S: Search, closed: set<int>, s: int, cost: int, m: Move)
    requires Grown(S0, S, closed) && S.minCost == S0.minCost && RelaxedMove(G, S0.dist, S0.minCost, s, cost, m)
    ensures RelaxedMove(G, S.dist, S.minCost, s, cost, m)
  {
  }

  /** Queueing an entry that is fresh for a state whose other entries all go stale
      keeps at most one fresh entry per state. */
  lemma FreshPush(dist: seq<int>, pq: multiset<PathState>, t: int, c: int, y: PathState)
    requires FreshUnique(dist, pq) && 0 <= t < |dist| && c < dist[t] && y.state == t && y.cost == c
    requires forall z :: z in pq && z.state == t ==> dist[t] <= z.cost
    ensures FreshUnique(dist[t := c], pq + multiset{y})
  {
    var dist', pq' := dist[t := c], pq + multiset{y};
    forall x, z | x in pq' && z in pq' - multiset{x} && x.state == z.state && 0 <= x.state < |dist'|
      ensures dist'[x.state] < x.cost || dist'[z.state] < z.cost
    {
      if x.state == t {
        if x == y {
          assert z in pq;
        } else {
          assert x in pq;
        }
      } else {
        assert x in pq && z in pq - multiset{x};
      }
    }
  }

  /** An entry for move `m` out of the expanded entry `x` is pushed for that move. */
  lemma PushedNew(G: Graph, source: int, walkOf: map<int, seq<Move>>, closed: set<int>, floor: int,
                  moveOf: map<PathState, Move>, x: PathState, m: Move, y: PathState)
    requires Expanding(G, source, walkOf, closed, floor, x) && MoveOK(G, x.state, m)
    requires y == PathState(x.cost + MoveCost(G, x.state, m), MoveTarget(G, x.state, m), x.state,
                            BandStart(walkOf[x.state] + [m]))
    ensures Pushed(G, source, walkOf, moveOf[y := m], y)
  {
    RunExtend(G, StartState(source), walkOf[x.state], m, x.state, x.cost);
  }

  /** Queueing a pushed entry `y` that lowers the best known cost of a state not yet
      popped, and no cheaper than the last popped cost, keeps every queued entry in
      order; the entries already queued for that state are no cheaper than its old
      best known cost. */
  lemma QueuedPush(G: Graph, source: int, dist: seq<int>, pq: multiset<PathState>, walkOf: map<int, seq<Move>>,
                   moveOf: map<PathState, Move>, closed: set<int>, floor: int, y: PathState, m: Move)
    requires Queued(G, source, dist, pq, walkOf, moveOf, closed, floor)
    requires 0 <= y.state < |dist| && y.state !in closed && floor <= y.cost < dist[y.state] && y.cost < INF
    requires Pushed(G, source, walkOf, moveOf[y := m], y)
    ensures Queued(G, source, dist[y.state := y.cost], pq + multiset{y}, walkOf, moveOf[y := m], closed, floor)
    ensures forall z :: z in pq && z.state == y.state ==> dist[y.state] <= z.cost
  {
    var dist', moveOf' := dist[y.state := y.cost], moveOf[y := m];
    forall z | z in pq + multiset{y}
      ensures EntryOK(G, source, dist', walkOf, moveOf', closed, floor, z)
    {
      if z != y {
        assert EntryOK(G, source, dist, walkOf, moveOf, closed, floor, z);
        if z.prevState != -1 {
          assert moveOf'[z] == moveOf[z];
        }
      }
    }
    forall z | z in pq && z.state == y.state
      ensures dist[y.state] <= z.cost
    {
      assert EntryOK(G, source, dist, walkOf, moveOf, closed, floor, z);
    }
  }

  /** The `if (new_cost < dist[new_state])` update while expanding `x`, reached only
      when new_cost is below min_cost: the target `t` of move `m` gets the new cost `c`
      and an entry with `x` as its predecessor; `S` and `L` are the search and the
      ledger after the update. */
  lemma PushKeeps(G: Graph, source: int, S0: Search, L0: Ledger, x: PathState, m: Move, t: int, c: int, sc: int,
                  S: Search, L: Ledger)
    requires Frontier(G, source, S0, L0) && Expanding(G, source, L0.walkOf, L0.closed, L0.floor, x)
    requires MoveOK(G, x.state, m) && t == MoveTarget(G, x.state, m) && c == x.cost + MoveCost(G, x.state, m)
    requires sc == BandStart(L0.walkOf[x.state] + [m]) && c < S0.minCost && c < S0.dist[t]
    requires S.dist == S0.dist[t := c] && S.pq == S0.pq + multiset{PathState(c, t, x.state, sc)}
    requires L.moveOf == L0.moveOf[PathState(c, t, x.state, sc) := m] && Untouched(S0, L0, S, L)
    ensures Frontier(G, source, S, L) && Sum(S.dist) < Sum(S0.dist)
  {
    var y := PathState(c, t, x.state, sc);
    MoveTargetRange(G, x.state, m);
    SumUpdate(S0.dist, t, c);
    assert t !in L0.closed;
    PushedNew(G, source, L0.walkOf, L0.closed, L0.floor, L0.moveOf, x, m, y);
    QueuedPush(G, source, S0.dist, S0.pq, L0.walkOf, L0.moveOf, L0.closed, L0.floor, y, m);
    FreshPush(S0.dist, S0.pq, t, c, y);
  }

  /** The search and the ledger after relaxing move `m` of the expanded entry `x` at
      new cost `c`: the target `t` gets the new cost and an entry with `x` as its
      predecessor and `sc` as its start channel exactly when the new cost is below both
      min_cost and the target's best known cost; nothing else changes. */
  ghost predicate RelaxedTo(S0: Search, L0: Ledger, x: PathState, m: Move, t: int, c: int, sc: int,
                            S: Search, L: Ledger)
    requires 0 <= t < |S0.dist|
  {
    var pushed := c < S0.minCost && c < S0.dist[t];
    && S.dist == (if pushed then S0.dist[t := c] else S0.dist)
    && S.pq == (if pushed then S0.pq + multiset{PathState(c, t, x.state, sc)} else S0.pq)
    && L.moveOf == (if pushed then L0.moveOf[PathState(c, t, x.state, sc) := m] else L0.moveOf)
    && Untouched(S0, L0, S, L)
  }

  /** Relaxing one move of the expanded entry `x`; `t`, `stepCost` and `sc` are the
      target state, the cost and the start channel the C++ code computes for it. */
  method Relax(source: int, S0: Search, ghost L0: Ledger, x: PathState, ghost m: Move, t: int, stepCost: int,
               sc: int)
    returns (S: Search, ghost L: Ledger)
    requires 0 <= t < |S0.dist|
    ensures RelaxedTo(S0, L0, x, m, t, x.cost + stepCost, sc, S, L)
  {
    var c := x.cost + stepCost;
    S, L := S0, L0;
    if c < S.minCost && c < S.dist[t] {
      var y := PathState(c, t, x.state, sc);
      S := S.(dist := S.dist[t := c], pq := S.pq + multiset{y});
      L := L.(moveOf := L.moveOf[y := m]);
    }
  }

  /** Relaxing a move of the expanded entry keeps the frontier invariant, and either
      lowers the total of the best known costs or changes nothing. */
  lemma RelaxKeeps(G: Graph, source: int, S0: Search, L0: Ledger, x: PathState, m: Move, t: int, stepCost: int,
                   sc: int, S: Search, L: Ledger)
    requires Frontier(G, source, S0, L0) && Expanding(G, source, L0.walkOf, L0.closed, L0.floor, x)
    requires MoveOK(G, x.state, m) && t == MoveTarget(G, x.state, m) && stepCost == MoveCost(G, x.state, m)
    requires sc == BandStart(L0.walkOf[x.state] + [m]) && 0 <= t < |S0.dist|
    requires RelaxedTo(S0, L0, x, m, t, x.cost + stepCost, sc, S, L)
    ensures Frontier(G, source, S, L) && Progress(S0, S)
    ensures Grown(S0, S, L0.closed) && RelaxedMove(G, S.dist, S.minCost, x.state, x.cost, m)
  {
    var c := x.cost + stepCost;
    if c < S0.minCost && c < S0.dist[t] {
      PushKeeps(G, source, S0, L0, x, m, t, c, sc, S, L);
    }
    RelaxGrows(G, source, S0, L0, x, m, t, c, sc, S, L);
  }

  /** Relaxing move `m` of the expanded entry leaves it relaxed or pruned, and lowers
      only the cost of a state not yet popped, queueing it. */
  lemma RelaxGrows(G: Graph, source: int, S0: Search, L0: Ledger, x: PathState, m: Move, t: int, c: int, sc: int,
                   S: Search, L: Ledger)
    requires Frontier(G, source, S0, L0) && Expanding(G, source, L0.walkOf, L0.closed, L0.floor, x)
    requires MoveOK(G, x.state, m) && t == MoveTarget(G, x.state, m) && c == x.cost + MoveCost(G, x.state, m)
    requires 0 <= t < |S0.dist| && RelaxedTo(S0, L0, x, m, t, c, sc, S, L)
    ensures Grown(S0, S, L0.closed) && RelaxedMove(G, S.dist, S.minCost, x.state, x.cost, m)
  {
    if c < S0.minCost && c < S0.dist[t] {
      MoveTargetRange(G, x.state, m);
      assert t !in L0.closed;
      assert PathState(c, t, x.state, sc) in S.pq;
    }
  }

  /** Relaxing move `m` of the expanded entry, with the target state, step cost and
      start channel the move stands for, keeps the frontier invariant. */
  method Push(ghost G: Graph, source: int, S0: Search, ghost L0: Ledger, x: PathState, ghost m: Move, t: int,
              stepCost: int, sc: int)
    returns (S: Search, ghost L: Ledger)
    requires Frontier(G, source, S0, L0) && Expanding(G, source, L0.walkOf, L0.closed, L0.floor, x)
    requires MoveOK(G, x.state, m) && t == MoveTarget(G, x.state, m) && stepCost == MoveCost(G, x.state, m)
    requires sc == BandStart(L0.walkOf[x.state] + [m])
    ensures Frontier(G, source, S, L) && Progress(S0, S) && Untouched(S0, L0, S, L)
    ensures Grown(S0, S, L0.closed) && RelaxedMove(G, S.dist, S.minCost, x.state, x.cost, m)
  {
    MoveTargetRange(G, x.state, m);
    S, L := Relax(source, S0, L0, x, m, t, stepCost, sc);
    RelaxKeeps(G, source, S0, L0, x, m, t, stepCost, sc, S, L);
  }

  /** One band on edge `i`: `size` channels from channel `first`, whose first channel
      becomes the start channel of the new entry. */
  method TryBand(ghost G: Graph, adj: seq<seq<Edge>>, source: int, S0: Search, ghost L0: Ledger, x: PathState,
                 i: int, size: int, first: int)
    returns (S: Search, ghost L: Ledger)
    requires Frontier(G, source, S0, L0) && Expanding(G, source, L0.walkOf, L0.closed, L0.floor, x)
    requires adj == G.adj && MoveOK(G, x.state, Move(i, Begin(size, first)))
    ensures Frontier(G, source, S, L) && Progress(S0, S) && Untouched(S0, L0, S, L)
    ensures Grown(S0, S, L0.closed) && RelaxedMove(G, S.dist, S.minCost, x.state, x.cost, Move(i, Begin(size, first)))
  {
    ghost var m := Move(i, Begin(size, first));
    BandStartSnoc(L0.walkOf[x.state], m);
    var segmentCost := GetSegmentCost(adj[NodeOf(x.state)][i].costs, first, size);
    var t := StateId(adj[NodeOf(x.state)][i].to, first + size - 1);
    S, L := Push(G, source, S0, L0, x, m, t, segmentCost, first);
  }

  /** The bands of `size` channels from channels 0 to `first` - 1 stay relaxed while
      the one from `first` is tried. */
  lemma StartsRelaxed(G: Graph, S1: Search, S: Search, closed: set<int>, s: int, cost: int, i: int, size: int,
                      first: int)
    requires Grown(S1, S, closed) && S.minCost == S1.minCost
    requires forall f :: 0 <= f < first ==> RelaxedMove(G, S1.dist, S1.minCost, s, cost, Move(i, Begin(size, f)))
    requires RelaxedMove(G, S.dist, S.minCost, s, cost, Move(i, Begin(size, first)))
    ensures forall f :: 0 <= f <= first ==> RelaxedMove(G, S.dist, S.minCost, s, cost, Move(i, Begin(size, f)))
  {
    forall f | 0 <= f < first
      ensures RelaxedMove(G, S.dist, S.minCost, s, cost, Move(i, Begin(size, f)))
    {
      RelaxedBelow(G, S1, S, closed, s, cost, Move(i, Begin(size, f)));
    }
  }

  /** The bands of fewer than `size` channels stay relaxed while those of `size`
      channels are tried. */
  lemma SizesRelaxed(G: Graph, S1: Search, S: Search, closed: set<int>, s: int, cost: int, i: int, size: int)
    requires Grown(S1, S, closed) && S.minCost == S1.minCost
    requires forall sz, f :: 1 <= sz < size && 0 <= f <= CHANNELS - sz ==>
      RelaxedMove(G, S1.dist, S1.minCost, s, cost, Move(i, Begin(sz, f)))
    requires forall f :: 0 <= f <= CHANNELS - size ==> RelaxedMove(G, S.dist, S.minCost, s, cost, Move(i, Begin(size, f)))
    ensures forall sz, f :: 1 <= sz <= size && 0 <= f <= CHANNELS - sz ==>
      RelaxedMove(G, S.dist, S.minCost, s, cost, Move(i, Begin(sz, f)))
  {
    forall sz, f | 1 <= sz < size && 0 <= f <= CHANNELS - sz
      ensures RelaxedMove(G, S.dist, S.minCost, s, cost, Move(i, Begin(sz, f)))
    {
      RelaxedBelow(G, S1, S, closed, s, cost, Move(i, Begin(sz, f)));
    }
  }

  /** Every band of 1 to 3 channels that fits is every band MoveOK allows. */
  lemma BeginsRelaxed(G: Graph, dist: seq<int>, minCost: int, s: int, cost: int, i: int)
    requires forall sz, f :: 1 <= sz <= 3 && 0 <= f <= CHANNELS - sz ==>
      RelaxedMove(G, dist, minCost, s, cost, Move(i, Begin(sz, f)))
    ensures forall m: Move :: m.edge == i && m.step.Begin? ==> RelaxedMove(G, dist, minCost, s, cost, m)
  {
    forall m: Move | m.edge == i && m.step.Begin?
      ensures RelaxedMove(G, dist, minCost, s, cost, m)
    {
      assert m == Move(i, Begin(m.step.size, m.step.first));
    }
  }

  /** The loop over start on edge `i` for one seg_size: every band of `size` channels
      that fits. */
  method BandsOfSize(ghost G: Graph, adj: seq<seq<Edge>>, source: int, S0: Search,
                     ghost L0: Ledger, x: PathState, i: int, size: int)
    returns (S: Search, ghost L: Ledger)
    requires Frontier(G, source, S0, L0) && Expanding(G, source, L0.walkOf, L0.closed, L0.floor, x)
    requires adj == G.adj && MoveOK(G, x.state, Move(i, Begin(1, 0))) && 1 <= size <= 3
    ensures Frontier(G, source, S, L) && Progress(S0, S) && Untouched(S0, L0, S, L) && Grown(S0, S, L0.closed)
    ensures forall f :: 0 <= f <= CHANNELS - size ==>
      RelaxedMove(G, S.dist, S.minCost, x.state, x.cost, Move(i, Begin(size, f)))
  {
    S, L := S0, L0;
    for first := 0 to CHANNELS - size + 1
      invariant Frontier(G, source, S, L) && Progress(S0, S) && Untouched(S0, L0, S, L) && Grown(S0, S, L0.closed)
      invariant forall f :: 0 <= f < first ==> RelaxedMove(G, S.dist, S.minCost, x.state, x.cost, Move(i, Begin(size, f)))
    {
      assert MoveOK(G, x.state, Move(i, Begin(size, first)));
      ghost var S1 := S;
      S, L := TryBand(G, adj, source, S, L, x, i, size, first);
      ProgressTrans(S0, S1, S);
      GrownTrans(S0, S1, S, L0.closed);
      StartsRelaxed(G, S1, S, L0.closed, x.state, x.cost, i, size, first);
    }
  }

  /** The loop over seg_size on edge `i`: every band of 1 to 3 channels that fits. */
  method BeginBands(ghost G: Graph, adj: seq<seq<Edge>>, source: int, S0: Search,
                    ghost L0: Ledger, x: PathState, i: int)
    returns (S: Search, ghost L: Ledger)
    requires Frontier(G, source, S0, L0) && Expanding(G, source, L0.walkOf, L0.closed, L0.floor, x)
    requires adj == G.adj && MoveOK(G, x.state, Move(i, Begin(1, 0)))
    ensures Frontier(G, source, S, L) && Progress(S0, S) && Untouched(S0, L0, S, L) && Grown(S0, S, L0.closed)
    ensures forall m: Move :: m.edge == i && m.step.Begin? ==> RelaxedMove(G, S.dist, S.minCost, x.state, x.cost, m)
  {
    S, L := S0, L0;
    for size := 1 to 4
      invariant Frontier(G, source, S, L) && Progress(S0, S) && Untouched(S0, L0, S, L) && Grown(S0, S, L0.closed)
      invariant forall sz, f :: 1 <= sz < size && 0 <= f <= CHANNELS - sz ==>
        RelaxedMove(G, S.dist, S.minCost, x.state, x.cost, Move(i, Begin(sz, f)))
    {
      ghost var S1 := S;
      S, L := BandsOfSize(G, adj, source, S, L, x, i, size);
      ProgressTrans(S0, S1, S);
      GrownTrans(S0, S1, S, L0.closed);
      SizesRelaxed(G, S1, S, L0.closed, x.state, x.cost, i, size);
    }
    BeginsRelaxed(G, S.dist, S.minCost, x.state, x.cost, i);
  }

  /** An Extend move after a walk from the source: it leads to the next channel on the
      edge's other end, costs that channel, and its band starts where the walk's band
      started, which is never -1 once the walk has a move. */
  lemma ExtendFacts(G: Graph, source: int, walk: seq<Move>, s: int, c: int, sc: int, i: int)
    requires WalkTo(G, source, walk, s, c) && sc == BandStart(walk) && MoveOK(G, s, Move(i, Extend))
    ensures MoveTarget(G, s, Move(i, Extend)) == StateId(G.adj[NodeOf(s)][i].to, SlotOf(s) + 1)
    ensures MoveCost(G, s, Move(i, Extend)) == G.adj[NodeOf(s)][i].costs[SlotOf(s) + 1]
    ensures sc != -1 && BandStart(walk + [Move(i, Extend)]) == sc
  {
    BandStartSnoc(walk, Move(i, Extend));
    if walk == [] {
      assert false;
    }
    BandStartStarted(G, StartState(source), walk, s, c);
  }

  /** Continuing the band on edge `i` by the channel after the current one; the new
      entry keeps the expanded entry's start channel, or takes the current channel
      when the entry has none. */
  method TryExtend(ghost G: Graph, adj: seq<seq<Edge>>, source: int, S0: Search, ghost L0: Ledger, x: PathState,
                   i: int)
    returns (S: Search, ghost L: Ledger)
    requires Frontier(G, source, S0, L0) && Expanding(G, source, L0.walkOf, L0.closed, L0.floor, x)
    requires adj == G.adj && MoveOK(G, x.state, Move(i, Extend))
    ensures Frontier(G, source, S, L) && Progress(S0, S) && Untouched(S0, L0, S, L)
    ensures Grown(S0, S, L0.closed) && RelaxedMove(G, S.dist, S.minCost, x.state, x.cost, Move(i, Extend))
  {
    ExtendFacts(G, source, L0.walkOf[x.state], x.state, x.cost, x.startChannel, i);
    var u, channel := x.state / STATE_COUNT, x.state % STATE_COUNT;
    var continued := x.startChannel;
    if continued == -1 {
      continued := channel;
    }
    var t := StateId(adj[u][i].to, channel + 1);
    S, L := Push(G, source, S0, L0, x, Move(i, Extend), t, adj[u][i].costs[channel + 1], continued);
  }

  /** The body of the loop over the edges of the expanded node: from the NOT_STARTED
      slot every band is tried; otherwise the band is extended by its next channel
      below channel 99, and new bands are tried when the node supports switching or
      the band has reached channel 99. */
  method ExpandEdge(ghost G: Graph, adj: seq<seq<Edge>>, switch: seq<bool>, source: int,
                    S0: Search, ghost L0: Ledger, x: PathState, i: int)
    returns (S: Search, ghost L: Ledger)
    requires Frontier(G, source, S0, L0) && Expanding(G, source, L0.walkOf, L0.closed, L0.floor, x)
    requires adj == G.adj && switch == G.switch && 0 <= x.state && 0 <= i < |adj[NodeOf(x.state)]|
    ensures Frontier(G, source, S, L) && Progress(S0, S) && Untouched(S0, L0, S, L) && Grown(S0, S, L0.closed)
    ensures forall m: Move :: m.edge == i ==> RelaxedMove(G, S.dist, S.minCost, x.state, x.cost, m)
  {
    StateIdRange(|G.adj|, x.state);
    var u, channel := NodeOf(x.state), SlotOf(x.state);
    S, L := S0, L0;
    if channel == NOT_STARTED {
      S, L := BeginBands(G, adj, source, S, L, x, i);
    } else {
      if channel < CHANNELS - 1 {
        S, L := TryExtend(G, adj, source, S, L, x, i);
      }
      if switch[u] || channel >= CHANNELS - 1 {
        ghost var S1 := S;
        S, L := BeginBands(G, adj, source, S, L, x, i);
        ProgressTrans(S0, S1, S);
        GrownTrans(S0, S1, S, L0.closed);
        RelaxedBelow(G, S1, S, L0.closed, x.state, x.cost, Move(i, Extend));
      }
    }
    forall m: Move | m.edge == i
      ensures RelaxedMove(G, S.dist, S.minCost, x.state, x.cost, m)
    {
      match m.step
      case Begin(size, first) =>
        assert m == Move(i, Begin(size, first));
      case Extend =>
        assert m == Move(i, Extend);
    }
  }

  /** The loop over the edges of the node of the expanded entry. */
  method ExpandState(ghost G: Graph, adj: seq<seq<Edge>>, switch: seq<bool>, source: int,
                     S0: Search, ghost L0: Ledger, x: PathState)
    returns (S: Search, ghost L: Ledger)
    requires Frontier(G, source, S0, L0) && Expanding(G, source, L0.walkOf, L0.closed, L0.floor, x)
    requires adj == G.adj && switch == G.switch && 0 <= x.state < |S0.dist|
    ensures Frontier(G, source, S, L) && Progress(S0, S) && Untouched(S0, L0, S, L) && Grown(S0, S, L0.closed)
    ensures forall m: Move :: RelaxedMove(G, S.dist, S.minCost, x.state, x.cost, m)
  {
    StateIdRange(|G.adj|, x.state);
    S, L := S0, L0;
    for i := 0 to |adj[NodeOf(x.state)]|
      invariant Frontier(G, source, S, L) && Progress(S0, S)
      invariant Untouched(S0, L0, S, L) && Grown(S0, S, L0.closed)
      invariant forall m: Move :: m.edge < i ==> RelaxedMove(G, S.dist, S.minCost, x.state, x.cost, m)
    {
      ghost var S1 := S;
      S, L := ExpandEdge(G, adj, switch, source, S, L, x, i);
      ProgressTrans(S0, S1, S);
      GrownTrans(S0, S1, S, L0.closed);
      forall m: Move | m.edge < i
        ensures RelaxedMove(G, S.dist, S.minCost, x.state, x.cost, m)
      {
        RelaxedBelow(G, S1, S, L0.closed, x.state, x.cost, m);
      }
    }
  }

  /** A popped state under min_cost pruning: a started state of the target is no
      cheaper than min_cost; any other state was either dropped above min_cost or has
      every move out of it relaxed or pruned. */
  ghost predicate ClosedOK(G: Graph, target: int, dist: seq<int>, minCost: int, s: int)
  {
    && 0 <= s < |dist|
    && (if NodeOf(s) == target && SlotOf(s) < CHANNELS then minCost <= dist[s]
        else minCost < dist[s] || forall m :: RelaxedMove(G, dist, minCost, s, dist[s], m))
  }

  /** The invariant behind the least cost, while the popped state `pending` (or none,
      for -1) is still being settled: the start state keeps cost 0, every other popped
      state is as ClosedOK says, and every state not yet popped whose best known cost
      is below min_cost has an entry at that cost in the queue. */
  ghost predicate Settled(G: Graph, source: int, target: int, dist: seq<int>, pq: multiset<PathState>, minCost: int,
                          closed: set<int>, pending: int)
  {
    && 0 <= StartState(source) < |dist| && dist[StartState(source)] == 0
    && (forall s :: s in closed ==> 0 <= s < |dist|)
    && (forall s :: s in closed && s != pending ==> ClosedOK(G, target, dist, minCost, s))
    && (forall s :: 0 <= s < |dist| && dist[s] < minCost && s !in closed ==> HasEntry(pq, s, dist[s]))
  }

  /** Popping entry `x`: a stale entry changes nothing the invariant speaks of; a fresh
      one makes its state popped and pending. */
  lemma SettledPop(G: Graph, source: int, target: int, dist: seq<int>, pq: multiset<PathState>, minCost: int,
                   closed: set<int>, x: PathState)
    requires Settled(G, source, target, dist, pq, minCost, closed, -1) && x in pq
    requires 0 <= x.state < |dist| && dist[x.state] <= x.cost
    ensures x.cost == dist[x.state] ==>
      Settled(G, source, target, dist, pq - multiset{x}, minCost, closed + {x.state}, x.state)
    ensures x.cost != dist[x.state] ==> Settled(G, source, target, dist, pq - multiset{x}, minCost, closed, -1)
  {
    var closed' := if x.cost == dist[x.state] then closed + {x.state} else closed;
    forall s | 0 <= s < |dist| && dist[s] < minCost && s !in closed'
      ensures HasEntry(pq - multiset{x}, s, dist[s])
    {
      var y :| y in pq && y.state == s && y.cost == dist[s];
      assert y in pq - multiset{x};
    }
  }

  /** The pending state meets ClosedOK, so it is pending no more. */
  lemma SettledResume(G: Graph, source: int, target: int, dist: seq<int>, pq: multiset<PathState>, minCost: int,
                      closed: set<int>, s: int)
    requires Settled(G, source, target, dist, pq, minCost, closed, s) && ClosedOK(G, target, dist, minCost, s)
    ensures Settled(G, source, target, dist, pq, minCost, closed, -1)
  {
  }

  /** Popping a started state of the target: min_cost drops to at most its cost, and
      the invariant holds with no state pending. */
  lemma SettledTarget(G: Graph, source: int, target: int, dist: seq<int>, pq: multiset<PathState>, minCost: int,
                      closed: set<int>, s: int, newMin: int)
    requires Settled(G, source, target, dist, pq, minCost, closed, s) && 0 <= s < |dist|
    requires NodeOf(s) == target && SlotOf(s) < CHANNELS && newMin <= minCost && newMin <= dist[s]
    ensures Settled(G, source, target, dist, pq, newMin, closed, -1)
  {
    forall t | t in closed && t != s
      ensures ClosedOK(G, target, dist, newMin, t)
    {
      assert ClosedOK(G, target, dist, minCost, t);
      if !(NodeOf(t) == target && SlotOf(t) < CHANNELS) && newMin >= dist[t] {
        forall m
          ensures RelaxedMove(G, dist, newMin, t, dist[t], m)
        {
          assert RelaxedMove(G, dist, minCost, t, dist[t], m);
        }
      }
    }
  }

  /** Expanding the pending state `x.state` relaxes or prunes every move out of it, so
      the invariant holds with no state pending. */
  lemma ExpandSettles(G: Graph, source: int, target: int, S0: Search, S: Search, closed: set<int>, x: PathState)
    requires Settled(G, source, target, S0.dist, S0.pq, S0.minCost, closed, x.state)
    requires x.state in closed && 0 <= x.state < |S0.dist| && x.cost == S0.dist[x.state] && DistRange(S.dist)
    requires Grown(S0, S, closed) && S.minCost == S0.minCost
    requires forall m :: RelaxedMove(G, S.dist, S.minCost, x.state, x.cost, m)
    requires !(NodeOf(x.state) == target && SlotOf(x.state) < CHANNELS)
    ensures Settled(G, source, target, S.dist, S.pq, S.minCost, closed, -1)
  {
    forall s | s in closed
      ensures ClosedOK(G, target, S.dist, S.minCost, s)
    {
      if s != x.state {
        assert ClosedOK(G, target, S0.dist, S0.minCost, s);
        if !(NodeOf(s) == target && SlotOf(s) < CHANNELS) && S.minCost >= S.dist[s] {
          forall m
            ensures RelaxedMove(G, S.dist, S.minCost, s, S.dist[s], m)
          {
            assert RelaxedMove(G, S0.dist, S0.minCost, s, S0.dist[s], m);
          }
        }
      }
    }
    forall s | 0 <= s < |S.dist| && S.dist[s] < S.minCost && s !in closed
      ensures HasEntry(S.pq, s, S.dist[s])
    {
      if S.dist[s] == S0.dist[s] {
        var y :| y in S0.pq && y.state == s && y.cost == S0.dist[s];
        assert y in S.pq;
      }
    }
  }

  /** Dijkstra's argument under pruning: along a walk that costs less than min_cost,
      either the queue holds an entry no dearer than the walk, or the walk ends in a
      popped state whose best known cost is no dearer than the walk. */
  lemma {:induction false} WalkBound(G: Graph, source: int, target: int, dist: seq<int>, pq: multiset<PathState>,
                                     minCost: int, closed: set<int>, w: seq<Move>, t: int, c: int)
    requires NonNegativeCosts(G.adj) && |dist| == |G.adj| * STATE_COUNT
    requires Settled(G, source, target, dist, pq, minCost, closed, -1)
    requires WalkTo(G, source, w, t, c) && c < minCost
    ensures (exists y :: y in pq && y.cost <= c) || (t in closed && dist[t] <= c)
    decreases |w|
  {
    if w == [] {
      if t !in closed {
        var y :| y in pq && y.state == t && y.cost == dist[t];
      }
    } else {
      var p, m := w[..|w| - 1], w[|w| - 1];
      var r := Run(G, StartState(source), p);
      assert r.Some? && MoveOK(G, r.value.state, m);
      var s, cp := r.value.state, r.value.cost;
      MoveTargetRange(G, s, m);
      WalkBound(G, source, target, dist, pq, minCost, closed, p, s, cp);
      if s in closed && dist[s] <= cp {
        assert ClosedOK(G, target, dist, minCost, s);
        assert RelaxedMove(G, dist, minCost, s, dist[s], m);
        if t !in closed {
          var y :| y in pq && y.state == t && y.cost == dist[t];
        }
      }
    }
  }

  /** Once the queue is empty, no walk reaches a started state of the target for less
      than min_cost. */
  lemma NoneBelowMinCost(G: Graph, source: int, target: int, dist: seq<int>, minCost: int, closed: set<int>)
    requires NonNegativeCosts(G.adj) && |dist| == |G.adj| * STATE_COUNT
    requires Settled(G, source, target, dist, multiset{}, minCost, closed, -1)
    ensures forall c :: ReachesAt(G, source, target, c) ==> minCost <= c
  {
    forall c | ReachesAt(G, source, target, c)
      ensures minCost <= c
    {
      var moves, slot :| 0 <= slot < CHANNELS && WalkTo(G, source, moves, StateId(target, slot), c);
      if c < minCost {
        StateIdRoundTrip(target, slot);
        WalkBound(G, source, target, dist, multiset{}, minCost, closed, moves, StateId(target, slot), c);
      }
    }
  }

  /** Taking the cheapest entry off the queue: it becomes the last popped cost. */
  lemma PopKeeps(G: Graph, source: int, target: int, S: Search, L: Ledger, x: PathState)
    requires Inv(G, source, target, S, L) && x in S.pq && forall y :: y in S.pq ==> x.cost <= y.cost
    ensures Inv(G, source, target, S.(pq := S.pq - multiset{x}), L.(floor := x.cost))
    ensures EntryOK(G, source, S.dist, L.walkOf, L.moveOf, L.closed, x.cost, x)
  {
    var pq' := S.pq - multiset{x};
    assert EntryOK(G, source, S.dist, L.walkOf, L.moveOf, L.closed, L.floor, x);
    forall z | z in pq'
      ensures EntryOK(G, source, S.dist, L.walkOf, L.moveOf, L.closed, x.cost, z)
    {
      assert EntryOK(G, source, S.dist, L.walkOf, L.moveOf, L.closed, L.floor, z);
    }
    forall y, z | y in pq' && z in pq' - multiset{y} && y.state == z.state && 0 <= y.state < |S.dist|
      ensures S.dist[y.state] < y.cost || S.dist[z.state] < z.cost
    {
      assert y in S.pq && z in S.pq - multiset{y};
    }
  }

  /** A fresh popped entry: its state joins the popped states, and every other entry
      for it is stale. */
  lemma CloseKeeps(G: Graph, source: int, target: int, S: Search, L: Ledger, x: PathState)
    requires Inv(G, source, target, S, L) && EntryOK(G, source, S.dist, L.walkOf, L.moveOf, L.closed, L.floor, x)
    requires x.cost == L.floor
    requires x.cost == S.dist[x.state] && FreshUnique(S.dist, S.pq + multiset{x})
    ensures x.state !in L.closed
    ensures Inv(G, source, target, S, L.(closed := L.closed + {x.state}))
  {
    forall z | z in S.pq
      ensures EntryOK(G, source, S.dist, L.walkOf, L.moveOf, L.closed + {x.state}, L.floor, z)
    {
      assert EntryOK(G, source, S.dist, L.walkOf, L.moveOf, L.closed, L.floor, z);
      if z.state == x.state {
        assert z in S.pq + multiset{x} - multiset{x};
      }
    }
  }

  /** An entry with a predecessor was pushed for a move, so its state has a started
      band and is not the start state. */
  lemma EntryStarted(G: Graph, source: int, walkOf: map<int, seq<Move>>, moveOf: map<PathState, Move>, x: PathState)
    requires Pushed(G, source, walkOf, moveOf, x) && x.prevState != -1
    ensures SlotOf(x.state) < CHANNELS && x.state != StartState(source)
  {
    var w := walkOf[x.prevState];
    var m := moveOf[x];
    assert (w + [m])[..|w|] == w;
    var r := Run(G, StartState(source), w);
    MoveTargetRange(G, r.value.state, m);
    StateIdRoundTrip(source, NOT_STARTED);
  }

  /** Recording a popped entry's predecessor, start channel and walk keeps the
      recorded chain intact. */
  lemma ChainRecord(G: Graph, source: int, prev: seq<int>, startChannel: seq<int>, walkOf: map<int, seq<Move>>,
                    moveOf: map<PathState, Move>, closed: set<int>, x: PathState)
    requires Chain(G, source, prev, startChannel, walkOf, closed) && Pushed(G, source, walkOf, moveOf, x)
    requires x.prevState != -1 && x.state in closed && x.state !in walkOf && 0 <= x.state < |prev|
    ensures Chain(G, source, prev[x.state := x.prevState], startChannel[x.state := x.startChannel],
                  walkOf[x.state := walkOf[x.prevState] + [moveOf[x]]], closed)
  {
    var w := walkOf[x.prevState] + [moveOf[x]];
    assert w[..|w| - 1] == walkOf[x.prevState];
    EntryStarted(G, source, walkOf, moveOf, x);
    var prev', startChannel', walkOf' := prev[x.state := x.prevState], startChannel[x.state := x.startChannel],
                                         walkOf[x.state := w];
    var start := StartState(source);
    forall s | s in walkOf'
      ensures 0 <= s < |prev'| && RunsTo(G, source, walkOf'[s], s)
    {
    }
    forall s | s in walkOf' && s != start
      ensures && walkOf'[s] != [] && prev'[s] in walkOf' && walkOf'[prev'[s]] == walkOf'[s][..|walkOf'[s]| - 1]
              && startChannel'[s] == BandStart(walkOf'[s])
    {
      if s != x.state {
        assert prev'[s] == prev[s];
      }
    }
    assert start in walkOf' && walkOf'[start] == [] && 0 <= start < |prev'| && prev'[start] == -1 && startChannel'[start] == -1;
    forall s | 0 <= s < |prev'| && s !in walkOf'
      ensures prev'[s] == -1
    {
    }
  }

  /** Recording the predecessor and start channel of the fresh popped entry's state,
      when it has a predecessor. */
  lemma RecordKeeps(G: Graph, source: int, target: int, S: Search, L: Ledger, x: PathState)
    requires Inv(G, source, target, S, L) && 0 <= x.state < |S.dist| && Pushed(G, source, L.walkOf, L.moveOf, x)
    requires x.prevState != -1 && x.state in L.closed && x.cost == L.floor && x.state !in L.walkOf
    ensures var w := L.walkOf[x.prevState] + [L.moveOf[x]];
      && Chain(G, source, S.prev[x.state := x.prevState], S.startChannel[x.state := x.startChannel],
               L.walkOf[x.state := w], L.closed)
      && Queued(G, source, S.dist, S.pq, L.walkOf[x.state := w], L.moveOf, L.closed, L.floor)
      && BestOK(G, source, target, S.best, S.minCost, L.walkOf[x.state := w])
      && Expanding(G, source, L.walkOf[x.state := w], L.closed, L.floor, x)
  {
    var w := L.walkOf[x.prevState] + [L.moveOf[x]];
    EntryStarted(G, source, L.walkOf, L.moveOf, x);
    ChainRecord(G, source, S.prev, S.startChannel, L.walkOf, L.moveOf, L.closed, x);
    forall z | z in S.pq
      ensures EntryOK(G, source, S.dist, L.walkOf[x.state := w], L.moveOf, L.closed, L.floor, z)
    {
      assert EntryOK(G, source, S.dist, L.walkOf, L.moveOf, L.closed, L.floor, z);
    }
  }

  /** A popped entry that is not stale and not above min_cost: its state is recorded
      (when it has a predecessor) and, at a started state of the target, min_cost and
      best_final_state take its cost and state when it is cheaper. `expand` tells
      whether the entry's state is to be expanded. */
  method Settle(ghost G: Graph, source: int, target: int, S0: Search, ghost L0: Ledger, x: PathState)
    returns (S: Search, ghost L: Ledger, expand: bool)
    requires Inv(G, source, target, S0, L0) && 0 <= x.state < |S0.dist| && Pushed(G, source, L0.walkOf, L0.moveOf, x)
    requires x.state in L0.closed && x.cost == L0.floor && 0 <= x.cost < INF
    requires x.state !in L0.walkOf - {StartState(source)}
    requires Settled(G, source, target, S0.dist, S0.pq, S0.minCost, L0.closed, x.state)
    requires x.cost == S0.dist[x.state] && x.cost <= S0.minCost
    ensures Inv(G, source, target, S, L) && S.dist == S0.dist && S.pq == S0.pq
    ensures expand ==> Expanding(G, source, L.walkOf, L.closed, L.floor, x)
    ensures expand ==>
      && Settled(G, source, target, S.dist, S.pq, S.minCost, L.closed, x.state) && S.minCost == S0.minCost
      && !(NodeOf(x.state) == target && SlotOf(x.state) < CHANNELS)
    ensures !expand ==> Settled(G, source, target, S.dist, S.pq, S.minCost, L.closed, -1)
    ensures !expand <==> NodeOf(x.state) == target && SlotOf(x.state) != NOT_STARTED
    ensures S.minCost <= S0.minCost
    ensures !expand && x.cost < S0.minCost ==> S.minCost == x.cost && S.best == x.state
    ensures (expand || S0.minCost <= x.cost) ==> S.minCost == S0.minCost && S.best == S0.best
    ensures x.prevState != -1 && S0.prev[x.state] == -1 ==>
      S.prev == S0.prev[x.state := x.prevState] && S.startChannel == S0.startChannel[x.state := x.startChannel]
    ensures !(x.prevState != -1 && S0.prev[x.state] == -1) ==>
      S.prev == S0.prev && S.startChannel == S0.startChannel
  {
    S, L := S0, L0;
    if x.prevState != -1 {
      EntryStarted(G, source, L.walkOf, L.moveOf, x);
    }
    if x.prevState != -1 && S.prev[x.state] == -1 {
      RecordKeeps(G, source, target, S, L, x);
      S := S.(prev := S.prev[x.state := x.prevState], startChannel := S.startChannel[x.state := x.startChannel]);
      L := L.(walkOf := L.walkOf[x.state := L.walkOf[x.prevState] + [L.moveOf[x]]]);
    }
    StateIdRange(|G.adj|, x.state);
    if NodeOf(x.state) == target && SlotOf(x.state) != NOT_STARTED {
      if x.cost < S.minCost {
        S := S.(minCost := x.cost, best := x.state);
      }
      SettledTarget(G, source, target, S.dist, S.pq, S0.minCost, L.closed, x.state, S.minCost);
      return S, L, false;
    }
    expand := true;
  }

  /** The (node, start channel) pairs read off the walk `moves` from the start state of
      the source: one pair per state the walk passes, the channel being the first
      channel of the band in use on arrival (-1 at the start). */
  ghost function RawTrace(G: Graph, source: int, moves: seq<Move>): seq<(int, int)>
    requires Run(G, StartState(source), moves).Some?
    decreases |moves|
  {
    if moves == [] then [(NodeOf(StartState(source)), -1)]
    else
      RawTrace(G, source, moves[..|moves| - 1])
        + [(NodeOf(Run(G, StartState(source), moves).value.state), BandStart(moves))]
  }

  /** The channel reported for a pair: -1 at the source and at the target. */
  function Relabel(source: int, target: int, p: (int, int)): (int, int)
  {
    if p.0 == source || p.0 == target then (p.0, -1) else p
  }

  function RelabelAll(source: int, target: int, t: seq<(int, int)>): (r: seq<(int, int)>)
    ensures |r| == |t| && forall i :: 0 <= i < |t| ==> r[i] == Relabel(source, target, t[i])
    decreases |t|
  {
    if t == [] then [] else RelabelAll(source, target, t[..|t| - 1]) + [Relabel(source, target, t[|t| - 1])]
  }

  /** The path reconstructPath returns for the walk `moves`. */
  ghost function Trace(G: Graph, source: int, target: int, moves: seq<Move>): seq<(int, int)>
    requires Run(G, StartState(source), moves).Some?
  {
    RelabelAll(source, target, RawTrace(G, source, moves))
  }

  /** One more move adds the pair of the state it reaches. */
  lemma RawTraceStep(G: Graph, source: int, w: seq<Move>, s: int)
    requires w != [] && RunsTo(G, source, w, s)
    ensures Run(G, StartState(source), w[..|w| - 1]).Some?
    ensures RawTrace(G, source, w) == RawTrace(G, source, w[..|w| - 1]) + [(NodeOf(s), BandStart(w))]
  {
  }

  /** reconstructPath: empty when no state of the target was reached; otherwise the
      predecessors of the final state are followed back to the start state, and the
      pairs collected on the way are reversed, with -1 as the channel of every pair at
      the source or the target. */
  method ReconstructPath(ghost G: Graph, final: int, prev: seq<int>, startChannel: seq<int>, source: int, target: int,
                         ghost walkOf: map<int, seq<Move>>)
    returns (path: seq<(int, int)>)
    requires Recorded(G, source, prev, startChannel, walkOf) && (final == -1 || final in walkOf)
    ensures final == -1 ==> path == []
    ensures final != -1 ==> path == Trace(G, source, target, walkOf[final])
  {
    path := [];
    if final == -1 {
      return;
    }
    var reversePath := TraceBack(G, final, prev, startChannel, source, walkOf);
    path := Unreverse(reversePath, source, target);
    ReversedTwice(RawTrace(G, source, walkOf[final]));
  }

  /** The first loop of reconstructPath: the (node, start channel) pairs from the final
      state back to the start state. */
  method TraceBack(ghost G: Graph, final: int, prev: seq<int>, startChannel: seq<int>, source: int,
                   ghost walkOf: map<int, seq<Move>>)
    returns (reversePath: seq<(int, int)>)
    requires Recorded(G, source, prev, startChannel, walkOf) && final in walkOf
    ensures reversePath == Reversed(RawTrace(G, source, walkOf[final]))
  {
    reversePath := [];
    var current := final;
    while current != -1
      invariant current == -1 || current in walkOf
      invariant current != -1 ==>
        reversePath + Reversed(RawTrace(G, source, walkOf[current])) == Reversed(RawTrace(G, source, walkOf[final]))
      invariant current == -1 ==> reversePath == Reversed(RawTrace(G, source, walkOf[final]))
      decreases if current == -1 then 0 else |walkOf[current]| + 1
    {
      var node := current / STATE_COUNT;
      var channelStart := startChannel[current];
      ghost var w := walkOf[current];
      if w == [] {
        assert current == StartState(source);
        assert RawTrace(G, source, w) == [(node, channelStart)];
      } else {
        RawTraceStep(G, source, w, current);
        ReversedSnoc(RawTrace(G, source, w[..|w| - 1]), (node, channelStart));
      }
      reversePath := reversePath + [(node, channelStart)];
      current := prev[current];
    }
  }

  /** The second loop of reconstructPath: the pairs in reverse order, relabelled. */
  method Unreverse(reversePath: seq<(int, int)>, source: int, target: int) returns (path: seq<(int, int)>)
    ensures path == RelabelAll(source, target, Reversed(reversePath))
  {
    path := [];
    var i := |reversePath| - 1;
    while i >= 0
      invariant -1 <= i < |reversePath|
      invariant path == RelabelAll(source, target, Reversed(reversePath)[..|reversePath| - 1 - i])
    {
      var node := reversePath[i].0;
      var channel := reversePath[i].1;
      ghost var done := Reversed(reversePath)[..|reversePath| - i];
      assert done[..|done| - 1] == Reversed(reversePath)[..|reversePath| - 1 - i] && done[|done| - 1] == reversePath[i];
      if node == source || node == target {
        path := path + [(node, -1)];
      } else {
        path := path + [(node, channel)];
      }
      i := i - 1;
    }
    assert Reversed(reversePath)[..|reversePath|] == Reversed(reversePath);
  }

  /** One turn of the loop of findMinCostPath: the cheapest entry is popped; it is
      dropped when stale or dearer than min_cost; otherwise it is settled and, unless
      it names a started state of the target, its state is expanded. Every turn either
      lowers the total of the best known costs or shortens the queue. */
  method Visit(ghost G: Graph, adj: seq<seq<Edge>>, switch: seq<bool>, source: int, target: int,
               S0: Search, ghost L0: Ledger)
    returns (S: Search, ghost L: Ledger)
    requires Inv(G, source, target, S0, L0) && S0.pq != multiset{} && adj == G.adj && switch == G.switch
    requires Settled(G, source, target, S0.dist, S0.pq, S0.minCost, L0.closed, -1)
    ensures Inv(G, source, target, S, L) && Settled(G, source, target, S.dist, S.pq, S.minCost, L.closed, -1)
    ensures Sum(S.dist) < Sum(S0.dist) || (S.dist == S0.dist && |S.pq| < |S0.pq|)
    ensures S.minCost <= S0.minCost
  {
    var x := PopCheapest(S0.pq);
    PopKeeps(G, source, target, S0, L0, x);
    SettledPop(G, source, target, S0.dist, S0.pq, S0.minCost, L0.closed, x);
    S := S0.(pq := S0.pq - multiset{x});
    L := L0.(floor := x.cost);
    if x.cost > S.dist[x.state] {
      return;
    }
    assert S0.pq == S.pq + multiset{x};
    CloseKeeps(G, source, target, S, L, x);
    L := L.(closed := L.closed + {x.state});
    if x.cost > S.minCost {
      SettledResume(G, source, target, S.dist, S.pq, S.minCost, L.closed, x.state);
      return;
    }
    var expand;
    S, L, expand := Settle(G, source, target, S, L, x);
    if expand {
      ghost var S1, closed := S, L.closed;
      S, L := ExpandState(G, adj, switch, source, S, L, x);
      ExpandSettles(G, source, target, S1, S, closed, x);
    }
  }

  /** The loop of findMinCostPath from the NOT_STARTED state of the source, then
      reconstructPath on best_final_state. The path is empty when no started state of
      the target was popped; otherwise it is the trace of a walk from the source to a
      started state of the target, and that walk costs `cost`, the final min_cost.
      Channel costs must not be negative: with a negative cost the loop need not end. */
  method MinCostPath(ghost G: Graph, adj: seq<seq<Edge>>, switch: seq<bool>, source: int, target: int)
    returns (path: seq<(int, int)>, ghost walk: seq<Move>, ghost last: int, ghost cost: int)
    requires ValidGraph(G) && NonNegativeCosts(G.adj) && adj == G.adj && switch == G.switch
    requires 0 <= source < |G.adj|
    ensures path != [] ==>
      && NodeOf(last) == target && SlotOf(last) < CHANNELS && 0 <= cost < INF
      && WalkTo(G, source, walk, last, cost) && path == Trace(G, source, target, walk)
      && Cheapest(G, source, target, cost)
    ensures path == [] ==> NoneBelowInf(G, source, target)
  {
    var N := |adj| * STATE_COUNT;
    var start := StateId(source, NOT_STARTED);
    StateIdRoundTrip(source, NOT_STARTED);
    StateIdRange(|G.adj|, start);
    var dist := Filled(N, INF);
    var prev := Filled(N, -1);
    var startChannel := Filled(N, -1);
    var x0 := PathState(0, start, -1, -1);
    var S := Search(dist[start := 0], prev, startChannel, multiset{x0}, INF, -1);
    ghost var L := Ledger(map[start := []], map[], {}, 0);
    assert EntryOK(G, source, S.dist, L.walkOf, L.moveOf, L.closed, L.floor, x0);
    assert HasEntry(S.pq, start, 0);
    while S.pq != multiset{}
      invariant Inv(G, source, target, S, L) && Settled(G, source, target, S.dist, S.pq, S.minCost, L.closed, -1)
      decreases Sum(S.dist), |S.pq|
    {
      SumNonNegative(S.dist);
      S, L := Visit(G, adj, switch, source, target, S, L);
    }
    NoneBelowMinCost(G, source, target, S.dist, S.minCost, L.closed);
    path := ReconstructPath(G, S.best, S.prev, S.startChannel, source, target, L.walkOf);
    walk, last, cost := [], -1, 0;
    if S.best != -1 {
      walk, last, cost := L.walkOf[S.best], S.best, S.minCost;
      StateIdRange(|G.adj|, last);
      assert WalkTo(G, source, walk, StateId(target, SlotOf(last)), cost);
      TraceShape(G, source, target, walk, last, cost);
    }
  }

  /** A table of `size` entries, all `value`. */
  method Filled(size: nat, value: int) returns (t: seq<int>)
    ensures |t| == size && forall s :: 0 <= s < size ==> t[s] == value
  {
    t := seq(size, _ => value);
  }

  /** The pairs read off a walk from the source: one per state passed, the first at
      the source with no band, each next one at a neighbour of the node before it, and
      every pair after the first carrying one of the 100 channels. */
  lemma {:induction false} RawTraceShape(G: Graph, source: int, moves: seq<Move>, s: int, c: int)
    requires WalkTo(G, source, moves, s, c)
    ensures var r := RawTrace(G, source, moves);
      && |r| == |moves| + 1 && r[0] == (source, -1) && r[|moves|].0 == NodeOf(s)
      && (forall k :: 1 <= k <= |moves| ==> Adjacent(G, r[k - 1].0, r[k].0))
      && (forall k :: 1 <= k <= |moves| ==> 0 <= r[k].1 < CHANNELS)
    decreases |moves|
  {
    StateIdRoundTrip(source, NOT_STARTED);
    if moves != [] {
      var p, m := moves[..|moves| - 1], moves[|moves| - 1];
      var before := Run(G, StartState(source), p).value;
      RawTraceShape(G, source, p, before.state, before.cost);
      BandStartStarted(G, StartState(source), moves, s, c);
      var e := G.adj[NodeOf(before.state)][m.edge];
      StateIdRoundTrip(e.to, StepSlot(SlotOf(before.state), m.step));
      assert Adjacent(G, NodeOf(before.state), NodeOf(s));
      var r := RawTrace(G, source, moves);
      assert r == RawTrace(G, source, p) + [(NodeOf(s), BandStart(moves))];
    }
  }

  /** The path rebuilt for a walk that ends at a started state of the target: it
      starts at (source, -1) and ends at (target, -1), consecutive nodes are joined by
      an edge, and every node in between other than the source or the target carries
      the first channel of its band, one of the 100 channels. */
  lemma TraceShape(G: Graph, source: int, target: int, walk: seq<Move>, last: int, cost: int)
    requires WalkTo(G, source, walk, last, cost) && NodeOf(last) == target
    ensures var path := Trace(G, source, target, walk);
      && |path| == |walk| + 1 && path[0] == (source, -1) && path[|walk|] == (target, -1)
      && (forall k :: 1 <= k <= |walk| ==> Adjacent(G, path[k - 1].0, path[k].0))
      && (forall k :: 0 <= k <= |walk| && path[k].0 != source && path[k].0 != target ==>
            0 <= path[k].1 < CHANNELS)
      && (forall k :: 0 <= k <= |walk| && (path[k].0 == source || path[k].0 == target) ==> path[k].1 == -1)
  {
    RawTraceShape(G, source, walk, last, cost);
  }

  /** The OptimizedEfficientGraph class of OptimizedEfficientGraph1.cpp. */
  class OptimizedEfficientGraph {
    /** n */
    const n: int
    /** supports_switch */
    var supportsSwitch: seq<bool>
    /** adj */
    var adj: seq<seq<Edge>>

    ghost predicate Valid()
      reads this
    {
      0 <= n && |adj| == n && |supportsSwitch| == n && WellFormed(adj)
    }

    /** n nodes, no edges, no node supports switching. */
    constructor (nodeCount: int)
      requires 0 <= nodeCount
      ensures Valid() && n == nodeCount
      ensures forall u :: 0 <= u < n ==> adj[u] == [] && !supportsSwitch[u]
    {
      n := nodeCount;
      adj := seq(nodeCount, _ => []);
      supportsSwitch := seq(nodeCount, _ => false);
    }

    /** setChannelSwitchSupport: a node id out of range is ignored. */
    method SetChannelSwitchSupport(nodeId: int, supports: bool)
      requires Valid()
      modifies this
      ensures Valid() && adj == old(adj)
      ensures supportsSwitch == if 0 <= nodeId < n then old(supportsSwitch)[nodeId := supports] else old(supportsSwitch)
    {
      if 0 <= nodeId < n {
        supportsSwitch := supportsSwitch[nodeId := supports];
      }
    }

    /** addEdge: a cost vector that does not hold exactly 100 costs is rejected with
        invalid_argument and nothing changes; otherwise an edge with these costs is
        added in both directions. The endpoints are not checked, so they must be in
        range. */
    method AddEdge(u: int, v: int, costs: seq<int>) returns (r: Outcome)
      requires Valid() && 0 <= u < n && 0 <= v < n
      modifies this
      ensures Valid() && supportsSwitch == old(supportsSwitch)
      ensures r == (if |costs| == CHANNELS then Pass else Fail(InvalidArgument))
      ensures r.Pass? ==> adj == AddUndirected(old(adj), u, v, Edge(v, costs), Edge(u, costs))
      ensures r.Fail? ==> adj == old(adj)
    {
      if |costs| != CHANNELS {
        return Fail(InvalidArgument);
      }
      WellFormedAdd(adj, u, v, costs);
      adj := AddUndirected(adj, u, v, Edge(v, costs), Edge(u, costs));
      r := Pass;
    }

    /** findMinCostPath: empty when the target cannot be reached with a started band;
        otherwise the path rebuilt from a walk that reaches a started state of the
        target at cost `cost`. The source is not checked, so it must be in range; the
        target is only compared, so any id is accepted. Channel costs must not be
        negative. */
    method FindMinCostPath(source: int, target: int)
      returns (path: seq<(int, int)>, ghost walk: seq<Move>, ghost last: int, ghost cost: int)
      requires Valid() && 0 <= source < n && NonNegativeCosts(adj)
      ensures path != [] ==>
        && NodeOf(last) == target && SlotOf(last) < CHANNELS && 0 <= cost < INF
        && WalkTo(Graph(adj, supportsSwitch), source, walk, last, cost)
        && path == Trace(Graph(adj, supportsSwitch), source, target, walk)
        && Cheapest(Graph(adj, supportsSwitch), source, target, cost)
      ensures path == [] ==> NoneBelowInf(Graph(adj, supportsSwitch), source, target)
    {
      path, walk, last, cost := MinCostPath(Graph(adj, supportsSwitch), adj, supportsSwitch, source, target);
    }
  }
}
