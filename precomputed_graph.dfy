/** The OptimizedEfficientGraph class of OptimizedEfficientGraph.cpp: every edge keeps
    tables of its one-, two- and three-channel block costs, and findMinCost searches
    the growing-band state space for the cost of a cheapest walk from the source to
    any started state of the target. Only the cost is computed; there is no path. */
module PrecomputedGraph {
  import opened Common
  import opened GrowingBand

  /** PrecomputedEdge: the other endpoint and the block-cost tables. */
  datatype PrecomputedEdge = PrecomputedEdge(to: int, single: seq<int>, double: seq<int>, triple: seq<int>)

  /** The tables of `e` hold the one-, two- and three-channel block costs of `costs`. */
  predicate PrecomputedFrom(e: PrecomputedEdge, costs: seq<int>)
  {
    && |costs| == CHANNELS && e.single == costs
    && |e.double| == CHANNELS - 1 && |e.triple| == CHANNELS - 2
    && (forall i :: 0 <= i < CHANNELS - 1 ==> e.double[i] == SegSum(costs, i, 2))
    && (forall i :: 0 <= i < CHANNELS - 2 ==> e.triple[i] == SegSum(costs, i, 3))
  }

  predicate TablesSized(e: PrecomputedEdge)
  {
    |e.single| == CHANNELS && |e.double| == CHANNELS - 1 && |e.triple| == CHANNELS - 2
  }

  /** getSegmentCost: a table lookup for a block of 1, 2 or 3 channels, INT_MAX for any
      other size. The tables are not bounds-checked, so the block must fit. */
  function GetSegmentCost(e: PrecomputedEdge, start: int, size: int): (r: int)
    requires TablesSized(e)
    requires 1 <= size <= 3 ==> 0 <= start <= CHANNELS - size
    ensures !(1 <= size <= 3) ==> r == INF
  {
    if size == 1 then e.single[start]
    else if size == 2 then e.double[start]
    else if size == 3 then e.triple[start]
    else INF
  }

  /** A lookup in tables built from `costs` is the block sum of `costs`. */
  lemma SegmentCostIsBlockSum(e: PrecomputedEdge, costs: seq<int>, start: int, size: int)
    requires PrecomputedFrom(e, costs)
    requires 1 <= size <= 3 ==> 0 <= start <= CHANNELS - size
    ensures 1 <= size <= 3 ==> GetSegmentCost(e, start, size) == SegSum(costs, start, size)
    ensures !(1 <= size <= 3) ==> GetSegmentCost(e, start, size) == INF
  {
    if size == 1 {
      SegSumSmall(costs, start);
    }
  }

  /** precomputeEdge: the single costs are copied, and the two- and three-channel
      tables are filled by one loop each. */
  method PrecomputeEdge(to: int, costs: seq<int>) returns (e: PrecomputedEdge)
    requires |costs| == CHANNELS
    ensures e.to == to && PrecomputedFrom(e, costs)
  {
    var double := new int[CHANNELS - 1];
    for i := 0 to CHANNELS - 1
      invariant forall k :: 0 <= k < i ==> double[k] == SegSum(costs, k, 2)
    {
      SegSumSmall(costs, i);
      double[i] := costs[i] + costs[i + 1];
    }
    var doubles := double[..];
    var triple := new int[CHANNELS - 2];
    for i := 0 to CHANNELS - 2
      invariant forall k :: 0 <= k < i ==> triple[k] == SegSum(costs, k, 3)
    {
      SegSumSmall(costs, i);
      triple[i] := costs[i] + costs[i + 1] + costs[i + 2];
    }
    e := PrecomputedEdge(to, costs, doubles, triple[..]);
  }

  /** Each precomputed edge mirrors the edge with the same endpoint and the channel
      costs its tables were built from. */
  ghost predicate Mirrors(adj: seq<seq<PrecomputedEdge>>, raw: seq<seq<Edge>>)
  {
    && |adj| == |raw|
    && (forall u :: 0 <= u < |adj| ==> |adj[u]| == |raw[u]|)
    && forall u, k :: 0 <= u < |adj| && 0 <= k < |adj[u]| ==>
         adj[u][k].to == raw[u][k].to && PrecomputedFrom(adj[u][k], raw[u][k].costs)
  }

  /** Adding the same undirected edge to both views keeps them mirrored. */
  lemma MirrorsAdd(adj: seq<seq<PrecomputedEdge>>, raw: seq<seq<Edge>>, u: int, v: int,
                   toV: PrecomputedEdge, toU: PrecomputedEdge, costs: seq<int>)
    requires Mirrors(adj, raw) && 0 <= u < |adj| && 0 <= v < |adj|
    requires toV.to == v && toU.to == u && PrecomputedFrom(toV, costs) && PrecomputedFrom(toU, costs)
    ensures Mirrors(AddUndirected(adj, u, v, toV, toU), AddUndirected(raw, u, v, Edge(v, costs), Edge(u, costs)))
  {
    var adj': seq<seq<PrecomputedEdge>> := AddUndirected(adj, u, v, toV, toU);
    var raw': seq<seq<Edge>> := AddUndirected(raw, u, v, Edge(v, costs), Edge(u, costs));
    forall w, k | 0 <= w < |adj'| && 0 <= k < |adj'[w]|
      ensures adj'[w][k].to == raw'[w][k].to && PrecomputedFrom(adj'[w][k], raw'[w][k].costs)
    {
      if k < |adj[w]| {
        assert adj'[w][k] == adj'[w][..|adj[w]|][k] && raw'[w][k] == raw'[w][..|raw[w]|][k];
      } else if w == u && k == |adj[u]| {
        assert adj'[w][k] == toV && raw'[w][k] == Edge(v, costs);
      } else {
        assert adj'[w][k] == toU && raw'[w][k] == Edge(u, costs);
      }
    }
  }

  /** pair<int,int> held in the priority queue: (cost, state number). */
  datatype Entry = Entry(cost: int, state: int)

  /** priority_queue::top under std::greater: an entry of least cost. Entries of
      equal cost are ordered by state number in the C++ queue; that order is left
      open here. */
  method PopCheapest(q: multiset<Entry>) returns (x: Entry)
    requires q != multiset{}
    ensures x in q && forall y :: y in q ==> x.cost <= y.cost
  {
    MinExists(q, (e: Entry) => e.cost);
    x :| x in q && forall y :: y in q ==> x.cost <= y.cost;
  }

  /** What the search knows at every point: each finite best known cost is the cost
      of a recorded walk to that state, no cost is negative, and every queued entry
      names a state whose best known cost is at most the entry's cost. */
  ghost predicate Sound(G: Graph, source: int, dist: seq<int>, walks: seq<seq<Move>>, pq: multiset<Entry>)
  {
    && |dist| == |G.adj| * STATE_COUNT && |walks| == |dist|
    && (forall s :: 0 <= s < |dist| ==> 0 <= dist[s] <= INF)
    && (forall s :: 0 <= s < |dist| && dist[s] < INF ==> WalkTo(G, source, walks[s], s, dist[s]))
    && (forall x :: x in pq ==> 0 <= x.state < |dist| && dist[x.state] <= x.cost < INF)
  }

  /** Either the best known costs went down in total, or nothing changed. */
  ghost predicate Progress(dist0: seq<int>, pq0: multiset<Entry>, dist: seq<int>, pq: multiset<Entry>)
  {
    Sum(dist) < Sum(dist0) || (dist == dist0 && pq == pq0)
  }

  /** No best known cost went up. */
  ghost predicate Below(dist: seq<int>, dist0: seq<int>)
  {
    |dist| == |dist0| && forall k :: 0 <= k < |dist| ==> dist[k] <= dist0[k]
  }

  /** What expanding a popped state of cost `cost` does to the tables: costs only go
      down, a cost of at most `cost` stays as it was, every lowered cost is queued,
      and entries are only added, none of them cheaper than `cost`. */
  ghost predicate Lowered(dist0: seq<int>, pq0: multiset<Entry>, dist: seq<int>, pq: multiset<Entry>, cost: int)
  {
    && Below(dist, dist0) && pq0 <= pq
    && (forall k :: 0 <= k < |dist| && dist0[k] <= cost ==> dist[k] == dist0[k])
    && (forall k :: 0 <= k < |dist| && dist[k] < dist0[k] ==> Entry(dist[k], k) in pq)
    && (forall y :: y in pq ==> y in pq0 || cost <= y.cost)
  }

  /** Move `m` from state `s`, reached at `cost`, has been relaxed: if it is allowed,
      the best known cost of its target is at most `cost` plus the move's cost. */
  ghost predicate RelaxedMove(G: Graph, dist: seq<int>, s: int, cost: int, m: Move)
  {
    MoveOK(G, s, m) ==>
      && 0 <= MoveTarget(G, s, m) < |dist|
      && dist[MoveTarget(G, s, m)] <= cost + MoveCost(G, s, m)
  }

  /** Lowering costs keeps a relaxed move relaxed. */
  lemma RelaxedBelow(G: Graph, dist0: seq<int>, dist: seq<int>, s: int, cost: int, m: Move)
    requires Below(dist, dist0) && RelaxedMove(G, dist0, s, cost, m)
    ensures RelaxedMove(G, dist, s, cost, m)
  {
  }

  /** Two expansion steps from the same popped state compose. */
  lemma LoweredTrans(d0: seq<int>, q0: multiset<Entry>, d1: seq<int>, q1: multiset<Entry>,
                     d2: seq<int>, q2: multiset<Entry>, cost: int)
    requires Lowered(d0, q0, d1, q1, cost) && Lowered(d1, q1, d2, q2, cost)
    ensures Lowered(d0, q0, d2, q2, cost)
  {
    forall k | 0 <= k < |d2| && d2[k] < d0[k]
      ensures Entry(d2[k], k) in q2
    {
      if d2[k] == d1[k] {
        assert Entry(d1[k], k) in q1;
      }
    }
  }

  /** The `if (new_cost < dist[new_state])` update: a cheaper walk to the target of
      move `m`, costing `newCost`, lowers its best known cost and queues it. */
  method Relax(ghost G: Graph, source: int, s: int, cost: int, ghost w: seq<Move>, ghost m: Move, t: int, newCost: int,
               dist0: seq<int>, ghost walks0: seq<seq<Move>>, pq0: multiset<Entry>)
    returns (dist: seq<int>, ghost walks: seq<seq<Move>>, pq: multiset<Entry>)
    requires Sound(G, source, dist0, walks0, pq0) && NonNegativeCosts(G.adj)
    requires WalkTo(G, source, w, s, cost) && 0 <= cost && MoveOK(G, s, m)
    requires t == MoveTarget(G, s, m) && newCost == cost + MoveCost(G, s, m)
    ensures Sound(G, source, dist, walks, pq) && Progress(dist0, pq0, dist, pq)
    ensures if newCost < dist0[t] then dist == dist0[t := newCost] && pq == pq0 + multiset{Entry(newCost, t)}
      else dist == dist0 && pq == pq0
  {
    MoveTargetRange(G, s, m);
    dist, walks, pq := dist0, walks0, pq0;
    if newCost < dist[t] {
      RunExtend(G, StartState(source), w, m, s, cost);
      SoundLower(G, source, dist, walks, pq, t, newCost, w + [m]);
      dist := dist[t := newCost];
      walks := walks[t := w + [m]];
      pq := pq + multiset{Entry(newCost, t)};
    }
  }

  /** One relaxation from a state reached at `cost` is an expansion step, and it
      leaves its move relaxed. */
  lemma LowerStep(G: Graph, dist0: seq<int>, pq0: multiset<Entry>, dist: seq<int>, pq: multiset<Entry>,
                  s: int, cost: int, m: Move, t: int, c: int)
    requires MoveOK(G, s, m) && t == MoveTarget(G, s, m) && c == cost + MoveCost(G, s, m)
    requires 0 <= t < |dist0| && cost <= c
    requires if c < dist0[t] then dist == dist0[t := c] && pq == pq0 + multiset{Entry(c, t)}
             else dist == dist0 && pq == pq0
    ensures Lowered(dist0, pq0, dist, pq, cost) && RelaxedMove(G, dist, s, cost, m)
  {
  }

  /** Lowering the best known cost of a state to that of a new walk, and queueing
      the state, keeps the search sound and lowers the total of the best costs. */
  lemma SoundLower(G: Graph, source: int, dist: seq<int>, walks: seq<seq<Move>>, pq: multiset<Entry>,
                   t: int, c: int, w: seq<Move>)
    requires Sound(G, source, dist, walks, pq) && 0 <= t < |dist| && 0 <= c < dist[t]
    requires WalkTo(G, source, w, t, c)
    ensures Sound(G, source, dist[t := c], walks[t := w], pq + multiset{Entry(c, t)})
    ensures Sum(dist[t := c]) < Sum(dist)
  {
    SumUpdate(dist, t, c);
  }

  /** Composing two steps that each make progress makes progress. */
  lemma ProgressTrans(d0: seq<int>, q0: multiset<Entry>, d1: seq<int>, q1: multiset<Entry>,
                      d2: seq<int>, q2: multiset<Entry>)
    requires Progress(d0, q0, d1, q1) && Progress(d1, q1, d2, q2)
    ensures Progress(d0, q0, d2, q2)
  {
  }

  /** One pass of the innermost loop: the band of `size` channels from channel
      `first` is tried on edge `i` of the node of state `s`. */
  method BeginBand(ghost G: Graph, adj: seq<seq<PrecomputedEdge>>, source: int, s: int, cost: int, ghost w: seq<Move>,
                   i: int, size: int, first: int, dist0: seq<int>, ghost walks0: seq<seq<Move>>, pq0: multiset<Entry>)
    returns (dist: seq<int>, ghost walks: seq<seq<Move>>, pq: multiset<Entry>)
    requires Sound(G, source, dist0, walks0, pq0) && NonNegativeCosts(G.adj) && Mirrors(adj, G.adj)
    requires WalkTo(G, source, w, s, cost) && 0 <= cost
    requires MoveOK(G, s, Move(i, Begin(size, first)))
    ensures Sound(G, source, dist, walks, pq) && Progress(dist0, pq0, dist, pq)
    ensures Lowered(dist0, pq0, dist, pq, cost) && RelaxedMove(G, dist, s, cost, Move(i, Begin(size, first)))
  {
    var e := adj[NodeOf(s)][i];
    SegmentCostIsBlockSum(e, G.adj[NodeOf(s)][i].costs, first, size);
    ghost var m := Move(i, Begin(size, first));
    var t, stepCost := StateId(e.to, first + size - 1), GetSegmentCost(e, first, size);
    MoveTargetRange(G, s, m);
    var newCost := cost + stepCost;
    dist, walks, pq := Relax(G, source, s, cost, w, m, t, newCost, dist0, walks0, pq0);
    LowerStep(G, dist0, pq0, dist, pq, s, cost, m, t, newCost);
  }

  /** The loop over start for one seg_size: every band of `size` channels that fits
      is tried on edge `i` of the node of state `s`. */
  method BeginBandsOfSize(ghost G: Graph, adj: seq<seq<PrecomputedEdge>>, source: int, s: int, cost: int, ghost w: seq<Move>,
                          i: int, size: int, dist0: seq<int>, ghost walks0: seq<seq<Move>>, pq0: multiset<Entry>)
    returns (dist: seq<int>, ghost walks: seq<seq<Move>>, pq: multiset<Entry>)
    requires Sound(G, source, dist0, walks0, pq0) && NonNegativeCosts(G.adj) && Mirrors(adj, G.adj)
    requires WalkTo(G, source, w, s, cost) && 0 <= cost
    requires MoveOK(G, s, Move(i, Begin(1, 0))) && 1 <= size <= 3
    ensures Sound(G, source, dist, walks, pq) && Progress(dist0, pq0, dist, pq) && Lowered(dist0, pq0, dist, pq, cost)
    ensures forall f :: 0 <= f <= CHANNELS - size ==> RelaxedMove(G, dist, s, cost, Move(i, Begin(size, f)))
  {
    dist, walks, pq := dist0, walks0, pq0;
    for first := 0 to CHANNELS - size + 1
      invariant Sound(G, source, dist, walks, pq) && Progress(dist0, pq0, dist, pq) && Lowered(dist0, pq0, dist, pq, cost)
      invariant forall f :: 0 <= f < first ==> RelaxedMove(G, dist, s, cost, Move(i, Begin(size, f)))
    {
      ghost var dist1, pq1 := dist, pq;
      dist, walks, pq := BeginBand(G, adj, source, s, cost, w, i, size, first, dist, walks, pq);
      ProgressTrans(dist0, pq0, dist1, pq1, dist, pq);
      LoweredTrans(dist0, pq0, dist1, pq1, dist, pq, cost);
      forall f | 0 <= f <= first
        ensures RelaxedMove(G, dist, s, cost, Move(i, Begin(size, f)))
      {
        if f < first {
          RelaxedBelow(G, dist1, dist, s, cost, Move(i, Begin(size, f)));
        }
      }
    }
  }

  /** The loop over seg_size: every band of 1 to 3 channels that fits is tried on
      edge `i` of the node of state `s`. */
  method BeginBands(ghost G: Graph, adj: seq<seq<PrecomputedEdge>>, source: int, s: int, cost: int, ghost w: seq<Move>,
                    i: int, dist0: seq<int>, ghost walks0: seq<seq<Move>>, pq0: multiset<Entry>)
    returns (dist: seq<int>, ghost walks: seq<seq<Move>>, pq: multiset<Entry>)
    requires Sound(G, source, dist0, walks0, pq0) && NonNegativeCosts(G.adj) && Mirrors(adj, G.adj)
    requires WalkTo(G, source, w, s, cost) && 0 <= cost
    requires MoveOK(G, s, Move(i, Begin(1, 0)))
    ensures Sound(G, source, dist, walks, pq) && Progress(dist0, pq0, dist, pq) && Lowered(dist0, pq0, dist, pq, cost)
    ensures forall m: Move :: m.edge == i && m.step.Begin? ==> RelaxedMove(G, dist, s, cost, m)
  {
    dist, walks, pq := dist0, walks0, pq0;
    for size := 1 to 4
      invariant Sound(G, source, dist, walks, pq) && Progress(dist0, pq0, dist, pq) && Lowered(dist0, pq0, dist, pq, cost)
      invariant forall sz, f :: 1 <= sz < size && 0 <= f <= CHANNELS - sz ==> RelaxedMove(G, dist, s, cost, Move(i, Begin(sz, f)))
    {
      ghost var dist1, pq1 := dist, pq;
      dist, walks, pq := BeginBandsOfSize(G, adj, source, s, cost, w, i, size, dist, walks, pq);
      ProgressTrans(dist0, pq0, dist1, pq1, dist, pq);
      LoweredTrans(dist0, pq0, dist1, pq1, dist, pq, cost);
      forall sz, f | 1 <= sz <= size && 0 <= f <= CHANNELS - sz
        ensures RelaxedMove(G, dist, s, cost, Move(i, Begin(sz, f)))
      {
        if sz < size {
          RelaxedBelow(G, dist1, dist, s, cost, Move(i, Begin(sz, f)));
        }
      }
    }
    forall m: Move | m.edge == i && m.step.Begin?
      ensures RelaxedMove(G, dist, s, cost, m)
    {
      assert m == Move(i, Begin(m.step.size, m.step.first));
    }
  }

  /** The `channel < CHANNELS - 1` branch: the band in use grows by its next channel
      on edge `i` of the node of state `s`. */
  method ExtendBand(ghost G: Graph, adj: seq<seq<PrecomputedEdge>>, source: int, s: int, cost: int, ghost w: seq<Move>,
                    i: int, dist0: seq<int>, ghost walks0: seq<seq<Move>>, pq0: multiset<Entry>)
    returns (dist: seq<int>, ghost walks: seq<seq<Move>>, pq: multiset<Entry>)
    requires Sound(G, source, dist0, walks0, pq0) && NonNegativeCosts(G.adj) && Mirrors(adj, G.adj)
    requires WalkTo(G, source, w, s, cost) && 0 <= cost
    requires MoveOK(G, s, Move(i, Extend))
    ensures Sound(G, source, dist, walks, pq) && Progress(dist0, pq0, dist, pq)
    ensures Lowered(dist0, pq0, dist, pq, cost) && RelaxedMove(G, dist, s, cost, Move(i, Extend))
  {
    var u, slot := NodeOf(s), SlotOf(s);
    ghost var m := Move(i, Extend);
    var t, stepCost := StateId(adj[u][i].to, slot + 1), adj[u][i].single[slot + 1];
    ExtendOnTables(G, adj, s, i);
    MoveTargetRange(G, s, m);
    var newCost := cost + stepCost;
    dist, walks, pq := Relax(G, source, s, cost, w, m, t, newCost, dist0, walks0, pq0);
    LowerStep(G, dist0, pq0, dist, pq, s, cost, m, t, newCost);
  }

  /** Extending the band along a precomputed edge reads the next channel's cost
      from the single-channel table. */
  lemma ExtendOnTables(G: Graph, adj: seq<seq<PrecomputedEdge>>, s: int, i: int)
    requires Mirrors(adj, G.adj) && MoveOK(G, s, Move(i, Extend))
    ensures MoveTarget(G, s, Move(i, Extend)) == StateId(adj[NodeOf(s)][i].to, SlotOf(s) + 1)
    ensures MoveCost(G, s, Move(i, Extend)) == adj[NodeOf(s)][i].single[SlotOf(s) + 1]
  {
  }

  /** The body of the loop over the edges of the node of a popped state: from the
      NOT_STARTED slot every band is tried; otherwise the band is extended by its
      next channel when below channel 99, and new bands are tried when the node
      supports switching or the band has reached channel 99. Either way every move
      along the edge is relaxed. */
  method ExpandEdge(ghost G: Graph, adj: seq<seq<PrecomputedEdge>>, switch: seq<bool>, source: int, s: int, cost: int, ghost w: seq<Move>,
                    i: int, dist0: seq<int>, ghost walks0: seq<seq<Move>>, pq0: multiset<Entry>)
    returns (dist: seq<int>, ghost walks: seq<seq<Move>>, pq: multiset<Entry>)
    requires Sound(G, source, dist0, walks0, pq0) && NonNegativeCosts(G.adj) && Mirrors(adj, G.adj)
    requires ValidGraph(G) && switch == G.switch && 0 <= s < |dist0| && WalkTo(G, source, w, s, cost) && 0 <= cost
    requires 0 <= i < |adj[NodeOf(s)]|
    ensures Sound(G, source, dist, walks, pq) && Progress(dist0, pq0, dist, pq) && Lowered(dist0, pq0, dist, pq, cost)
    ensures forall m: Move :: m.edge == i ==> RelaxedMove(G, dist, s, cost, m)
  {
    StateIdRange(|G.adj|, s);
    var u, slot := NodeOf(s), SlotOf(s);
    dist, walks, pq := dist0, walks0, pq0;
    if slot == NOT_STARTED {
      dist, walks, pq := BeginBands(G, adj, source, s, cost, w, i, dist, walks, pq);
    } else {
      if slot < CHANNELS - 1 {
        dist, walks, pq := ExtendBand(G, adj, source, s, cost, w, i, dist, walks, pq);
      }
      if switch[u] || slot >= CHANNELS - 1 {
        ghost var dist1, pq1 := dist, pq;
        dist, walks, pq := BeginBands(G, adj, source, s, cost, w, i, dist, walks, pq);
        ProgressTrans(dist0, pq0, dist1, pq1, dist, pq);
        LoweredTrans(dist0, pq0, dist1, pq1, dist, pq, cost);
        RelaxedBelow(G, dist1, dist, s, cost, Move(i, Extend));
      }
    }
    forall m: Move | m.edge == i
      ensures RelaxedMove(G, dist, s, cost, m)
    {
      match m.step
      case Begin(size, first) =>
        assert m == Move(i, Begin(size, first));
      case Extend =>
        assert m == Move(i, Extend);
    }
  }

  /** The loop over the edges of the node of state `s`. */
  method ExpandState(ghost G: Graph, adj: seq<seq<PrecomputedEdge>>, switch: seq<bool>, source: int, s: int,
                     cost: int, ghost w: seq<Move>, dist0: seq<int>, ghost walks0: seq<seq<Move>>, pq0: multiset<Entry>)
    returns (dist: seq<int>, ghost walks: seq<seq<Move>>, pq: multiset<Entry>)
    requires Sound(G, source, dist0, walks0, pq0) && NonNegativeCosts(G.adj) && Mirrors(adj, G.adj)
    requires ValidGraph(G) && switch == G.switch && 0 <= s < |dist0| && WalkTo(G, source, w, s, cost) && 0 <= cost
    ensures Sound(G, source, dist, walks, pq) && Progress(dist0, pq0, dist, pq) && Lowered(dist0, pq0, dist, pq, cost)
    ensures forall m: Move :: RelaxedMove(G, dist, s, cost, m)
  {
    StateIdRange(|G.adj|, s);
    dist, walks, pq := dist0, walks0, pq0;
    for i := 0 to |adj[NodeOf(s)]|
      invariant Sound(G, source, dist, walks, pq) && Progress(dist0, pq0, dist, pq) && Lowered(dist0, pq0, dist, pq, cost)
      invariant forall m: Move :: m.edge < i ==> RelaxedMove(G, dist, s, cost, m)
    {
      ghost var dist1, pq1 := dist, pq;
      dist, walks, pq := ExpandEdge(G, adj, switch, source, s, cost, w, i, dist, walks, pq);
      ProgressTrans(dist0, pq0, dist1, pq1, dist, pq);
      LoweredTrans(dist0, pq0, dist1, pq1, dist, pq, cost);
      forall m: Move | m.edge < i
        ensures RelaxedMove(G, dist, s, cost, m)
      {
        RelaxedBelow(G, dist1, dist, s, cost, m);
      }
    }
  }

  /** The search invariant behind the least cost; `done` holds the states popped and
      expanded so far. The start state keeps cost 0, no expanded state is a started
      state of the target, every move from an expanded state has been relaxed, no
      queued entry is cheaper than an expanded state, and every other state with a
      finite best cost has an entry at that cost in the queue. */
  ghost predicate Settled(G: Graph, source: int, target: int, dist: seq<int>, pq: multiset<Entry>, done: set<int>)
  {
    && 0 <= StartState(source) < |dist| && dist[StartState(source)] == 0
    && (forall s :: s in done ==> 0 <= s < |dist| && !(NodeOf(s) == target && SlotOf(s) < CHANNELS))
    && (forall s, m :: s in done ==> RelaxedMove(G, dist, s, dist[s], m))
    && (forall s, y :: s in done && y in pq ==> dist[s] <= y.cost)
    && (forall s :: 0 <= s < |dist| && dist[s] < INF && s !in done ==> Entry(dist[s], s) in pq)
  }

  /** Dijkstra's argument: along a walk that costs less than INT_MAX, either the
      queue holds an entry no dearer than the walk, or the walk ends in an expanded
      state whose best cost is no dearer than the walk. */
  lemma {:induction false} WalkBound(G: Graph, source: int, target: int, dist: seq<int>, pq: multiset<Entry>,
                                     done: set<int>, w: seq<Move>, t: int, c: int)
    requires NonNegativeCosts(G.adj) && Settled(G, source, target, dist, pq, done)
    requires WalkTo(G, source, w, t, c) && c < INF
    ensures (exists y :: y in pq && y.cost <= c) || (t in done && dist[t] <= c)
    decreases |w|
  {
    if w == [] {
      if t !in done {
        assert Entry(0, t) in pq;
      }
    } else {
      var p, m := w[..|w| - 1], w[|w| - 1];
      var r := Run(G, StartState(source), p);
      assert r.Some? && MoveOK(G, r.value.state, m);
      var s, cp := r.value.state, r.value.cost;
      MoveTargetRange(G, s, m);
      WalkBound(G, source, target, dist, pq, done, p, s, cp);
      if s in done && dist[s] <= cp {
        assert RelaxedMove(G, dist, s, dist[s], m);
        if t !in done {
          assert Entry(dist[t], t) in pq;
        }
      }
    }
  }

  /** An entry of least cost in the queue costs no more than any walk to a started
      state of the target. */
  lemma PopOptimal(G: Graph, source: int, target: int, dist: seq<int>, pq: multiset<Entry>, done: set<int>, x: Entry)
    requires NonNegativeCosts(G.adj) && Settled(G, source, target, dist, pq, done)
    requires x in pq && x.cost < INF && forall y :: y in pq ==> x.cost <= y.cost
    ensures forall c :: ReachesAt(G, source, target, c) ==> x.cost <= c
  {
    forall c | ReachesAt(G, source, target, c)
      ensures x.cost <= c
    {
      var moves, slot :| 0 <= slot < CHANNELS && WalkTo(G, source, moves, StateId(target, slot), c);
      if c < x.cost {
        StateIdRoundTrip(target, slot);
        WalkBound(G, source, target, dist, pq, done, moves, StateId(target, slot), c);
      }
    }
  }

  /** Once the queue is empty, no walk reaches a started state of the target for
      less than INT_MAX. */
  lemma EmptyQueueUnreachable(G: Graph, source: int, target: int, dist: seq<int>, done: set<int>)
    requires NonNegativeCosts(G.adj) && Settled(G, source, target, dist, multiset{}, done)
    ensures NoneBelowInf(G, source, target)
  {
    forall c | ReachesAt(G, source, target, c)
      ensures INF <= c
    {
      var moves, slot :| 0 <= slot < CHANNELS && WalkTo(G, source, moves, StateId(target, slot), c);
      if c < INF {
        StateIdRoundTrip(target, slot);
        WalkBound(G, source, target, dist, multiset{}, done, moves, StateId(target, slot), c);
      }
    }
  }

  /** The start of the search: only the start state has a finite cost, 0, and its
      entry is the whole queue. */
  lemma SettledInit(G: Graph, source: int, target: int, dist: seq<int>)
    requires 0 <= StartState(source) < |dist| && dist[StartState(source)] == 0
    requires forall s :: 0 <= s < |dist| && s != StartState(source) ==> dist[s] == INF
    ensures Settled(G, source, target, dist, multiset{Entry(0, StartState(source))}, {})
  {
  }

  /** Skipping a stale entry (`cost > dist[state_id]`) keeps the invariant. */
  lemma PopStale(G: Graph, source: int, target: int, dist: seq<int>, pq: multiset<Entry>, done: set<int>, x: Entry)
    requires Settled(G, source, target, dist, pq, done) && x in pq
    requires 0 <= x.state < |dist| && dist[x.state] < x.cost
    ensures Settled(G, source, target, dist, pq - multiset{x}, done)
  {
    forall s | 0 <= s < |dist| && dist[s] < INF && s !in done
      ensures Entry(dist[s], s) in pq - multiset{x}
    {
      assert Entry(dist[s], s) != x;
    }
  }

  /** Expanding an entry of least cost that is not stale, and is not a started state
      of the target, adds its state to the expanded ones and keeps the invariant. */
  lemma PopExpand(G: Graph, source: int, target: int, dist0: seq<int>, pq0: multiset<Entry>, done: set<int>,
                  x: Entry, dist: seq<int>, pq: multiset<Entry>)
    requires Settled(G, source, target, dist0, pq0, done)
    requires x in pq0 && 0 <= x.cost && forall y :: y in pq0 ==> x.cost <= y.cost
    requires 0 <= x.state < |dist0| && dist0[x.state] == x.cost
    requires !(NodeOf(x.state) == target && SlotOf(x.state) < CHANNELS)
    requires Lowered(dist0, pq0 - multiset{x}, dist, pq, x.cost)
    requires forall m :: RelaxedMove(G, dist, x.state, x.cost, m)
    ensures Settled(G, source, target, dist, pq, done + {x.state})
  {
    var done' := done + {x.state};
    assert forall s :: s in done' ==> dist[s] == dist0[s];
    forall s, m | s in done'
      ensures RelaxedMove(G, dist, s, dist[s], m)
    {
      if s != x.state {
        assert RelaxedMove(G, dist0, s, dist0[s], m);
        RelaxedBelow(G, dist0, dist, s, dist[s], m);
      }
    }
    forall s | 0 <= s < |dist| && dist[s] < INF && s !in done'
      ensures Entry(dist[s], s) in pq
    {
      if dist[s] == dist0[s] {
        assert Entry(dist0[s], s) in pq0 && Entry(dist0[s], s) != x;
        assert Entry(dist0[s], s) in pq0 - multiset{x};
      }
    }
  }

  /** A popped entry that is not stale and names a started state of the target
      carries the cost of a walk there. */
  lemma TargetReached(G: Graph, source: int, dist: seq<int>, walks: seq<seq<Move>>, pq: multiset<Entry>,
                      s: int, target: int)
    requires Sound(G, source, dist, walks, pq) && 0 <= s < |dist| && dist[s] < INF
    requires NodeOf(s) == target && SlotOf(s) < CHANNELS
    ensures ReachesAt(G, source, target, dist[s])
  {
    StateIdRange(|G.adj|, s);
    assert WalkTo(G, source, walks[s], StateId(target, SlotOf(s)), dist[s]);
  }

  /** A table of `size` entries, all INT_MAX. */
  method Unreached(size: nat) returns (dist: seq<int>)
    ensures |dist| == size && forall s :: 0 <= s < size ==> dist[s] == INF
  {
    dist := seq(size, _ => INF);
  }

  /** One pass of the loop of findMinCost: an entry of least cost is popped and
      skipped when stale (`cost > dist[state_id]`); when it names a started state of
      the target its cost, the least cost of any walk there, is the result `r`;
      otherwise the state is expanded. `r` is -1 when the loop goes on. */
  method Visit(ghost G: Graph, adj: seq<seq<PrecomputedEdge>>, switch: seq<bool>, source: int, target: int,
               dist0: seq<int>, ghost walks0: seq<seq<Move>>, pq0: multiset<Entry>, ghost done0: set<int>)
    returns (dist: seq<int>, ghost walks: seq<seq<Move>>, pq: multiset<Entry>, ghost done: set<int>, r: int)
    requires ValidGraph(G) && switch == G.switch && NonNegativeCosts(G.adj) && Mirrors(adj, G.adj)
    requires Sound(G, source, dist0, walks0, pq0) && Settled(G, source, target, dist0, pq0, done0) && pq0 != multiset{}
    ensures r != -1 ==> 0 <= r < INF && Cheapest(G, source, target, r)
    ensures r == -1 ==> Sound(G, source, dist, walks, pq) && Settled(G, source, target, dist, pq, done)
    ensures r == -1 ==> Sum(dist) < Sum(dist0) || (dist == dist0 && |pq| < |pq0|)
  {
    var x := PopCheapest(pq0);
    dist, walks, pq, done, r := dist0, walks0, pq0 - multiset{x}, done0, -1;
    if x.cost > dist[x.state] {
      PopStale(G, source, target, dist, pq0, done, x);
      return;
    }
    StateIdRange(|G.adj|, x.state);
    if NodeOf(x.state) == target && SlotOf(x.state) != NOT_STARTED {
      TargetReached(G, source, dist, walks, pq, x.state, target);
      PopOptimal(G, source, target, dist, pq0, done, x);
      r := x.cost;
      return;
    }
    dist, walks, pq := ExpandState(G, adj, switch, source, x.state, x.cost, walks[x.state], dist, walks, pq);
    PopExpand(G, source, target, dist0, pq0, done, x, dist, pq);
    done := done + {x.state};
  }

  /** The loop of findMinCost, started from the NOT_STARTED state of the source. The
      result is the cost of a walk from the source to a started state of the target,
      or -1 when the queue runs empty. Only channel costs that are never negative are
      considered: with a negative cost the C++ loop need not end. */
  method MinCost(ghost G: Graph, adj: seq<seq<PrecomputedEdge>>, switch: seq<bool>, source: int, target: int)
    returns (r: int)
    requires ValidGraph(G) && switch == G.switch && NonNegativeCosts(G.adj) && Mirrors(adj, G.adj)
    requires 0 <= source < |G.adj|
    ensures r == -1 ==> NoneBelowInf(G, source, target)
    ensures r != -1 ==> 0 <= r < INF && Cheapest(G, source, target, r)
  {
    var start := StateId(source, NOT_STARTED);
    StateIdRoundTrip(source, NOT_STARTED);
    StateIdRange(|G.adj|, start);
    var dist := Unreached(|adj| * STATE_COUNT);
    dist := dist[start := 0];
    ghost var walks: seq<seq<Move>> := seq(|dist|, _ => []);
    var pq := multiset{Entry(0, start)};
    assert WalkTo(G, source, [], start, 0);
    SettledInit(G, source, target, dist);
    ghost var done: set<int> := {};
    while pq != multiset{}
      invariant Sound(G, source, dist, walks, pq) && Settled(G, source, target, dist, pq, done)
      decreases Sum(dist), |pq|
    {
      SumNonNegative(dist);
      dist, walks, pq, done, r := Visit(G, adj, switch, source, target, dist, walks, pq, done);
      if r != -1 {
        return;
      }
    }
    EmptyQueueUnreachable(G, source, target, dist, done);
    return -1;
  }

  class OptimizedEfficientGraph {
    /** n */
    const n: int
    /** supports_switch */
    var supportsSwitch: seq<bool>
    /** adj */
    var adj: seq<seq<PrecomputedEdge>>
    /** The channel costs each precomputed edge was built from. */
    ghost var raw: seq<seq<Edge>>

    ghost predicate Valid()
      reads this
    {
      0 <= n && |adj| == n && |supportsSwitch| == n && WellFormed(raw) && Mirrors(adj, raw)
    }

    /** n nodes, no edges, no node supports switching. */
    constructor (nodeCount: int)
      requires 0 <= nodeCount
      ensures Valid() && n == nodeCount
      ensures forall u :: 0 <= u < n ==> adj[u] == [] && !supportsSwitch[u]
    {
      n := nodeCount;
      adj := seq(nodeCount, _ => []);
      raw := seq(nodeCount, _ => []);
      supportsSwitch := seq(nodeCount, _ => false);
    }

    /** setChannelSwitchSupport: the node id is not checked, so it must be in range. */
    method SetChannelSwitchSupport(nodeId: int, supports: bool)
      requires Valid() && 0 <= nodeId < n
      modifies this
      ensures Valid() && adj == old(adj) && raw == old(raw)
      ensures supportsSwitch == old(supportsSwitch)[nodeId := supports]
    {
      supportsSwitch := supportsSwitch[nodeId := supports];
    }

    /** addEdge: no validation; the endpoints must be in range and the cost vector
        must fill the 100-entry array it is copied into. Both directions get an edge
        precomputed from the same costs. */
    method AddEdge(u: int, v: int, costs: seq<int>)
      requires Valid() && 0 <= u < n && 0 <= v < n && |costs| == CHANNELS
      modifies this
      ensures Valid() && supportsSwitch == old(supportsSwitch)
      ensures raw == AddUndirected(old(raw), u, v, Edge(v, costs), Edge(u, costs))
      ensures |adj[u]| == |old(adj)[u]| + (if u == v then 2 else 1)
    {
      var toV := PrecomputeEdge(v, costs);
      var toU := PrecomputeEdge(u, costs);
      MirrorsAdd(adj, raw, u, v, toV, toU, costs);
      WellFormedAdd(raw, u, v, costs);
      adj := AddUndirected(adj, u, v, toV, toU);
      raw := AddUndirected(raw, u, v, Edge(v, costs), Edge(u, costs));
    }

    /** findMinCost: the cost of a walk from the source to the target that has used
        at least one edge, or -1. */
    method FindMinCost(source: int, target: int) returns (r: int)
      requires Valid() && 0 <= source < n && NonNegativeCosts(raw)
      ensures r == -1 ==> NoneBelowInf(Graph(raw, supportsSwitch), source, target)
      ensures r != -1 ==> 0 <= r < INF && Cheapest(Graph(raw, supportsSwitch), source, target, r)
    {
      r := MinCost(Graph(raw, supportsSwitch), adj, supportsSwitch, source, target);
    }
  }
}
