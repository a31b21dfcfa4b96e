/** The ChannelGraph class of ChannelGraph.cpp and ChannelGraph2.cpp: an undirected
    graph whose edges carry 100 channel costs, with per-node conversion flags, and
    two variants of the search for a cheapest route that carries a band of 1 to 3
    adjacent channels from a source node to a target node.

    FindShortestPath is the search of ChannelGraph.cpp (stale entries are skipped by
    comparing with the best known cost); FindShortestPathVisited is the search of
    ChannelGraph2.cpp (a visited table, and a path check that rejects routes passing
    a node twice). The two files declare the same class; here it is one class with
    both search methods. */
module FixedBand {
  import opened Common
  import opened FixedBandSpec
  import opened FixedBandSearch

  /** Adding an edge keeps every route of the old graph, at the same cost: adding
      edges can only make the search's answer cheaper. */
  lemma {:induction false} AddEdgeKeepsRoutes(P: Problem, u: int, v: int, costs: seq<int>, p: seq<Hop>, cost: int)
    requires 0 <= u < |P.adj| && 0 <= v < |P.adj|
    requires IsRoute(P, p, cost)
    ensures IsRoute(P.(adj := AddUndirected(P.adj, u, v, Edge(v, costs), Edge(u, costs))), p, cost)
    decreases |p|
  {
    var P' := P.(adj := AddUndirected(P.adj, u, v, Edge(v, costs), Edge(u, costs)));
    if |p| > 1 {
      var from, to := p[|p| - 2], p[|p| - 1];
      var e :| IsHop(P, from, e, to) && IsRoute(P, p[..|p| - 1], cost - HopCost(P, from, e, to));
      AddEdgeKeepsRoutes(P, u, v, costs, p[..|p| - 1], cost - HopCost(P, from, e, to));
      assert P'.adj[from.node][e] == P'.adj[from.node][..|P.adj[from.node]|][e];
      assert IsHop(P', from, e, to);
      assert HopCost(P', from, e, to) == HopCost(P, from, e, to);
    }
  }

  /** The possible_start_channels vector: every band that fits when the band may
      change channel (`free`), otherwise the current start channel, which the visited
      variant (`fitCheck`) keeps only when its band fits. */
  method StartChannels(free: bool, current: int, width: int, fitCheck: bool) returns (chans: seq<int>)
    requires 0 <= current && 1 <= width <= 3
    ensures forall ch :: 0 <= ch && ch + width <= CHANNELS && (free || ch == current) ==> ch in chans
    ensures forall k :: 0 <= k < |chans| ==> 0 <= chans[k] && (free || chans[k] == current)
    ensures forall k :: 0 <= k < |chans| && (free || fitCheck) ==> chans[k] + width <= CHANNELS
    ensures !free ==> |chans| <= 1
  {
    chans := [];
    if free {
      var ch := 0;
      while ch <= CHANNELS - width
        invariant 0 <= ch <= CHANNELS - width + 1
        invariant |chans| == ch && forall k :: 0 <= k < ch ==> chans[k] == k
      {
        chans := chans + [ch];
        ch := ch + 1;
      }
      forall c | 0 <= c && c + width <= CHANNELS
        ensures c in chans
      {
        assert chans[c] == c;
      }
    } else if !fitCheck || current <= CHANNELS - width {
      chans := [current];
    }
  }

  /** calculateChannelCost: INF when the band does not fit below channel 100,
      otherwise the sum of the band's channel costs. */
  method CalculateChannelCost(costs: seq<int>, start: int, width: int) returns (total: int)
    requires |costs| == CHANNELS && 0 <= start && 0 <= width
    ensures start + width > CHANNELS ==> total == INF
    ensures start + width <= CHANNELS ==> total == SegSum(costs, start, width)
  {
    if start + width > CHANNELS {
      return INF;
    }
    total := 0;
    var i := 0;
    while i < width
      invariant 0 <= i <= width
      invariant total == SegSum(costs, start, i)
    {
      SegSumExtend(costs, start, i);
      total := total + costs[start + i];
      i := i + 1;
    }
  }

  /** The initial tables: every start band of the source costs 0 and is queued;
      everything else is unreached and has no predecessor. */
  method InitialSearch(P: Problem) returns (dist: seq<seq<int>>, prev: seq<seq<Hop>>, pq: multiset<Entry>)
    requires ValidProblem(P)
    ensures IsTable(dist, |P.adj|) && IsTable(prev, |P.adj|)
    ensures forall v, c :: 0 <= v < |P.adj| && 0 <= c < CHANNELS ==>
      dist[v][c] == (if v == P.source && c + P.width <= CHANNELS then 0 else INF)
    ensures forall v, c :: 0 <= v < |P.adj| && 0 <= c < CHANNELS ==> prev[v][c] == NoHop
    ensures forall e :: e in pq <==> e.cost == 0 && e.node == P.source && 0 <= e.ch && e.ch + P.width <= CHANNELS
  {
    var n := |P.adj|;
    dist := seq(n, _ => seq(CHANNELS, _ => INF));
    prev := seq(n, _ => seq(CHANNELS, _ => NoHop));
    pq := multiset{};
    var c := 0;
    while c <= CHANNELS - P.width
      invariant 0 <= c <= CHANNELS - P.width + 1
      invariant IsTable(dist, n)
      invariant forall v, k :: 0 <= v < n && 0 <= k < CHANNELS ==>
        dist[v][k] == (if v == P.source && k < c then 0 else INF)
      invariant forall e :: e in pq <==> e.cost == 0 && e.node == P.source && 0 <= e.ch < c
    {
      dist := dist[P.source := dist[P.source][c := 0]];
      pq := pq + multiset{Entry(0, P.source, c)};
      c := c + 1;
    }
  }

  /** One relaxation attempt from state u (of best cost `cost`) into state t along
      edge i: the outcome keeps the search invariant and relaxes the move, if it is
      one. `skip` says the target state is already expanded (visited) and must not
      be touched. */
  method RelaxInto(P: Problem, target: int, u: Hop, cost: int, i: int, t: Hop, skip: bool,
                   dist0: seq<seq<int>>, prev0: seq<seq<Hop>>, pq0: multiset<Entry>,
                   ghost via0: seq<seq<int>>, ghost order: map<Hop, nat>, ghost steps: nat, ghost nn: bool)
    returns (dist: seq<seq<int>>, prev: seq<seq<Hop>>, pq: multiset<Entry>, ghost via: seq<seq<int>>)
    requires Inv(P, target, dist0, prev0, via0, pq0, order, steps, cost, nn)
    requires nn ==> DistNonNegative(P, dist0) && cost >= 0
    requires u in order && dist0[u.node][u.ch] == cost
    requires 0 <= i < |P.adj[u.node]| && t.node == P.adj[u.node][i].to && 0 <= t.ch
    requires P.convert[u.node] || u.node == P.source || t.ch == u.ch
    requires skip ==> t in order
    requires !nn && !skip ==> t !in order
    ensures Inv(P, target, dist, prev, via, pq, order, steps, cost, nn)
    ensures nn ==> DistNonNegative(P, dist)
    ensures Tighter(P, dist, dist0, order)
    ensures IsHop(P, u, i, t) && (nn || !skip) ==> dist[t.node][t.ch] <= cost + HopCost(P, u, i, t)
    ensures Total2(dist) <= Total2(dist0) && (Total2(dist) == Total2(dist0) ==> pq == pq0)
  {
    dist, prev, pq, via := dist0, prev0, pq0, via0;
    if skip {
      if IsHop(P, u, i, t) && nn {
        HopCostNonNegative(P, u, i, t);
      }
      return;
    }
    var costs := P.adj[u.node][i].costs;
    var channelCost := CalculateChannelCost(costs, t.ch, P.width);
    if channelCost == INF {
      return;
    }
    var newCost := cost + channelCost;
    if newCost < dist0[t.node][t.ch] {
      assert IsHop(P, u, i, t);
      if nn {
        HopCostNonNegative(P, u, i, t);
      }
      dist := dist0[t.node := dist0[t.node][t.ch := newCost]];
      prev := prev0[t.node := prev0[t.node][t.ch := u]];
      via := via0[t.node := via0[t.node][t.ch := i]];
      pq := pq0 + multiset{Entry(newCost, t.node, t.ch)};
      RelaxStep(P, target, dist0, prev0, via0, pq0, order, steps, cost, nn, u, i, t, newCost, dist, prev, via, pq);
    }
  }

  /** The visited table of ChannelGraph2.cpp marks exactly the expanded states. */
  ghost predicate VisitedIs(P: Problem, visited: seq<seq<bool>>, order: map<Hop, nat>)
  {
    IsTable(visited, |P.adj|) &&
    forall v, c :: 0 <= v < |P.adj| && 0 <= c < CHANNELS ==> (visited[v][c] <==> Hop(v, c) in order)
  }

  /** Relaxing one more channel of edge i extends the relaxed prefix of `chans`. */
  lemma ChannelDone(P: Problem, dist: seq<seq<int>>, dist0: seq<seq<int>>, order: map<Hop, nat>,
                    u: Hop, i: int, chans: seq<int>, j: int)
    requires Tighter(P, dist, dist0, order) && u in order
    requires RelaxedChannels(P, dist0, u, i, chans, j) && j < |chans|
    requires var t := Hop(P.adj[u.node][i].to, chans[j]);
      IsHop(P, u, i, t) ==> dist[t.node][t.ch] <= dist[u.node][u.ch] + HopCost(P, u, i, t)
    ensures RelaxedChannels(P, dist, u, i, chans, j + 1)
  {
    MonoRelaxedChannels(P, dist, dist0, order, u, i, chans, j);
  }

  /** One iteration of the loop over possible_start_channels: channel chans[j] of
      edge i is tried, and the relaxed prefix of `chans` grows by one. */
  method RelaxChannel(P: Problem, target: int, u: Hop, cost: int, i: int, chans: seq<int>, j: int,
                      checked: bool, visited: seq<seq<bool>>, ghost dist0: seq<seq<int>>, ghost pq0: multiset<Entry>,
                      dist1: seq<seq<int>>, prev1: seq<seq<Hop>>, pq1: multiset<Entry>,
                      ghost via1: seq<seq<int>>, ghost order: map<Hop, nat>, ghost steps: nat, ghost nn: bool)
    returns (dist: seq<seq<int>>, prev: seq<seq<Hop>>, pq: multiset<Entry>, ghost via: seq<seq<int>>)
    requires Inv(P, target, dist1, prev1, via1, pq1, order, steps, cost, nn)
    requires nn ==> DistNonNegative(P, dist1) && cost >= 0
    requires u in order && dist1[u.node][u.ch] == cost && Tighter(P, dist1, dist0, order)
    requires 0 <= i < |P.adj[u.node]| && 0 <= j < |chans|
    requires 0 <= chans[j] && (P.convert[u.node] || u.node == P.source || chans[j] == u.ch)
    requires checked ==> chans[j] + P.width <= CHANNELS && VisitedIs(P, visited, order)
    requires !checked ==> nn
    requires nn ==> RelaxedChannels(P, dist1, u, i, chans, j)
    requires Total2(dist1) <= Total2(dist0) && (Total2(dist1) == Total2(dist0) ==> pq1 == pq0)
    ensures Inv(P, target, dist, prev, via, pq, order, steps, cost, nn)
    ensures nn ==> DistNonNegative(P, dist)
    ensures Tighter(P, dist, dist0, order) && dist[u.node][u.ch] == cost
    ensures nn ==> RelaxedChannels(P, dist, u, i, chans, j + 1)
    ensures Total2(dist) <= Total2(dist0) && (Total2(dist) == Total2(dist0) ==> pq == pq0)
  {
    var v := P.adj[u.node][i].to;
    var t := Hop(v, chans[j]);
    var skip := checked && visited[v][chans[j]];
    dist, prev, pq, via := RelaxInto(P, target, u, cost, i, t, skip, dist1, prev1, pq1, via1, order, steps, nn);
    if nn {
      ChannelDone(P, dist, dist1, order, u, i, chans, j);
    }
    TighterTrans(P, dist, dist1, dist0, order);
  }

  /** Marking the popped state visited matches expanding it. */
  lemma VisitMark(P: Problem, visited: seq<seq<bool>>, order: map<Hop, nat>, u: Hop, stamp: nat)
    requires VisitedIs(P, visited, order) && InTable(|P.adj|, u)
    ensures VisitedIs(P, visited[u.node := visited[u.node][u.ch := true]], order[u := stamp])
  {
    var visited' := visited[u.node := visited[u.node][u.ch := true]];
    forall v, c | 0 <= v < |P.adj| && 0 <= c < CHANNELS
      ensures visited'[v][c] <==> Hop(v, c) in order[u := stamp]
    {
      if Hop(v, c) != u {
        assert visited'[v][c] == visited[v][c];
      }
    }
  }

  /** The inner loop over possible_start_channels for edge i of state u. With
      `checked` (ChannelGraph2.cpp) a non-converting node keeps its band only when it
      fits and visited states are skipped. */
  method RelaxEdge(P: Problem, target: int, u: Hop, cost: int, i: int, checked: bool, visited: seq<seq<bool>>,
                   dist0: seq<seq<int>>, prev0: seq<seq<Hop>>, pq0: multiset<Entry>,
                   ghost via0: seq<seq<int>>, ghost order: map<Hop, nat>, ghost steps: nat, ghost nn: bool)
    returns (dist: seq<seq<int>>, prev: seq<seq<Hop>>, pq: multiset<Entry>, ghost via: seq<seq<int>>)
    requires Inv(P, target, dist0, prev0, via0, pq0, order, steps, cost, nn)
    requires nn ==> DistNonNegative(P, dist0) && cost >= 0
    requires u in order && dist0[u.node][u.ch] == cost
    requires 0 <= i < |P.adj[u.node]|
    requires checked ==> VisitedIs(P, visited, order)
    requires !checked ==> nn
    ensures Inv(P, target, dist, prev, via, pq, order, steps, cost, nn)
    ensures nn ==> DistNonNegative(P, dist)
    ensures Tighter(P, dist, dist0, order)
    ensures nn && RelaxedEdges(P, dist0, u, i) ==> RelaxedEdges(P, dist, u, i + 1)
    ensures Total2(dist) <= Total2(dist0) && (Total2(dist) == Total2(dist0) ==> pq == pq0)
  {
    var v := P.adj[u.node][i].to;
    var chans := StartChannels(P.convert[u.node] || u.node == P.source, u.ch, P.width, checked);
    dist, prev, pq, via := dist0, prev0, pq0, via0;
    var j := 0;
    while j < |chans|
      invariant 0 <= j <= |chans|
      invariant Inv(P, target, dist, prev, via, pq, order, steps, cost, nn)
      invariant nn ==> DistNonNegative(P, dist)
      invariant Tighter(P, dist, dist0, order) && dist[u.node][u.ch] == cost
      invariant nn ==> RelaxedChannels(P, dist, u, i, chans, j)
      invariant Total2(dist) <= Total2(dist0) && (Total2(dist) == Total2(dist0) ==> pq == pq0)
    {
      dist, prev, pq, via := RelaxChannel(P, target, u, cost, i, chans, j, checked, visited, dist0, pq0,
                                          dist, prev, pq, via, order, steps, nn);
      j := j + 1;
    }
    if nn && RelaxedEdges(P, dist0, u, i) {
      MonoRelaxedEdges(P, dist, dist0, order, u, i);
      EdgeDone(P, dist, u, i, chans);
    }
  }

  /** The loop over the edges of an expanded state u: afterwards every move from an
      expanded state is relaxed (with non-negative costs). */
  method Expand(P: Problem, target: int, u: Hop, cost: int, checked: bool, visited: seq<seq<bool>>,
                dist0: seq<seq<int>>, prev0: seq<seq<Hop>>, pq0: multiset<Entry>,
                ghost via0: seq<seq<int>>, ghost order: map<Hop, nat>, ghost steps: nat, ghost nn: bool)
    returns (dist: seq<seq<int>>, prev: seq<seq<Hop>>, pq: multiset<Entry>, ghost via: seq<seq<int>>)
    requires Inv(P, target, dist0, prev0, via0, pq0, order, steps, cost, nn)
    requires nn ==> DistNonNegative(P, dist0)
    requires u in order && dist0[u.node][u.ch] == cost
    requires checked ==> VisitedIs(P, visited, order)
    requires !checked ==> nn
    requires RelaxedBut(P, dist0, order, u, nn)
    ensures Inv(P, target, dist, prev, via, pq, order, steps, cost, nn)
    ensures nn ==> DistNonNegative(P, dist)
    ensures Relaxed(P, dist, order, nn)
    ensures Total2(dist) <= Total2(dist0) && (Total2(dist) == Total2(dist0) ==> pq == pq0)
  {
    assert InTable(|P.adj|, u);
    assert nn ==> cost >= 0;
    dist, prev, pq, via := dist0, prev0, pq0, via0;
    var i := 0;
    while i < |P.adj[u.node]|
      invariant 0 <= i <= |P.adj[u.node]|
      invariant Inv(P, target, dist, prev, via, pq, order, steps, cost, nn)
      invariant nn ==> DistNonNegative(P, dist)
      invariant Tighter(P, dist, dist0, order) && dist[u.node][u.ch] == cost
      invariant RelaxedBut(P, dist, order, u, nn) && (nn ==> RelaxedEdges(P, dist, u, i))
      invariant Total2(dist) <= Total2(dist0) && (Total2(dist) == Total2(dist0) ==> pq == pq0)
    {
      ghost var distBefore := dist;
      dist, prev, pq, via := RelaxEdge(P, target, u, cost, i, checked, visited, dist, prev, pq, via, order, steps, nn);
      MonoRelaxedBut(P, dist, distBefore, order, u, nn);
      TighterTrans(P, dist, distBefore, dist0, order);
      i := i + 1;
    }
  }
  /** The rest of a predecessor chain from `cur` on: empty once the walk is past
      the first state. */
  ghost function ChainFrom(prev: seq<seq<Hop>>, rank: Hop -> nat, cur: Hop): seq<Hop>
    requires ChainWF(prev, |prev|, rank) && (cur == NoHop || InTable(|prev|, cur))
  {
    if cur == NoHop then [] else BackChain(prev, |prev|, rank, cur)
  }

  /** One step of the walk moves `cur` from the rest of the chain to its prefix. */
  lemma ChainStep(prev: seq<seq<Hop>>, rank: Hop -> nat, chain: seq<Hop>, cur: Hop)
    requires ChainWF(prev, |prev|, rank) && InTable(|prev|, cur)
    ensures var next := prev[cur.node][cur.ch];
      (next == NoHop || InTable(|prev|, next)) &&
      chain + ChainFrom(prev, rank, cur) == (chain + [cur]) + ChainFrom(prev, rank, next)
  {
    var next := prev[cur.node][cur.ch];
    assert ChainFrom(prev, rank, cur) == [cur] + ChainFrom(prev, rank, next);
  }

  /** The predecessor chain of a popped target state, reversed: reconstructPath of
      ChannelGraph.cpp. */
  method ReconstructPath(prev: seq<seq<Hop>>, target: int, targetCh: int, cost: int, ghost rank: Hop -> nat)
    returns (path: seq<Hop>, pathCost: int)
    requires ChainWF(prev, |prev|, rank) && InTable(|prev|, Hop(target, targetCh))
    ensures path == Reversed(BackChain(prev, |prev|, rank, Hop(target, targetCh))) && pathCost == cost
  {
    ghost var full := BackChain(prev, |prev|, rank, Hop(target, targetCh));
    var chain: seq<Hop> := [];
    var cur := Hop(target, targetCh);
    while cur.node != -1
      invariant cur == NoHop || InTable(|prev|, cur)
      invariant full == chain + ChainFrom(prev, rank, cur)
      decreases if cur == NoHop then 0 else rank(cur) + 1
    {
      ChainStep(prev, rank, chain, cur);
      chain := chain + [cur];
      cur := prev[cur.node][cur.ch];
    }
    assert chain == full;
    path, pathCost := Reversed(chain), cost;
  }

  /** The node ids met on a chain (the unordered_set of reconstructPath). */
  function Nodes(s: seq<Hop>): set<int>
  {
    if s == [] then {} else Nodes(s[..|s| - 1]) + {s[|s| - 1].node}
  }

  lemma {:induction false} NodesMember(s: seq<Hop>, x: int)
    ensures x in Nodes(s) <==> exists k :: 0 <= k < |s| && s[k].node == x
  {
    if s != [] {
      NodesMember(s[..|s| - 1], x);
      if x in Nodes(s[..|s| - 1]) {
        var k :| 0 <= k < |s| - 1 && s[..|s| - 1][k].node == x;
        assert s[k].node == x;
      }
    }
  }

  /** A node met again makes the whole chain non-simple. */
  lemma RepeatedNode(chain: seq<Hop>, cur: Hop, rest: seq<Hop>)
    requires cur.node in Nodes(chain) && |rest| > 0 && rest[0] == cur
    ensures !SimpleRoute(chain + rest)
  {
    NodesMember(chain, cur.node);
    var k :| 0 <= k < |chain| && chain[k].node == cur.node;
    assert (chain + rest)[k] == chain[k] && (chain + rest)[|chain|] == cur;
  }

  /** A node not met yet extends a simple chain to a simple chain. */
  lemma NewNode(chain: seq<Hop>, cur: Hop)
    requires SimpleRoute(chain) && cur.node !in Nodes(chain)
    ensures SimpleRoute(chain + [cur]) && Nodes(chain + [cur]) == Nodes(chain) + {cur.node}
  {
    var c := chain + [cur];
    NodesMember(chain, cur.node);
    assert c[..|chain|] == chain;
    assert forall k :: 0 <= k < |chain| ==> c[k] == chain[k];
  }

  /** reconstructPath of ChannelGraph2.cpp: the same chain, but a runtime_error when a
      node occurs twice on it, and again when the reversed path does not start at the
      source. */
  method ReconstructPathChecked(prev: seq<seq<Hop>>, source: int, target: int, targetCh: int, cost: int,
                                ghost rank: Hop -> nat)
    returns (r: Result<(seq<Hop>, int)>)
    requires ChainWF(prev, |prev|, rank) && InTable(|prev|, Hop(target, targetCh))
    ensures var chain := BackChain(prev, |prev|, rank, Hop(target, targetCh));
      if SimpleRoute(chain) && chain[|chain| - 1].node == source then r == Success((Reversed(chain), cost))
      else r == Failure(RuntimeError)
  {
    ghost var full := BackChain(prev, |prev|, rank, Hop(target, targetCh));
    var chain: seq<Hop> := [];
    var seen: set<int> := {};
    var cur := Hop(target, targetCh);
    while cur.node != -1
      invariant cur == NoHop || InTable(|prev|, cur)
      invariant full == chain + ChainFrom(prev, rank, cur)
      invariant SimpleRoute(chain) && seen == Nodes(chain)
      decreases if cur == NoHop then 0 else rank(cur) + 1
    {
      if cur.node in seen {
        RepeatedNode(chain, cur, ChainFrom(prev, rank, cur));
        assert !SimpleRoute(full);
        return Failure(RuntimeError);
      }
      NewNode(chain, cur);
      seen := seen + {cur.node};
      ChainStep(prev, rank, chain, cur);
      chain := chain + [cur];
      cur := prev[cur.node][cur.ch];
    }
    assert chain == full && SimpleRoute(full);
    var path := Reversed(chain);
    assert path[0] == full[|full| - 1];
    if path[0].node != source {
      return Failure(RuntimeError);
    }
    r := Success((path, cost));
  }

  /** When the entry popped first among the remaining ones is at the target, its
      predecessor chain, reversed, is a route to the target of exactly the popped
      cost, a cheapest one when no channel cost is negative; a target state without
      predecessor is a start state of the source, at cost 0. */
  lemma TargetReached(P: Problem, target: int, dist: seq<seq<int>>, prev: seq<seq<Hop>>, via: seq<seq<int>>,
                      pq: multiset<Entry>, order: map<Hop, nat>, steps: nat, last: int, nn: bool,
                      top: Entry, rank: Hop -> nat)
    requires Inv(P, target, dist, prev, via, pq, order, steps, last, nn) && Relaxed(P, dist, order, nn)
    requires top in pq && forall y :: y in pq ==> top.cost <= y.cost
    requires top.node == target
    requires forall h :: rank(h) == Rank(order, steps, h)
    ensures ChainWF(prev, |prev|, rank) && InTable(|prev|, Hop(target, top.ch))
    ensures top.cost == dist[target][top.ch]
    ensures var path := Reversed(BackChain(prev, |prev|, rank, Hop(target, top.ch)));
      Reaches(P, target, path, top.cost) && (nn ==> Optimal(P, target, top.cost))
    ensures prev[target][top.ch] == NoHop ==> |BackChain(prev, |prev|, rank, Hop(target, top.ch))| == 1 && top.cost == 0
  {
    QueueSoundWeaken(P, dist, pq, last, nn);
    PopAtDist(P, dist, pq, order, top);
    if nn {
      PopOptimal(P, target, dist, pq, order, steps, last, top);
    }
    ChainReady(P, target, dist, prev, via, pq, order, steps, last, nn, rank);
    ChainIsRoute(P, dist, prev, via, rank, Hop(target, top.ch));
  }

  /** The tables and queue before the first pop, with the search invariant and the
      facts the single-node case relies on. */
  method StartSearch(P: Problem, target: int, ghost nn: bool)
    returns (dist: seq<seq<int>>, prev: seq<seq<Hop>>, pq: multiset<Entry>, ghost via: seq<seq<int>>)
    requires ValidProblem(P) && 0 <= target < |P.adj| && (nn ==> NonNegativeCosts(P.adj))
    ensures Inv(P, target, dist, prev, via, pq, map[], 0, 0, nn)
    ensures Relaxed(P, dist, map[], nn) && DistNonNegative(P, dist)
    ensures Entry(0, P.source, 0) in pq && forall e :: e in pq ==> e.node == P.source
    ensures forall v, c :: 0 <= v < |P.adj| && 0 <= c < CHANNELS ==> prev[v][c] == NoHop
  {
    dist, prev, pq := InitialSearch(P);
    via := seq(|P.adj|, _ => seq(CHANNELS, _ => 0));
    InitInv(P, target, dist, prev, via, pq, nn);
  }

  /** One pass of the loop of ChannelGraph.cpp after an entry other than a target
      entry was popped: a stale entry is skipped, otherwise the state is expanded.
      The pair (sum of the best known costs, queue size) decreases. */
  method SearchStep(P: Problem, target: int, top: Entry, dist0: seq<seq<int>>, prev0: seq<seq<Hop>>,
                    pq0: multiset<Entry>, ghost via0: seq<seq<int>>, ghost order0: map<Hop, nat>,
                    ghost steps0: nat, ghost last0: int)
    returns (dist: seq<seq<int>>, prev: seq<seq<Hop>>, pq: multiset<Entry>, ghost via: seq<seq<int>>,
             ghost order: map<Hop, nat>, ghost steps: nat, ghost last: int)
    requires Inv(P, target, dist0, prev0, via0, pq0, order0, steps0, last0, true)
    requires Relaxed(P, dist0, order0, true) && DistNonNegative(P, dist0)
    requires top in pq0 && (forall y :: y in pq0 ==> top.cost <= y.cost) && top.node != target
    ensures Inv(P, target, dist, prev, via, pq, order, steps, last, true)
    ensures Relaxed(P, dist, order, true) && DistNonNegative(P, dist)
    ensures Total2(dist) < Total2(dist0) || (Total2(dist) == Total2(dist0) && |pq| < |pq0|)
  {
    var u := Hop(top.node, top.ch);
    pq := pq0 - multiset{top};
    dist, prev, via, order, steps := dist0, prev0, via0, order0, steps0;
    if top.cost > dist0[top.node][top.ch] {
      PopSkip(P, target, dist0, prev0, via0, pq0, order0, steps0, last0, true, top);
      last := top.cost;
      return;
    }
    if u in order0 {
      PopSkip(P, target, dist0, prev0, via0, pq0, order0, steps0, last0, true, top);
    } else {
      PopExpand(P, target, dist0, prev0, via0, pq0, order0, steps0, last0, true, top);
      order := order0[u := steps0];
      steps := steps0 + 1;
    }
    last := top.cost;
    dist, prev, pq, via := Expand(P, target, u, top.cost, false, [], dist, prev, pq, via, order, steps, true);
  }

  /** The search loop of findShortestPath in ChannelGraph.cpp, after its argument
      checks. */
  method Search(P: Problem, target: int) returns (r: Result<(seq<Hop>, int)>)
    requires ValidProblem(P) && 0 <= target < |P.adj| && NonNegativeCosts(P.adj)
    ensures r.Success? && Answer(P, target, r.value.0, r.value.1)
    ensures P.source == target ==> |r.value.0| == 1 && r.value.1 == 0
  {
    var dist, prev, pq, via := StartSearch(P, target, true);
    ghost var order: map<Hop, nat> := map[];
    ghost var steps: nat := 0;
    ghost var last := 0;
    while pq != multiset{}
      invariant Inv(P, target, dist, prev, via, pq, order, steps, last, true)
      invariant Relaxed(P, dist, order, true) && DistNonNegative(P, dist)
      invariant SingleStart(P, target, pq, prev)
      decreases Total2(dist), |pq|
    {
      SumNonNegativeTable(dist);
      var top := PopCheapest(pq);
      if top.node == target {
        var path, cost := FinishAt(P, target, top, dist, prev, pq, via, order, steps, last);
        return Success((path, cost));
      }
      dist, prev, pq, via, order, steps, last := SearchStep(P, target, top, dist, prev, pq, via, order, steps, last);
    }
    Exhausted(P, target, dist, order, steps, last);
    return Success(([], INF));
  }

  /** What holds at the head of the loop of findShortestPath in ChannelGraph2.cpp:
      the search invariant, relaxation of every visited state, the visited table
      marking exactly the expanded states, and the single-state search when the
      source is the target. */
  ghost predicate VisitLoop(P: Problem, target: int, visited: seq<seq<bool>>, dist: seq<seq<int>>,
                            prev: seq<seq<Hop>>, via: seq<seq<int>>, pq: multiset<Entry>,
                            order: map<Hop, nat>, steps: nat, last: int, nn: bool)
  {
    && Inv(P, target, dist, prev, via, pq, order, steps, last, nn)
    && Relaxed(P, dist, order, nn) && (nn ==> DistNonNegative(P, dist))
    && VisitedIs(P, visited, order)
    && SingleStart(P, target, pq, prev)
  }

  /** The `continue` of ChannelGraph2.cpp for a popped entry whose state is visited:
      the entry is dropped and nothing else changes. */
  method SkipVisited(P: Problem, target: int, top: Entry, visited: seq<seq<bool>>,
                     dist: seq<seq<int>>, prev: seq<seq<Hop>>, pq0: multiset<Entry>,
                     ghost via: seq<seq<int>>, ghost order: map<Hop, nat>, ghost steps: nat,
                     ghost last0: int, ghost nn: bool)
    returns (pq: multiset<Entry>, ghost last: int)
    requires VisitLoop(P, target, visited, dist, prev, via, pq0, order, steps, last0, nn)
    requires top in pq0 && (forall y :: y in pq0 ==> top.cost <= y.cost)
    requires InTable(|P.adj|, Hop(top.node, top.ch)) && visited[top.node][top.ch]
    ensures VisitLoop(P, target, visited, dist, prev, via, pq, order, steps, last, nn)
    ensures pq == pq0 - multiset{top}
  {
    // With the source as target, every queued entry is at the target and the first pop
    // ends the search, so no popped state can already be visited.
    if P.source == target {
      assert false;
    }
    PopSkip(P, target, dist, prev, via, pq0, order, steps, last0, nn, top);
    pq := pq0 - multiset{top};
    last := top.cost;
  }

  /** The visited table as allocated: no state visited. */
  method NoneVisited(P: Problem) returns (visited: seq<seq<bool>>)
    ensures VisitedIs(P, visited, map[])
  {
    visited := seq(|P.adj|, _ => seq(CHANNELS, _ => false));
  }

  /** visited[u][ch] = true for a popped unvisited state: one unvisited state fewer. */
  method MarkVisited(P: Problem, visited0: seq<seq<bool>>, ghost order: map<Hop, nat>, u: Hop, ghost stamp: nat)
    returns (visited: seq<seq<bool>>)
    requires VisitedIs(P, visited0, order) && InTable(|P.adj|, u) && !visited0[u.node][u.ch]
    ensures VisitedIs(P, visited, order[u := stamp])
    ensures CountFalse2(visited) < CountFalse2(visited0)
  {
    CountFalse2Set(visited0, u.node, u.ch);
    VisitMark(P, visited0, order, u, stamp);
    visited := visited0[u.node := visited0[u.node][u.ch := true]];
  }

  /** One pass of the loop of ChannelGraph2.cpp after an unvisited entry other than a
      target entry was popped and marked visited: the state is expanded. */
  method SearchStepVisited(P: Problem, target: int, top: Entry, visited: seq<seq<bool>>,
                           dist0: seq<seq<int>>, prev0: seq<seq<Hop>>, pq0: multiset<Entry>,
                           ghost via0: seq<seq<int>>, ghost order0: map<Hop, nat>, ghost steps0: nat,
                           ghost last0: int, ghost nn: bool)
    returns (dist: seq<seq<int>>, prev: seq<seq<Hop>>, pq: multiset<Entry>, ghost via: seq<seq<int>>,
             ghost order: map<Hop, nat>, ghost steps: nat, ghost last: int)
    requires Inv(P, target, dist0, prev0, via0, pq0, order0, steps0, last0, nn)
    requires Relaxed(P, dist0, order0, nn) && (nn ==> DistNonNegative(P, dist0))
    requires SingleStart(P, target, pq0, prev0)
    requires top in pq0 && (forall y :: y in pq0 ==> top.cost <= y.cost) && top.node != target
    requires Hop(top.node, top.ch) !in order0
    requires VisitedIs(P, visited, order0[Hop(top.node, top.ch) := steps0])
    ensures VisitLoop(P, target, visited, dist, prev, via, pq, order, steps, last, nn)
  {
    var u := Hop(top.node, top.ch);
    PopExpand(P, target, dist0, prev0, via0, pq0, order0, steps0, last0, nn, top);
    order := order0[u := steps0];
    steps := steps0 + 1;
    last := top.cost;
    dist, prev, pq, via := Expand(P, target, u, top.cost, true, visited, dist0, prev0, pq0 - multiset{top}, via0,
                                  order, steps, nn);
  }

  /** The target branch of the loop of ChannelGraph.cpp: the path rebuilt from the
      predecessor table is an answer to the search. */
  method FinishAt(P: Problem, target: int, top: Entry, dist: seq<seq<int>>, prev: seq<seq<Hop>>,
                  pq: multiset<Entry>, ghost via: seq<seq<int>>, ghost order: map<Hop, nat>,
                  ghost steps: nat, ghost last: int)
    returns (path: seq<Hop>, cost: int)
    requires Inv(P, target, dist, prev, via, pq, order, steps, last, true) && Relaxed(P, dist, order, true)
    requires top in pq && (forall y :: y in pq ==> top.cost <= y.cost) && top.node == target
    ensures Answer(P, target, path, cost)
    ensures prev[target][top.ch] == NoHop ==> |path| == 1 && cost == 0
  {
    ghost var rank: Hop -> nat := h => Rank(order, steps, h);
    TargetReached(P, target, dist, prev, via, pq, order, steps, last, true, top, rank);
    path, cost := ReconstructPath(prev, target, top.ch, top.cost, rank);
  }

  /** The target branch of the loop of ChannelGraph2.cpp: the checked reconstruction
      either returns a simple route that answers the search, or fails with
      runtime_error exactly when the route it rebuilt passes some node twice. */
  method FinishAtChecked(P: Problem, target: int, top: Entry, dist: seq<seq<int>>, prev: seq<seq<Hop>>,
                         pq: multiset<Entry>, ghost via: seq<seq<int>>, ghost order: map<Hop, nat>,
                         ghost steps: nat, ghost last: int, ghost nn: bool)
    returns (r: Result<(seq<Hop>, int)>)
    requires Inv(P, target, dist, prev, via, pq, order, steps, last, nn) && Relaxed(P, dist, order, nn)
    requires nn == NonNegativeCosts(P.adj)
    requires top in pq && (forall y :: y in pq ==> top.cost <= y.cost) && top.node == target
    ensures r.Success? ==> CheckedAnswer(P, target, r.value.0, r.value.1)
    ensures r.Failure? ==> r.error == RuntimeError && DetourFound(P, target)
    ensures prev[target][top.ch] == NoHop ==> r.Success? && |r.value.0| == 1 && r.value.1 == 0
  {
    ghost var rank: Hop -> nat := h => Rank(order, steps, h);
    TargetReached(P, target, dist, prev, via, pq, order, steps, last, nn, top, rank);
    r := ReconstructPathChecked(prev, P.source, target, top.ch, top.cost, rank);
    ghost var chain := BackChain(prev, |prev|, rank, Hop(target, top.ch));
    ghost var path := Reversed(chain);
    RouteShape(P, path, top.cost);
    assert chain[|chain| - 1] == path[0];
    SimpleReversed(chain);
    if r.Failure? {
      assert Reaches(P, target, path, top.cost) && !SimpleRoute(path);
    }
  }

  /** Nothing to search when the source is the target: the queue holds target entries
      only and no state has a predecessor. */
  ghost predicate SingleStart(P: Problem, target: int, pq: multiset<Entry>, prev: seq<seq<Hop>>)
  {
    P.source == target ==>
      && pq != multiset{} && (forall e :: e in pq ==> e.node == target)
      && (forall v, c :: 0 <= v < |prev| && 0 <= c < |prev[v]| ==> prev[v][c] == NoHop)
  }

  /** The search loop of findShortestPath in ChannelGraph2.cpp, after its argument
      checks. */
  method SearchVisited(P: Problem, target: int) returns (r: Result<(seq<Hop>, int)>)
    requires ValidProblem(P) && 0 <= target < |P.adj|
    ensures r.Success? ==> CheckedAnswer(P, target, r.value.0, r.value.1)
    ensures r.Failure? ==> r.error == RuntimeError && DetourFound(P, target)
    ensures r.Success? && P.source == target ==> |r.value.0| == 1 && r.value.1 == 0
  {
    ghost var nn := NonNegativeCosts(P.adj);
    var dist, prev, pq, via := StartSearch(P, target, nn);
    var visited := NoneVisited(P);
    ghost var order: map<Hop, nat> := map[];
    ghost var steps: nat := 0;
    ghost var last := 0;
    while pq != multiset{}
      invariant VisitLoop(P, target, visited, dist, prev, via, pq, order, steps, last, nn)
      decreases CountFalse2(visited), |pq|
    {
      var top := PopCheapest(pq);
      if visited[top.node][top.ch] {
        pq, last := SkipVisited(P, target, top, visited, dist, prev, pq, via, order, steps, last, nn);
      } else {
        visited := MarkVisited(P, visited, order, Hop(top.node, top.ch), steps);
        if top.node == target {
          r := FinishAtChecked(P, target, top, dist, prev, pq, via, order, steps, last, nn);
          return;
        }
        dist, prev, pq, via, order, steps, last :=
          SearchStepVisited(P, target, top, visited, dist, prev, pq, via, order, steps, last, nn);
      }
    }
    if nn {
      Exhausted(P, target, dist, order, steps, last);
    }
    return Success(([], INF));
  }

  class ChannelGraph {
    /** node_count */
    const nodeCount: int
    /** adj_list */
    var adj: seq<seq<Edge>>
    /** node_support_convert */
    var convert: seq<bool>

    ghost predicate Valid()
      reads this
    {
      0 <= nodeCount && |adj| == nodeCount && |convert| == nodeCount && WellFormed(adj)
    }

    /** n nodes, no edges, no node converts. */
    constructor (n: int)
      requires 0 <= n
      ensures Valid() && nodeCount == n
      ensures adj == seq(n, _ => []) && convert == seq(n, _ => false)
    {
      nodeCount := n;
      adj := seq(n, _ => []);
      convert := seq(n, _ => false);
    }

    /** addEdge: out_of_range for a node id outside 0 .. n-1, then invalid_argument
        unless there are exactly 100 channel costs; otherwise the undirected edge. */
    method AddEdge(u: int, v: int, costs: seq<int>) returns (outcome: Outcome)
      requires Valid()
      modifies this
      ensures Valid() && convert == old(convert)
      ensures !(0 <= u < nodeCount && 0 <= v < nodeCount) ==> outcome == Fail(OutOfRange) && adj == old(adj)
      ensures 0 <= u < nodeCount && 0 <= v < nodeCount && |costs| != CHANNELS ==>
        outcome == Fail(InvalidArgument) && adj == old(adj)
      ensures 0 <= u < nodeCount && 0 <= v < nodeCount && |costs| == CHANNELS ==>
        outcome == Pass && adj == AddUndirected(old(adj), u, v, Edge(v, costs), Edge(u, costs))
    {
      if u < 0 || u >= nodeCount || v < 0 || v >= nodeCount {
        return Fail(OutOfRange);
      }
      if |costs| != CHANNELS {
        return Fail(InvalidArgument);
      }
      adj := AddUndirected(adj, u, v, Edge(v, costs), Edge(u, costs));
      outcome := Pass;
    }

    /** setNodeConversion: out_of_range for a node id outside 0 .. n-1. */
    method SetNodeConversion(node: int, support: bool) returns (outcome: Outcome)
      requires Valid()
      modifies this
      ensures Valid() && adj == old(adj)
      ensures !(0 <= node < nodeCount) ==> outcome == Fail(OutOfRange) && convert == old(convert)
      ensures 0 <= node < nodeCount ==> outcome == Pass && convert == old(convert)[node := support]
    {
      if node < 0 || node >= nodeCount {
        return Fail(OutOfRange);
      }
      convert := convert[node := support];
      outcome := Pass;
    }
    /** findShortestPath of ChannelGraph.cpp. invalid_argument for a band width
        outside 1 .. 3, then out_of_range for a node id outside 0 .. n-1; otherwise
        a cheapest route from the source to the target with its cost, or an empty
        path with cost INF when there is none. */
    method FindShortestPath(source: int, target: int, width: int) returns (r: Result<(seq<Hop>, int)>)
      requires Valid() && NonNegativeCosts(adj)
      ensures !(1 <= width <= 3) ==> r == Failure(InvalidArgument)
      ensures 1 <= width <= 3 && !(0 <= source < nodeCount && 0 <= target < nodeCount) ==> r == Failure(OutOfRange)
      ensures 1 <= width <= 3 && 0 <= source < nodeCount && 0 <= target < nodeCount ==>
        r.Success? && Answer(Problem(adj, convert, source, width), target, r.value.0, r.value.1)
      ensures r.Success? && source == target ==> |r.value.0| == 1 && r.value.1 == 0
    {
      if width < 1 || width > 3 {
        return Failure(InvalidArgument);
      }
      if source < 0 || source >= nodeCount || target < 0 || target >= nodeCount {
        return Failure(OutOfRange);
      }
      r := Search(Problem(adj, convert, source, width), target);
    }
    /** findShortestPath of ChannelGraph2.cpp: the same checks as FindShortestPath,
        a visited table instead of the stale-entry test, and a reconstruction that
        throws runtime_error when the rebuilt route passes a node twice. Costs may be
        negative here: the loop still terminates, and what is promised of the result
        then is only that it is a route. */
    method FindShortestPathVisited(source: int, target: int, width: int) returns (r: Result<(seq<Hop>, int)>)
      requires Valid()
      ensures !(1 <= width <= 3) ==> r == Failure(InvalidArgument)
      ensures 1 <= width <= 3 && !(0 <= source < nodeCount && 0 <= target < nodeCount) ==> r == Failure(OutOfRange)
      ensures 1 <= width <= 3 && 0 <= source < nodeCount && 0 <= target < nodeCount ==>
        var P := Problem(adj, convert, source, width);
        && (r.Success? ==> CheckedAnswer(P, target, r.value.0, r.value.1))
        && (r.Failure? ==> r.error == RuntimeError && DetourFound(P, target))
      ensures r.Success? && source == target ==> |r.value.0| == 1 && r.value.1 == 0
    {
      if width < 1 || width > 3 {
        return Failure(InvalidArgument);
      }
      if source < 0 || source >= nodeCount || target < 0 || target >= nodeCount {
        return Failure(OutOfRange);
      }
      r := SearchVisited(Problem(adj, convert, source, width), target);
    }
  }
}
