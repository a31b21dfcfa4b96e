/** Routes of the fixed-width band search (ChannelGraph.cpp, ChannelGraph2.cpp).
    A search state is a node together with the first channel of the band of
    `width` channels used on the edge that led into it. */
module FixedBandSpec {
  import opened Common

  /** pair<int,int>: a node and a start channel. (-1, -1) marks "no predecessor". */
  datatype Hop = Hop(node: int, ch: int)

  const NoHop: Hop := Hop(-1, -1)

  /** tuple<int,int,int> held in the priority queue: (cost, node, start channel). */
  datatype Entry = Entry(cost: int, node: int, ch: int)

  /** A table with one row per node and one column per channel. */
  predicate IsTable<T>(t: seq<seq<T>>, n: int)
  {
    |t| == n && forall v :: 0 <= v < n ==> |t[v]| == CHANNELS
  }

  predicate InTable(n: int, s: Hop)
  {
    0 <= s.node < n && 0 <= s.ch < CHANNELS
  }

  /** The fixed inputs of one search: adjacency lists, conversion flags, the source
      node and the band width. */
  datatype Problem = Problem(adj: seq<seq<Edge>>, convert: seq<bool>, source: int, width: int)

  /** What the search method has checked or the graph guarantees before the search. */
  predicate ValidProblem(P: Problem)
  {
    WellFormed(P.adj) && |P.convert| == |P.adj| && 0 <= P.source < |P.adj| && 1 <= P.width <= 3
  }

  /** The start channels a band may use on an edge leaving state `from`: any band that
      fits when `from` is the source or a conversion-capable node, otherwise only the
      band `from` arrived on. */
  predicate ChannelRule(P: Problem, from: Hop, ch: int)
    requires 0 <= from.node < |P.convert|
  {
    (P.convert[from.node] || from.node == P.source || ch == from.ch) && 0 <= ch && ch + P.width <= CHANNELS
  }

  /** One move of the search: from state `from` along edge number `e` of its node into
      state `to`. The band may change start channel only when leaving the source or a
      conversion-capable node, it must fit below channel 100, and a band whose cost
      equals the INF sentinel is not usable. */
  predicate IsHop(P: Problem, from: Hop, e: int, to: Hop)
  {
    && 1 <= P.width
    && 0 <= from.node < |P.adj| && |P.convert| == |P.adj|
    && 0 <= e < |P.adj[from.node]|
    && P.adj[from.node][e].to == to.node && 0 <= to.node < |P.adj|
    && |P.adj[from.node][e].costs| == CHANNELS
    && ChannelRule(P, from, to.ch)
    && SegSum(P.adj[from.node][e].costs, to.ch, P.width) != INF
  }

  /** The cost of a move: the band's channel costs on the edge taken. */
  function HopCost(P: Problem, from: Hop, e: int, to: Hop): int
    requires IsHop(P, from, e, to)
  {
    SegSum(P.adj[from.node][e].costs, to.ch, P.width)
  }

  /** A move never costs less than zero when no channel cost does. */
  lemma HopCostNonNegative(P: Problem, from: Hop, e: int, to: Hop)
    requires NonNegativeCosts(P.adj) && IsHop(P, from, e, to)
    ensures HopCost(P, from, e, to) >= 0
  {
    SegSumNonNegative(P.adj[from.node][e].costs, to.ch, P.width);
  }

  /** `p` is a route of total cost `cost`: it starts in a source state (any band that
      fits) and each further element is reached from the previous one by a move. */
  ghost predicate IsRoute(P: Problem, p: seq<Hop>, cost: int)
    decreases |p|
  {
    if |p| == 0 then false
    else if |p| == 1 then
      p[0].node == P.source && 0 <= p[0].ch && p[0].ch + P.width <= CHANNELS && cost == 0
    else
      var from, to := p[|p| - 2], p[|p| - 1];
      exists e :: IsHop(P, from, e, to) && IsRoute(P, p[..|p| - 1], cost - HopCost(P, from, e, to))
  }

  predicate EndsAt(p: seq<Hop>, target: int)
  {
    |p| > 0 && p[|p| - 1].node == target
  }

  /** `path` is a route of cost `cost` below the INF sentinel that ends at `target`. */
  ghost predicate Reaches(P: Problem, target: int, path: seq<Hop>, cost: int)
  {
    IsRoute(P, path, cost) && EndsAt(path, target) && cost < INF
  }

  /** No route that ends at `target` costs less than `cost`. */
  ghost predicate Optimal(P: Problem, target: int, cost: int)
  {
    forall p, c :: IsRoute(P, p, c) && EndsAt(p, target) ==> cost <= c
  }

  /** What a completed search returns: an empty path with cost INF when no route
      reaches the target below INF, otherwise a cheapest route and its cost. */
  ghost predicate Answer(P: Problem, target: int, path: seq<Hop>, cost: int)
  {
    if path == [] then cost == INF && Unreachable(P, target)
    else Reaches(P, target, path, cost) && Optimal(P, target, cost)
  }

  /** No route reaches `target` at a cost below the INF sentinel. */
  ghost predicate Unreachable(P: Problem, target: int)
  {
    forall p, c :: IsRoute(P, p, c) && EndsAt(p, target) ==> c >= INF
  }

  /** No node occurs twice on the route (whatever the channels). */
  predicate SimpleRoute(p: seq<Hop>)
  {
    forall i, j :: 0 <= i < j < |p| ==> p[i].node != p[j].node
  }

  /** Reversing a route keeps it simple and keeps it non-simple. */
  lemma SimpleReversed(p: seq<Hop>)
    ensures SimpleRoute(Reversed(p)) <==> SimpleRoute(p)
  {
    var r := Reversed(p);
    if !SimpleRoute(p) {
      var i, j :| 0 <= i < j < |p| && p[i].node == p[j].node;
      assert r[|p| - 1 - j] == p[j] && r[|p| - 1 - i] == p[i];
    }
    if !SimpleRoute(r) {
      var i, j :| 0 <= i < j < |r| && r[i].node == r[j].node;
      assert r[i] == p[|p| - 1 - i] && r[j] == p[|p| - 1 - j];
    }
  }

  /** What the search with a visited table returns when it completes without error:
      an empty path with cost INF, or a simple route to the target. The empty path
      means no route exists and the route is a cheapest one whenever no channel cost
      is negative. */
  ghost predicate CheckedAnswer(P: Problem, target: int, path: seq<Hop>, cost: int)
  {
    if path == [] then cost == INF && (NonNegativeCosts(P.adj) ==> Unreachable(P, target))
    else Reaches(P, target, path, cost) && SimpleRoute(path) && (NonNegativeCosts(P.adj) ==> Optimal(P, target, cost))
  }

  /** The search found a route to the target (a cheapest one when no channel cost is
      negative) that passes some node twice. */
  ghost predicate DetourFound(P: Problem, target: int)
  {
    exists p, c :: Reaches(P, target, p, c) && !SimpleRoute(p) && (NonNegativeCosts(P.adj) ==> Optimal(P, target, c))
  }

  /** A search answer is unique up to the route: every two answers agree on the cost,
      and on whether the target is reachable at all. */
  lemma AnswerCostUnique(P: Problem, target: int, p1: seq<Hop>, c1: int, p2: seq<Hop>, c2: int)
    requires Answer(P, target, p1, c1) && Answer(P, target, p2, c2)
    ensures c1 == c2 && (p1 == [] <==> p2 == [])
  {
    if p1 != [] && p2 != [] {
      assert IsRoute(P, p1, c1) && EndsAt(p1, target);
      assert IsRoute(P, p2, c2) && EndsAt(p2, target);
    }
  }

  /** Every route starts at the source node, every element is a valid state, and a
      route's cost is never negative when the costs are not. */
  lemma {:induction false} RouteShape(P: Problem, p: seq<Hop>, cost: int)
    requires 0 <= P.source < |P.adj| && 1 <= P.width
    requires IsRoute(P, p, cost)
    ensures |p| > 0 && p[0].node == P.source
    ensures forall k :: 0 <= k < |p| ==> InTable(|P.adj|, p[k])
    ensures NonNegativeCosts(P.adj) ==> cost >= 0
    decreases |p|
  {
    if |p| > 1 {
      var from, to := p[|p| - 2], p[|p| - 1];
      var e :| IsHop(P, from, e, to) && IsRoute(P, p[..|p| - 1], cost - HopCost(P, from, e, to));
      RouteShape(P, p[..|p| - 1], cost - HopCost(P, from, e, to));
      if NonNegativeCosts(P.adj) {
        HopCostNonNegative(P, from, e, to);
      }
      assert forall k :: 0 <= k < |p| - 1 ==> p[k] == p[..|p| - 1][k];
    }
  }

  // ---------------------------------------------------------------------------
  // Predecessor tables, prev[node][start_channel], and the chains they describe.

  /** The predecessor table is well founded under `rank`: every recorded predecessor
      is a state of strictly smaller rank. */
  ghost predicate ChainWF(prev: seq<seq<Hop>>, n: int, rank: Hop -> nat)
  {
    IsTable(prev, n) &&
    forall v, c :: 0 <= v < n && 0 <= c < CHANNELS && prev[v][c] != NoHop ==>
      InTable(n, prev[v][c]) && rank(prev[v][c]) < rank(Hop(v, c))
  }

  /** The states met when following predecessor links back from `s`, `s` first. */
  ghost function BackChain(prev: seq<seq<Hop>>, n: int, rank: Hop -> nat, s: Hop): (r: seq<Hop>)
    requires ChainWF(prev, n, rank) && InTable(n, s)
    ensures |r| > 0 && r[0] == s
    ensures forall k :: 0 <= k < |r| ==> InTable(n, r[k])
    decreases rank(s)
  {
    var p := prev[s.node][s.ch];
    if p == NoHop then [s] else [s] + BackChain(prev, n, rank, p)
  }

  /** A chain ends at a state without predecessor and each element's predecessor is
      the next element. */
  lemma {:induction false} BackChainLinks(prev: seq<seq<Hop>>, n: int, rank: Hop -> nat, s: Hop)
    requires ChainWF(prev, n, rank) && InTable(n, s)
    ensures var r := BackChain(prev, n, rank, s);
      && prev[r[|r| - 1].node][r[|r| - 1].ch] == NoHop
      && forall k :: 0 <= k < |r| - 1 ==> prev[r[k].node][r[k].ch] == r[k + 1]
    decreases rank(s)
  {
    var p := prev[s.node][s.ch];
    if p != NoHop {
      BackChainLinks(prev, n, rank, p);
      var tail := BackChain(prev, n, rank, p);
      assert BackChain(prev, n, rank, s) == [s] + tail;
    }
  }
}
