/** The invariants of the fixed-band priority-first search (ChannelGraph.cpp and
    ChannelGraph2.cpp) and the lemmas that turn them into statements about routes.

    The search keeps dist[node][channel], prev[node][channel] and a queue of
    (cost, node, channel) entries. Ghost bookkeeping adds, for every state, the edge
    index its predecessor link was made along (`via`), and the order in which states
    were first expanded (`order`, stamped from the counter `steps`). `last` is the
    cost of the entry popped most recently. Facts that only hold when no channel
    cost is negative are guarded by the flag `nn`. */
module FixedBandSearch {
  import opened Common
  import opened FixedBandSpec

  /** The expansion stamp of a state, or the current counter when it has not been
      expanded yet. Predecessor links always point to states of smaller rank. */
  function Rank(order: map<Hop, nat>, steps: nat, s: Hop): nat
  {
    if s in order then order[s] else steps
  }

  ghost predicate Tables(P: Problem, dist: seq<seq<int>>, prev: seq<seq<Hop>>, via: seq<seq<int>>)
  {
    && IsTable(dist, |P.adj|) && IsTable(prev, |P.adj|) && IsTable(via, |P.adj|)
    && forall v, c :: 0 <= v < |P.adj| && 0 <= c < CHANNELS ==> dist[v][c] <= INF
  }

  /** priority_queue::top under std::greater: an entry of least cost. Among entries
      of equal cost the choice is left open. */
  method PopCheapest(q: multiset<Entry>) returns (x: Entry)
    requires q != multiset{}
    ensures x in q && forall y :: y in q ==> x.cost <= y.cost
  {
    MinExists(q, (e: Entry) => e.cost);
    x :| x in q && forall y :: y in q ==> x.cost <= y.cost;
  }

  /** Every queued entry names a state, costs below INF and no less than the state's
      best known cost, and (with non-negative costs) no less than the last pop. */
  ghost predicate QueueSound(P: Problem, dist: seq<seq<int>>, pq: multiset<Entry>, last: int, nn: bool)
  {
    && IsTable(dist, |P.adj|)
    && forall e :: e in pq ==>
         && InTable(|P.adj|, Hop(e.node, e.ch))
         && dist[e.node][e.ch] <= e.cost < INF
         && (nn ==> last <= e.cost)
  }

  /** Every reached state that has not been expanded waits in the queue at its best
      known cost. */
  ghost predicate Frontier(P: Problem, dist: seq<seq<int>>, order: map<Hop, nat>, pq: multiset<Entry>)
  {
    && IsTable(dist, |P.adj|)
    && forall v, c :: 0 <= v < |P.adj| && 0 <= c < CHANNELS && dist[v][c] < INF && Hop(v, c) !in order ==>
         Entry(dist[v][c], v, c) in pq
  }

  /** Expanded states are reached, are not target states, carry stamps below the
      counter and (with non-negative costs) cost no more than the last pop. */
  ghost predicate Expanded(P: Problem, target: int, dist: seq<seq<int>>, order: map<Hop, nat>,
                           steps: nat, last: int, nn: bool)
  {
    && IsTable(dist, |P.adj|)
    && forall s :: s in order ==>
         && InTable(|P.adj|, s) && s.node != target
         && dist[s.node][s.ch] < INF && order[s] < steps
         && (nn ==> dist[s.node][s.ch] <= last)
  }

  /** Every predecessor link points to an expanded state of smaller rank along a move
      whose cost accounts exactly for the difference of the two best known costs. */
  ghost predicate PrevLinks(P: Problem, dist: seq<seq<int>>, prev: seq<seq<Hop>>, via: seq<seq<int>>,
                            order: map<Hop, nat>, steps: nat)
  {
    && IsTable(dist, |P.adj|) && IsTable(prev, |P.adj|) && IsTable(via, |P.adj|)
    && forall v, c :: 0 <= v < |P.adj| && 0 <= c < CHANNELS ==> LinkOK(P, dist, prev, via, order, steps, v, c)
  }

  /** The predecessor link of state (v, c), if any, is valid. */
  ghost predicate LinkOK(P: Problem, dist: seq<seq<int>>, prev: seq<seq<Hop>>, via: seq<seq<int>>,
                         order: map<Hop, nat>, steps: nat, v: int, c: int)
    requires IsTable(dist, |P.adj|) && IsTable(prev, |P.adj|) && IsTable(via, |P.adj|)
    requires 0 <= v < |P.adj| && 0 <= c < CHANNELS
  {
    prev[v][c] != NoHop ==>
      && prev[v][c] in order
      && order[prev[v][c]] < Rank(order, steps, Hop(v, c))
      && InTable(|P.adj|, prev[v][c])
      && IsHop(P, prev[v][c], via[v][c], Hop(v, c))
      && dist[v][c] == dist[prev[v][c].node][prev[v][c].ch] + HopCost(P, prev[v][c], via[v][c], Hop(v, c))
  }

  /** A reached state without predecessor is a start state of the source. */
  ghost predicate Roots(P: Problem, dist: seq<seq<int>>, prev: seq<seq<Hop>>)
  {
    && IsTable(dist, |P.adj|) && IsTable(prev, |P.adj|)
    && forall v, c :: 0 <= v < |P.adj| && 0 <= c < CHANNELS && prev[v][c] == NoHop && dist[v][c] < INF ==>
         v == P.source && c + P.width <= CHANNELS && dist[v][c] == 0
  }

  /** Start states of the source never cost more than zero. */
  ghost predicate SourceZero(P: Problem, dist: seq<seq<int>>)
  {
    && IsTable(dist, |P.adj|) && 0 <= P.source < |P.adj|
    && forall c :: 0 <= c < CHANNELS && c + P.width <= CHANNELS ==> dist[P.source][c] <= 0
  }

  ghost predicate Inv(P: Problem, target: int, dist: seq<seq<int>>, prev: seq<seq<Hop>>, via: seq<seq<int>>,
                      pq: multiset<Entry>, order: map<Hop, nat>, steps: nat, last: int, nn: bool)
  {
    && ValidProblem(P) && 0 <= target < |P.adj|
    && (nn ==> NonNegativeCosts(P.adj))
    && Tables(P, dist, prev, via)
    && QueueSound(P, dist, pq, last, nn)
    && Frontier(P, dist, order, pq)
    && Expanded(P, target, dist, order, steps, last, nn)
    && PrevLinks(P, dist, prev, via, order, steps)
    && Roots(P, dist, prev)
    && SourceZero(P, dist)
  }

  // ---------------------------------------------------------------------------
  // Relaxation: the best known cost of a state reached by a move from an expanded
  // state is at most that state's cost plus the move's cost.

  /** Moves from `s` along its edges 0 .. i-1 are relaxed. */
  ghost predicate RelaxedEdges(P: Problem, dist: seq<seq<int>>, s: Hop, i: int)
  {
    && IsTable(dist, |P.adj|) && InTable(|P.adj|, s)
    && forall e, t :: 0 <= e < i && IsHop(P, s, e, t) ==>
         dist[t.node][t.ch] <= dist[s.node][s.ch] + HopCost(P, s, e, t)
  }

  /** Moves from `s` along edge `i` into the first `j` channels of `chans` are relaxed. */
  ghost predicate RelaxedChannels(P: Problem, dist: seq<seq<int>>, s: Hop, i: int, chans: seq<int>, j: int)
  {
    && IsTable(dist, |P.adj|) && InTable(|P.adj|, s)
    && 0 <= i < |P.adj[s.node]| && 0 <= j <= |chans|
    && forall k :: 0 <= k < j && IsHop(P, s, i, Hop(P.adj[s.node][i].to, chans[k])) ==>
         dist[P.adj[s.node][i].to][chans[k]] <= dist[s.node][s.ch] + HopCost(P, s, i, Hop(P.adj[s.node][i].to, chans[k]))
  }

  ghost predicate RelaxedFrom(P: Problem, dist: seq<seq<int>>, s: Hop)
  {
    0 <= s.node < |P.adj| && RelaxedEdges(P, dist, s, |P.adj[s.node]|)
  }

  ghost predicate Relaxed(P: Problem, dist: seq<seq<int>>, order: map<Hop, nat>, nn: bool)
  {
    nn ==> forall s :: s in order ==> RelaxedFrom(P, dist, s)
  }

  /** Relaxed, except possibly for the state `u` being expanded. */
  ghost predicate RelaxedBut(P: Problem, dist: seq<seq<int>>, order: map<Hop, nat>, u: Hop, nn: bool)
  {
    nn ==> forall s :: s in order && s != u ==> RelaxedFrom(P, dist, s)
  }

  /** `dist2` is `dist1` with some best known costs lowered, none of an expanded state. */
  ghost predicate Tighter(P: Problem, dist2: seq<seq<int>>, dist1: seq<seq<int>>, order: map<Hop, nat>)
  {
    && IsTable(dist1, |P.adj|) && IsTable(dist2, |P.adj|)
    && (forall v, c :: 0 <= v < |P.adj| && 0 <= c < CHANNELS ==> dist2[v][c] <= dist1[v][c])
    && (forall s :: s in order && InTable(|P.adj|, s) ==> dist2[s.node][s.ch] == dist1[s.node][s.ch])
  }

  /** Every best known cost is non-negative (needed for the termination measure of the
      search without a visited table). */
  ghost predicate DistNonNegative(P: Problem, dist: seq<seq<int>>)
  {
    && IsTable(dist, |P.adj|)
    && forall v, c :: 0 <= v < |dist| && 0 <= c < |dist[v]| ==> dist[v][c] >= 0
  }

  lemma TighterTrans(P: Problem, dist3: seq<seq<int>>, dist2: seq<seq<int>>, dist1: seq<seq<int>>,
                     order: map<Hop, nat>)
    requires Tighter(P, dist3, dist2, order) && Tighter(P, dist2, dist1, order)
    ensures Tighter(P, dist3, dist1, order)
  {
  }

  lemma MonoRelaxedEdges(P: Problem, dist2: seq<seq<int>>, dist1: seq<seq<int>>, order: map<Hop, nat>,
                         s: Hop, i: int)
    requires Tighter(P, dist2, dist1, order) && s in order
    requires RelaxedEdges(P, dist1, s, i)
    ensures RelaxedEdges(P, dist2, s, i)
  {
    forall e, t | 0 <= e < i && IsHop(P, s, e, t)
      ensures dist2[t.node][t.ch] <= dist2[s.node][s.ch] + HopCost(P, s, e, t)
    {
      assert dist2[t.node][t.ch] <= dist1[t.node][t.ch];
    }
  }

  lemma MonoRelaxedChannels(P: Problem, dist2: seq<seq<int>>, dist1: seq<seq<int>>, order: map<Hop, nat>,
                            s: Hop, i: int, chans: seq<int>, j: int)
    requires Tighter(P, dist2, dist1, order) && s in order
    requires RelaxedChannels(P, dist1, s, i, chans, j)
    ensures RelaxedChannels(P, dist2, s, i, chans, j)
  {
    var v := P.adj[s.node][i].to;
    forall k | 0 <= k < j && IsHop(P, s, i, Hop(v, chans[k]))
      ensures dist2[v][chans[k]] <= dist2[s.node][s.ch] + HopCost(P, s, i, Hop(v, chans[k]))
    {
      assert dist2[v][chans[k]] <= dist1[v][chans[k]];
    }
  }

  lemma MonoRelaxedBut(P: Problem, dist2: seq<seq<int>>, dist1: seq<seq<int>>, order: map<Hop, nat>,
                       u: Hop, nn: bool)
    requires Tighter(P, dist2, dist1, order)
    requires RelaxedBut(P, dist1, order, u, nn)
    ensures RelaxedBut(P, dist2, order, u, nn)
  {
    if nn {
      forall s | s in order && s != u
        ensures RelaxedFrom(P, dist2, s)
      {
        MonoRelaxedEdges(P, dist2, dist1, order, s, |P.adj[s.node]|);
      }
    }
  }

  /** Once every channel the rule allows on edge `i` has been tried, edge `i` is relaxed. */
  lemma EdgeDone(P: Problem, dist: seq<seq<int>>, u: Hop, i: int, chans: seq<int>)
    requires ValidProblem(P)
    requires RelaxedEdges(P, dist, u, i) && RelaxedChannels(P, dist, u, i, chans, |chans|)
    requires forall ch :: ChannelRule(P, u, ch) ==> ch in chans
    ensures RelaxedEdges(P, dist, u, i + 1)
  {
    forall e, t | 0 <= e < i + 1 && IsHop(P, u, e, t)
      ensures dist[t.node][t.ch] <= dist[u.node][u.ch] + HopCost(P, u, e, t)
    {
      if e == i {
        assert t.ch in chans;
        var k :| 0 <= k < |chans| && chans[k] == t.ch;
        assert t == Hop(P.adj[u.node][i].to, chans[k]);
      }
    }
  }

  // ---------------------------------------------------------------------------
  // Steps of the search.

  /** The tables and queue right after the source's start states have been queued. */
  lemma InitInv(P: Problem, target: int, dist: seq<seq<int>>, prev: seq<seq<Hop>>, via: seq<seq<int>>,
                pq: multiset<Entry>, nn: bool)
    requires ValidProblem(P) && 0 <= target < |P.adj| && (nn ==> NonNegativeCosts(P.adj))
    requires IsTable(dist, |P.adj|) && IsTable(prev, |P.adj|) && IsTable(via, |P.adj|)
    requires forall v, c :: 0 <= v < |P.adj| && 0 <= c < CHANNELS ==>
      dist[v][c] == (if v == P.source && c + P.width <= CHANNELS then 0 else INF)
    requires forall v, c :: 0 <= v < |P.adj| && 0 <= c < CHANNELS ==> prev[v][c] == NoHop
    requires forall e :: e in pq <==> e.cost == 0 && e.node == P.source && 0 <= e.ch && e.ch + P.width <= CHANNELS
    ensures Inv(P, target, dist, prev, via, pq, map[], 0, 0, nn)
    ensures Relaxed(P, dist, map[], nn)
    ensures DistNonNegative(P, dist)
  {
  }

  /** An entry popped for a state that has not been expanded carries the state's best
      known cost. */
  lemma PopAtDist(P: Problem, dist: seq<seq<int>>, pq: multiset<Entry>, order: map<Hop, nat>, top: Entry)
    requires QueueSound(P, dist, pq, 0, false) && Frontier(P, dist, order, pq)
    requires top in pq && forall y :: y in pq ==> top.cost <= y.cost
    requires Hop(top.node, top.ch) !in order
    ensures top.cost == dist[top.node][top.ch]
  {
    assert Entry(dist[top.node][top.ch], top.node, top.ch) in pq;
  }

  lemma QueueSoundWeaken(P: Problem, dist: seq<seq<int>>, pq: multiset<Entry>, last: int, nn: bool)
    requires QueueSound(P, dist, pq, last, nn)
    ensures QueueSound(P, dist, pq, 0, false)
  {
  }

  /** Popping the least entry keeps the queue sound, with the popped cost as the last. */
  lemma PopQueue(P: Problem, dist: seq<seq<int>>, pq: multiset<Entry>, last: int, nn: bool, top: Entry)
    requires QueueSound(P, dist, pq, last, nn)
    requires top in pq && forall y :: y in pq ==> top.cost <= y.cost
    ensures QueueSound(P, dist, pq - multiset{top}, top.cost, nn)
    ensures nn ==> last <= top.cost
  {
  }

  /** Popping an entry without expanding it: a stale entry, or one of a state already
      expanded. */
  lemma PopSkip(P: Problem, target: int, dist: seq<seq<int>>, prev: seq<seq<Hop>>, via: seq<seq<int>>,
                pq: multiset<Entry>, order: map<Hop, nat>, steps: nat, last: int, nn: bool, top: Entry)
    requires Inv(P, target, dist, prev, via, pq, order, steps, last, nn)
    requires top in pq && forall y :: y in pq ==> top.cost <= y.cost
    requires top.cost > dist[top.node][top.ch] || Hop(top.node, top.ch) in order
    ensures Inv(P, target, dist, prev, via, pq - multiset{top}, order, steps, top.cost, nn)
  {
    PopQueue(P, dist, pq, last, nn, top);
    PopSkipFrontier(P, dist, order, pq, top);
    PopSkipExpanded(P, target, dist, order, steps, last, nn, top.cost);
  }

  lemma PopSkipFrontier(P: Problem, dist: seq<seq<int>>, order: map<Hop, nat>, pq: multiset<Entry>, top: Entry)
    requires Frontier(P, dist, order, pq)
    requires InTable(|P.adj|, Hop(top.node, top.ch))
    requires top.cost > dist[top.node][top.ch] || Hop(top.node, top.ch) in order
    ensures Frontier(P, dist, order, pq - multiset{top})
  {
    var pq' := pq - multiset{top};
    forall v, c | 0 <= v < |P.adj| && 0 <= c < CHANNELS && dist[v][c] < INF && Hop(v, c) !in order
      ensures Entry(dist[v][c], v, c) in pq'
    {
      assert Entry(dist[v][c], v, c) in pq;
      assert Entry(dist[v][c], v, c) != top;
    }
  }

  lemma PopSkipExpanded(P: Problem, target: int, dist: seq<seq<int>>, order: map<Hop, nat>, steps: nat,
                        last: int, nn: bool, last': int)
    requires Expanded(P, target, dist, order, steps, last, nn) && (nn ==> last <= last')
    ensures Expanded(P, target, dist, order, steps, last', nn)
  {
  }

  /** Popping the entry of a state not expanded before and starting its expansion: the
      state receives the next stamp. */
  lemma PopExpand(P: Problem, target: int, dist: seq<seq<int>>, prev: seq<seq<Hop>>, via: seq<seq<int>>,
                  pq: multiset<Entry>, order: map<Hop, nat>, steps: nat, last: int, nn: bool, top: Entry)
    requires Inv(P, target, dist, prev, via, pq, order, steps, last, nn)
    requires Relaxed(P, dist, order, nn)
    requires top in pq && forall y :: y in pq ==> top.cost <= y.cost
    requires Hop(top.node, top.ch) !in order && top.node != target
    ensures top.cost == dist[top.node][top.ch]
    ensures Inv(P, target, dist, prev, via, pq - multiset{top}, order[Hop(top.node, top.ch) := steps],
                steps + 1, top.cost, nn)
    ensures RelaxedBut(P, dist, order[Hop(top.node, top.ch) := steps], Hop(top.node, top.ch), nn)
  {
    QueueSoundWeaken(P, dist, pq, last, nn);
    PopAtDist(P, dist, pq, order, top);
    var u := Hop(top.node, top.ch);
    PopQueue(P, dist, pq, last, nn, top);
    PopExpandFrontier(P, dist, order, pq, top, steps);
    PopExpandLinks(P, dist, prev, via, order, steps, u);
    PopExpandExpanded(P, target, dist, order, steps, last, nn, u, top.cost);
    PopExpandRelaxed(P, dist, order, steps, nn, u);
  }

  lemma PopExpandFrontier(P: Problem, dist: seq<seq<int>>, order: map<Hop, nat>, pq: multiset<Entry>, top: Entry,
                          stamp: nat)
    requires Frontier(P, dist, order, pq)
    ensures Frontier(P, dist, order[Hop(top.node, top.ch) := stamp], pq - multiset{top})
  {
    var u := Hop(top.node, top.ch);
    var pq' := pq - multiset{top};
    forall v, c | 0 <= v < |P.adj| && 0 <= c < CHANNELS && dist[v][c] < INF && Hop(v, c) !in order[u := stamp]
      ensures Entry(dist[v][c], v, c) in pq'
    {
      assert Entry(dist[v][c], v, c) in pq;
      assert Entry(dist[v][c], v, c) != top;
    }
  }

  lemma PopExpandExpanded(P: Problem, target: int, dist: seq<seq<int>>, order: map<Hop, nat>, steps: nat,
                          last: int, nn: bool, u: Hop, cost: int)
    requires Expanded(P, target, dist, order, steps, last, nn)
    requires InTable(|P.adj|, u) && u.node != target && dist[u.node][u.ch] == cost < INF
    requires nn ==> last <= cost
    ensures Expanded(P, target, dist, order[u := steps], steps + 1, cost, nn)
  {
  }

  lemma PopExpandRelaxed(P: Problem, dist: seq<seq<int>>, order: map<Hop, nat>, steps: nat, nn: bool, u: Hop)
    requires Relaxed(P, dist, order, nn)
    ensures RelaxedBut(P, dist, order[u := steps], u, nn)
  {
  }

  lemma PopExpandLinks(P: Problem, dist: seq<seq<int>>, prev: seq<seq<Hop>>, via: seq<seq<int>>,
                       order: map<Hop, nat>, steps: nat, u: Hop)
    requires PrevLinks(P, dist, prev, via, order, steps) && u !in order
    ensures PrevLinks(P, dist, prev, via, order[u := steps], steps + 1)
  {
    var order', steps' := order[u := steps], steps + 1;
    forall v, c | 0 <= v < |P.adj| && 0 <= c < CHANNELS
      ensures LinkOK(P, dist, prev, via, order', steps', v, c)
    {
      assert LinkOK(P, dist, prev, via, order, steps, v, c);
      if prev[v][c] != NoHop {
        assert order'[prev[v][c]] == order[prev[v][c]];
        assert Rank(order, steps, Hop(v, c)) <= Rank(order', steps', Hop(v, c));
      }
    }
  }

  /** One successful relaxation: state `v`, reached from the state `u` being expanded
      along edge `i`, gets the lower cost `nc`, predecessor `u` and a queue entry. */
  lemma RelaxStep(P: Problem, target: int, dist: seq<seq<int>>, prev: seq<seq<Hop>>, via: seq<seq<int>>,
                  pq: multiset<Entry>, order: map<Hop, nat>, steps: nat, last: int, nn: bool,
                  u: Hop, i: int, v: Hop, nc: int,
                  dist': seq<seq<int>>, prev': seq<seq<Hop>>, via': seq<seq<int>>, pq': multiset<Entry>)
    requires Inv(P, target, dist, prev, via, pq, order, steps, last, nn)
    requires u in order && IsHop(P, u, i, v) && v !in order
    requires dist[u.node][u.ch] == last
    requires nc == last + HopCost(P, u, i, v) && nc < dist[v.node][v.ch]
    requires dist' == dist[v.node := dist[v.node][v.ch := nc]]
    requires prev' == prev[v.node := prev[v.node][v.ch := u]]
    requires via' == via[v.node := via[v.node][v.ch := i]]
    requires pq' == pq + multiset{Entry(nc, v.node, v.ch)}
    ensures Inv(P, target, dist', prev', via', pq', order, steps, last, nn)
    ensures Tighter(P, dist', dist, order)
    ensures Total2(dist') < Total2(dist)
    ensures DistNonNegative(P, dist) && last >= 0 && nn ==> DistNonNegative(P, dist')
  {
    if nn {
      HopCostNonNegative(P, u, i, v);
    }
    Total2Update(dist, v.node, v.ch, nc);
    RelaxStepTables(P, target, dist, prev, via, pq, order, steps, last, nn, v, nc, dist', prev', via', pq');
    RelaxStepQueue(P, target, dist, prev, via, pq, order, steps, last, nn, v, nc, dist', prev', via', pq');
    RelaxStepFrontier(P, target, dist, prev, via, pq, order, steps, last, nn, v, nc, dist', prev', via', pq');
    RelaxStepExpanded(P, target, dist, prev, via, pq, order, steps, last, nn, v, nc, dist', prev', via', pq');
    RelaxStepSource(P, target, dist, prev, via, pq, order, steps, last, nn, v, nc, dist', prev', via', pq');
    RelaxStepTighter(P, target, dist, prev, via, pq, order, steps, last, nn, v, nc, dist', prev', via', pq');
    RelaxStepNonNeg(P, target, dist, prev, via, pq, order, steps, last, nn, v, nc, dist', prev', via', pq');
    RelaxStepLinks(P, dist, prev, via, order, steps, u, i, v, nc, dist', prev', via');
    RelaxStepRoots(P, dist, prev, u, v, nc, dist', prev');
  }

  lemma RelaxStepTables(P: Problem, target: int, dist: seq<seq<int>>, prev: seq<seq<Hop>>, via: seq<seq<int>>,
                        pq: multiset<Entry>, order: map<Hop, nat>, steps: nat, last: int, nn: bool,
                        v: Hop, nc: int, dist': seq<seq<int>>, prev': seq<seq<Hop>>, via': seq<seq<int>>,
                        pq': multiset<Entry>)
    requires Tables(P, dist, prev, via) && QueueSound(P, dist, pq, last, nn) && Frontier(P, dist, order, pq)
    requires Expanded(P, target, dist, order, steps, last, nn) && SourceZero(P, dist)
    requires InTable(|P.adj|, v) && v !in order && nc < dist[v.node][v.ch] && (nn ==> last <= nc)
    requires dist' == dist[v.node := dist[v.node][v.ch := nc]]
    requires IsTable(prev', |P.adj|) && IsTable(via', |P.adj|)
    requires pq' == pq + multiset{Entry(nc, v.node, v.ch)}
    ensures Tables(P, dist', prev', via')
  {
  }

  lemma RelaxStepQueue(P: Problem, target: int, dist: seq<seq<int>>, prev: seq<seq<Hop>>, via: seq<seq<int>>,
                        pq: multiset<Entry>, order: map<Hop, nat>, steps: nat, last: int, nn: bool,
                        v: Hop, nc: int, dist': seq<seq<int>>, prev': seq<seq<Hop>>, via': seq<seq<int>>,
                        pq': multiset<Entry>)
    requires Tables(P, dist, prev, via) && QueueSound(P, dist, pq, last, nn) && Frontier(P, dist, order, pq)
    requires Expanded(P, target, dist, order, steps, last, nn) && SourceZero(P, dist)
    requires InTable(|P.adj|, v) && v !in order && nc < dist[v.node][v.ch] && (nn ==> last <= nc)
    requires dist' == dist[v.node := dist[v.node][v.ch := nc]]
    requires IsTable(prev', |P.adj|) && IsTable(via', |P.adj|)
    requires pq' == pq + multiset{Entry(nc, v.node, v.ch)}
    ensures QueueSound(P, dist', pq', last, nn)
  {
  }

  lemma RelaxStepFrontier(P: Problem, target: int, dist: seq<seq<int>>, prev: seq<seq<Hop>>, via: seq<seq<int>>,
                        pq: multiset<Entry>, order: map<Hop, nat>, steps: nat, last: int, nn: bool,
                        v: Hop, nc: int, dist': seq<seq<int>>, prev': seq<seq<Hop>>, via': seq<seq<int>>,
                        pq': multiset<Entry>)
    requires Tables(P, dist, prev, via) && QueueSound(P, dist, pq, last, nn) && Frontier(P, dist, order, pq)
    requires Expanded(P, target, dist, order, steps, last, nn) && SourceZero(P, dist)
    requires InTable(|P.adj|, v) && v !in order && nc < dist[v.node][v.ch] && (nn ==> last <= nc)
    requires dist' == dist[v.node := dist[v.node][v.ch := nc]]
    requires IsTable(prev', |P.adj|) && IsTable(via', |P.adj|)
    requires pq' == pq + multiset{Entry(nc, v.node, v.ch)}
    ensures Frontier(P, dist', order, pq')
  {
  }

  lemma RelaxStepExpanded(P: Problem, target: int, dist: seq<seq<int>>, prev: seq<seq<Hop>>, via: seq<seq<int>>,
                        pq: multiset<Entry>, order: map<Hop, nat>, steps: nat, last: int, nn: bool,
                        v: Hop, nc: int, dist': seq<seq<int>>, prev': seq<seq<Hop>>, via': seq<seq<int>>,
                        pq': multiset<Entry>)
    requires Tables(P, dist, prev, via) && QueueSound(P, dist, pq, last, nn) && Frontier(P, dist, order, pq)
    requires Expanded(P, target, dist, order, steps, last, nn) && SourceZero(P, dist)
    requires InTable(|P.adj|, v) && v !in order && nc < dist[v.node][v.ch] && (nn ==> last <= nc)
    requires dist' == dist[v.node := dist[v.node][v.ch := nc]]
    requires IsTable(prev', |P.adj|) && IsTable(via', |P.adj|)
    requires pq' == pq + multiset{Entry(nc, v.node, v.ch)}
    ensures Expanded(P, target, dist', order, steps, last, nn)
  {
  }

  lemma RelaxStepSource(P: Problem, target: int, dist: seq<seq<int>>, prev: seq<seq<Hop>>, via: seq<seq<int>>,
                        pq: multiset<Entry>, order: map<Hop, nat>, steps: nat, last: int, nn: bool,
                        v: Hop, nc: int, dist': seq<seq<int>>, prev': seq<seq<Hop>>, via': seq<seq<int>>,
                        pq': multiset<Entry>)
    requires Tables(P, dist, prev, via) && QueueSound(P, dist, pq, last, nn) && Frontier(P, dist, order, pq)
    requires Expanded(P, target, dist, order, steps, last, nn) && SourceZero(P, dist)
    requires InTable(|P.adj|, v) && v !in order && nc < dist[v.node][v.ch] && (nn ==> last <= nc)
    requires dist' == dist[v.node := dist[v.node][v.ch := nc]]
    requires IsTable(prev', |P.adj|) && IsTable(via', |P.adj|)
    requires pq' == pq + multiset{Entry(nc, v.node, v.ch)}
    ensures SourceZero(P, dist')
  {
  }

  lemma RelaxStepTighter(P: Problem, target: int, dist: seq<seq<int>>, prev: seq<seq<Hop>>, via: seq<seq<int>>,
                        pq: multiset<Entry>, order: map<Hop, nat>, steps: nat, last: int, nn: bool,
                        v: Hop, nc: int, dist': seq<seq<int>>, prev': seq<seq<Hop>>, via': seq<seq<int>>,
                        pq': multiset<Entry>)
    requires Tables(P, dist, prev, via) && QueueSound(P, dist, pq, last, nn) && Frontier(P, dist, order, pq)
    requires Expanded(P, target, dist, order, steps, last, nn) && SourceZero(P, dist)
    requires InTable(|P.adj|, v) && v !in order && nc < dist[v.node][v.ch] && (nn ==> last <= nc)
    requires dist' == dist[v.node := dist[v.node][v.ch := nc]]
    requires IsTable(prev', |P.adj|) && IsTable(via', |P.adj|)
    requires pq' == pq + multiset{Entry(nc, v.node, v.ch)}
    ensures Tighter(P, dist', dist, order)
  {
  }

  lemma RelaxStepNonNeg(P: Problem, target: int, dist: seq<seq<int>>, prev: seq<seq<Hop>>, via: seq<seq<int>>,
                        pq: multiset<Entry>, order: map<Hop, nat>, steps: nat, last: int, nn: bool,
                        v: Hop, nc: int, dist': seq<seq<int>>, prev': seq<seq<Hop>>, via': seq<seq<int>>,
                        pq': multiset<Entry>)
    requires Tables(P, dist, prev, via) && QueueSound(P, dist, pq, last, nn) && Frontier(P, dist, order, pq)
    requires Expanded(P, target, dist, order, steps, last, nn) && SourceZero(P, dist)
    requires InTable(|P.adj|, v) && v !in order && nc < dist[v.node][v.ch] && (nn ==> last <= nc)
    requires dist' == dist[v.node := dist[v.node][v.ch := nc]]
    requires IsTable(prev', |P.adj|) && IsTable(via', |P.adj|)
    requires pq' == pq + multiset{Entry(nc, v.node, v.ch)}
    ensures DistNonNegative(P, dist) && nc >= 0 ==> DistNonNegative(P, dist')
  {
  }

  lemma RelaxStepLinks(P: Problem, dist: seq<seq<int>>, prev: seq<seq<Hop>>, via: seq<seq<int>>,
                       order: map<Hop, nat>, steps: nat, u: Hop, i: int, v: Hop, nc: int,
                       dist': seq<seq<int>>, prev': seq<seq<Hop>>, via': seq<seq<int>>)
    requires PrevLinks(P, dist, prev, via, order, steps) && Roots(P, dist, prev)
    requires u in order && order[u] < steps && InTable(|P.adj|, u) && IsHop(P, u, i, v) && v !in order
    requires nc == dist[u.node][u.ch] + HopCost(P, u, i, v)
    requires dist' == dist[v.node := dist[v.node][v.ch := nc]]
    requires prev' == prev[v.node := prev[v.node][v.ch := u]]
    requires via' == via[v.node := via[v.node][v.ch := i]]
    ensures PrevLinks(P, dist', prev', via', order, steps)
  {
    forall w, c | 0 <= w < |P.adj| && 0 <= c < CHANNELS
      ensures LinkOK(P, dist', prev', via', order, steps, w, c)
    {
      if Hop(w, c) == v {
        assert prev'[w][c] != NoHop;
        RelaxLinkNew(P, dist, prev, via, order, steps, u, i, v, nc, dist', prev', via');
      } else {
        RelaxLinkOld(P, dist, prev, via, order, steps, u, i, v, nc, dist', prev', via', w, c);
      }
    }
  }

  lemma RelaxStepRoots(P: Problem, dist: seq<seq<int>>, prev: seq<seq<Hop>>, u: Hop, v: Hop, nc: int,
                       dist': seq<seq<int>>, prev': seq<seq<Hop>>)
    requires Roots(P, dist, prev) && InTable(|P.adj|, v) && u != NoHop
    requires dist' == dist[v.node := dist[v.node][v.ch := nc]]
    requires prev' == prev[v.node := prev[v.node][v.ch := u]]
    ensures Roots(P, dist', prev')
  {
  }

  /** The link just made is a valid predecessor link. */
  lemma RelaxLinkNew(P: Problem, dist: seq<seq<int>>, prev: seq<seq<Hop>>, via: seq<seq<int>>,
                       order: map<Hop, nat>, steps: nat, u: Hop, i: int, v: Hop, nc: int,
                       dist': seq<seq<int>>, prev': seq<seq<Hop>>, via': seq<seq<int>>)
    requires PrevLinks(P, dist, prev, via, order, steps) && Roots(P, dist, prev)
    requires u in order && order[u] < steps && InTable(|P.adj|, u) && IsHop(P, u, i, v) && v !in order
    requires nc == dist[u.node][u.ch] + HopCost(P, u, i, v)
    requires dist' == dist[v.node := dist[v.node][v.ch := nc]]
    requires prev' == prev[v.node := prev[v.node][v.ch := u]]
    requires via' == via[v.node := via[v.node][v.ch := i]]
    ensures IsTable(dist', |P.adj|) && IsTable(prev', |P.adj|) && IsTable(via', |P.adj|)
    ensures LinkOK(P, dist', prev', via', order, steps, v.node, v.ch)
  {
    assert prev'[v.node][v.ch] == u && via'[v.node][v.ch] == i;
    assert dist'[u.node][u.ch] == dist[u.node][u.ch];
  }

  /** Links of other states survive the update. */
  lemma RelaxLinkOld(P: Problem, dist: seq<seq<int>>, prev: seq<seq<Hop>>, via: seq<seq<int>>,
                       order: map<Hop, nat>, steps: nat, u: Hop, i: int, v: Hop, nc: int,
                       dist': seq<seq<int>>, prev': seq<seq<Hop>>, via': seq<seq<int>>, w: int, c: int)
    requires PrevLinks(P, dist, prev, via, order, steps) && Roots(P, dist, prev)
    requires u in order && order[u] < steps && InTable(|P.adj|, u) && IsHop(P, u, i, v) && v !in order
    requires nc == dist[u.node][u.ch] + HopCost(P, u, i, v)
    requires dist' == dist[v.node := dist[v.node][v.ch := nc]]
    requires prev' == prev[v.node := prev[v.node][v.ch := u]]
    requires via' == via[v.node := via[v.node][v.ch := i]]
    requires 0 <= w < |P.adj| && 0 <= c < CHANNELS && Hop(w, c) != v
    ensures IsTable(dist', |P.adj|) && IsTable(prev', |P.adj|) && IsTable(via', |P.adj|)
    ensures LinkOK(P, dist', prev', via', order, steps, w, c)
  {
    var p := prev[w][c];
    assert prev'[w][c] == p && via'[w][c] == via[w][c];
    assert LinkOK(P, dist, prev, via, order, steps, w, c);
    if p != NoHop {
    assert p in order;
    assert p != v;
    assert dist'[w][c] == dist[w][c];
    assert dist'[p.node][p.ch] == dist[p.node][p.ch];
    }
  }

  // ---------------------------------------------------------------------------
  // From the invariants to routes.

  /** The predecessor table is well founded under the expansion stamps. */
  lemma PrevChainWF(P: Problem, dist: seq<seq<int>>, prev: seq<seq<Hop>>, via: seq<seq<int>>,
                    order: map<Hop, nat>, steps: nat, rank: Hop -> nat)
    requires PrevLinks(P, dist, prev, via, order, steps)
    requires forall h :: rank(h) == Rank(order, steps, h)
    ensures ChainWF(prev, |P.adj|, rank)
  {
    forall v, c | 0 <= v < |P.adj| && 0 <= c < CHANNELS && prev[v][c] != NoHop
      ensures InTable(|P.adj|, prev[v][c]) && rank(prev[v][c]) < rank(Hop(v, c))
    {
      assert LinkOK(P, dist, prev, via, order, steps, v, c);
    }
  }

  /** Following predecessor links back from any reached state and reversing gives a
      route whose cost is the state's best known cost. */
  /** Each predecessor link is a move from a reached state whose cost accounts exactly
      for the difference of the two best known costs. */
  ghost predicate CostedLinks(P: Problem, dist: seq<seq<int>>, prev: seq<seq<Hop>>, via: seq<seq<int>>)
  {
    && IsTable(dist, |P.adj|) && IsTable(prev, |P.adj|) && IsTable(via, |P.adj|)
    && forall v, c :: 0 <= v < |P.adj| && 0 <= c < CHANNELS && prev[v][c] != NoHop ==>
         CostedLink(P, dist, prev, via, v, c)
  }

  ghost predicate CostedLink(P: Problem, dist: seq<seq<int>>, prev: seq<seq<Hop>>, via: seq<seq<int>>, v: int, c: int)
    requires IsTable(dist, |P.adj|) && IsTable(prev, |P.adj|) && IsTable(via, |P.adj|)
    requires 0 <= v < |P.adj| && 0 <= c < CHANNELS
  {
    var p := prev[v][c];
    && InTable(|P.adj|, p) && dist[p.node][p.ch] < INF
    && IsHop(P, p, via[v][c], Hop(v, c))
    && dist[v][c] == dist[p.node][p.ch] + HopCost(P, p, via[v][c], Hop(v, c))
  }

  /** The search state provides what following predecessor links relies on. */
  lemma ChainReady(P: Problem, target: int, dist: seq<seq<int>>, prev: seq<seq<Hop>>, via: seq<seq<int>>,
                   pq: multiset<Entry>, order: map<Hop, nat>, steps: nat, last: int, nn: bool, rank: Hop -> nat)
    requires Inv(P, target, dist, prev, via, pq, order, steps, last, nn)
    requires forall h :: rank(h) == Rank(order, steps, h)
    ensures ChainWF(prev, |P.adj|, rank) && CostedLinks(P, dist, prev, via) && Roots(P, dist, prev)
  {
    PrevChainWF(P, dist, prev, via, order, steps, rank);
    forall v, c | 0 <= v < |P.adj| && 0 <= c < CHANNELS && prev[v][c] != NoHop
      ensures CostedLink(P, dist, prev, via, v, c)
    {
      assert LinkOK(P, dist, prev, via, order, steps, v, c);
    }
  }

  lemma {:induction false} ChainIsRoute(P: Problem, dist: seq<seq<int>>, prev: seq<seq<Hop>>,
                                        via: seq<seq<int>>, rank: Hop -> nat, s: Hop)
    requires ValidProblem(P) && ChainWF(prev, |P.adj|, rank)
    requires CostedLinks(P, dist, prev, via) && Roots(P, dist, prev)
    requires InTable(|P.adj|, s) && dist[s.node][s.ch] < INF
    ensures IsRoute(P, Reversed(BackChain(prev, |P.adj|, rank, s)), dist[s.node][s.ch])
    decreases rank(s)
  {
    var p := prev[s.node][s.ch];
    if p == NoHop {
      ChainRoot(P, dist, prev, rank, s);
    } else {
      assert CostedLink(P, dist, prev, via, s.node, s.ch);
      ChainIsRoute(P, dist, prev, via, rank, p);
      ReversedChainStep(prev, |P.adj|, rank, s);
      RouteExtend(P, Reversed(BackChain(prev, |P.adj|, rank, p)), dist[p.node][p.ch], p, via[s.node][s.ch], s,
                  Reversed(BackChain(prev, |P.adj|, rank, s)), dist[s.node][s.ch]);
    }
  }

  lemma ChainRoot(P: Problem, dist: seq<seq<int>>, prev: seq<seq<Hop>>, rank: Hop -> nat, s: Hop)
    requires ChainWF(prev, |P.adj|, rank) && Roots(P, dist, prev)
    requires InTable(|P.adj|, s) && dist[s.node][s.ch] < INF && prev[s.node][s.ch] == NoHop
    ensures IsRoute(P, Reversed(BackChain(prev, |P.adj|, rank, s)), dist[s.node][s.ch])
  {
    assert BackChain(prev, |P.adj|, rank, s) == [s];
    assert Reversed([s]) == [s];
  }

  /** Reversing a chain puts its start last, after the reversed rest of the chain. */
  lemma ReversedChainStep(prev: seq<seq<Hop>>, n: int, rank: Hop -> nat, s: Hop)
    requires ChainWF(prev, n, rank) && InTable(n, s) && prev[s.node][s.ch] != NoHop
    ensures var q := Reversed(BackChain(prev, n, rank, prev[s.node][s.ch]));
      && Reversed(BackChain(prev, n, rank, s)) == q + [s]
      && q[|q| - 1] == prev[s.node][s.ch]
  {
    var tail := BackChain(prev, n, rank, prev[s.node][s.ch]);
    assert BackChain(prev, n, rank, s) == [s] + tail;
    assert ([s] + tail)[1..] == tail;
  }

  /** A route to `p` followed by a move from `p` is a route. */
  lemma RouteExtend(P: Problem, q: seq<Hop>, cost: int, p: Hop, e: int, s: Hop, r: seq<Hop>, rcost: int)
    requires IsRoute(P, q, cost) && |q| > 0 && q[|q| - 1] == p && IsHop(P, p, e, s)
    requires r == q + [s] && rcost == cost + HopCost(P, p, e, s)
    ensures IsRoute(P, r, rcost)
  {
    assert r[|r| - 2] == p && r[|r| - 1] == s;
    assert r[..|r| - 1] == q;
  }

  /** Along any route, the first state that has not been expanded (or the last state)
      has a best known cost no higher than the route's cost. */
  lemma {:induction false} RouteBound(P: Problem, target: int, dist: seq<seq<int>>, order: map<Hop, nat>,
                                      steps: nat, last: int, p: seq<Hop>, cp: int)
    requires ValidProblem(P) && NonNegativeCosts(P.adj)
    requires Expanded(P, target, dist, order, steps, last, true)
    requires Relaxed(P, dist, order, true) && SourceZero(P, dist)
    requires IsRoute(P, p, cp)
    ensures exists k :: (0 <= k < |p| && InTable(|P.adj|, p[k]) && (p[k] !in order || k == |p| - 1) &&
                         dist[p[k].node][p[k].ch] <= cp)
    decreases |p|
  {
    RouteShape(P, p, cp);
    if |p| == 1 {
      assert dist[p[0].node][p[0].ch] <= cp;
    } else {
      var from, to := p[|p| - 2], p[|p| - 1];
      var e :| IsHop(P, from, e, to) && IsRoute(P, p[..|p| - 1], cp - HopCost(P, from, e, to));
      var h := HopCost(P, from, e, to);
      HopCostNonNegative(P, from, e, to);
      var p' := p[..|p| - 1];
      RouteBound(P, target, dist, order, steps, last, p', cp - h);
      var k :| 0 <= k < |p'| && InTable(|P.adj|, p'[k]) && (p'[k] !in order || k == |p'| - 1) &&
        dist[p'[k].node][p'[k].ch] <= cp - h;
      assert p'[k] == p[k];
      if p[k] in order {
        assert k == |p| - 2;
        assert RelaxedFrom(P, dist, from);
        assert dist[to.node][to.ch] <= dist[from.node][from.ch] + h;
        assert InTable(|P.adj|, p[|p| - 1]);
      }
    }
  }

  /** Any route to the target costs at least INF or at least the cost of some queued
      entry. */
  lemma RouteAboveQueue(P: Problem, target: int, dist: seq<seq<int>>, pq: multiset<Entry>,
                        order: map<Hop, nat>, steps: nat, last: int, p: seq<Hop>, cp: int)
    requires ValidProblem(P) && NonNegativeCosts(P.adj)
    requires Frontier(P, dist, order, pq) && Expanded(P, target, dist, order, steps, last, true)
    requires Relaxed(P, dist, order, true) && SourceZero(P, dist)
    requires IsRoute(P, p, cp) && EndsAt(p, target)
    ensures cp >= INF || exists y :: y in pq && y.cost <= cp
  {
    RouteBound(P, target, dist, order, steps, last, p, cp);
    var k :| 0 <= k < |p| && InTable(|P.adj|, p[k]) && (p[k] !in order || k == |p| - 1) &&
      dist[p[k].node][p[k].ch] <= cp;
    assert p[k] !in order;
    if dist[p[k].node][p[k].ch] < INF {
      assert Entry(dist[p[k].node][p[k].ch], p[k].node, p[k].ch) in pq;
    }
  }

  /** The first target entry popped costs no more than any route to the target. */
  lemma PopOptimal(P: Problem, target: int, dist: seq<seq<int>>, pq: multiset<Entry>,
                   order: map<Hop, nat>, steps: nat, last: int, top: Entry)
    requires ValidProblem(P) && NonNegativeCosts(P.adj)
    requires QueueSound(P, dist, pq, last, true) && Frontier(P, dist, order, pq)
    requires Expanded(P, target, dist, order, steps, last, true)
    requires Relaxed(P, dist, order, true) && SourceZero(P, dist)
    requires top in pq && forall y :: y in pq ==> top.cost <= y.cost
    ensures Optimal(P, target, top.cost)
  {
    forall p: seq<Hop>, cp: int | IsRoute(P, p, cp) && EndsAt(p, target)
      ensures top.cost <= cp
    {
      RouteAboveQueue(P, target, dist, pq, order, steps, last, p, cp);
    }
  }

  /** When the queue runs empty, no route reaches the target below INF. */
  lemma Exhausted(P: Problem, target: int, dist: seq<seq<int>>, order: map<Hop, nat>, steps: nat, last: int)
    requires ValidProblem(P) && NonNegativeCosts(P.adj)
    requires Frontier(P, dist, order, multiset{}) && Expanded(P, target, dist, order, steps, last, true)
    requires Relaxed(P, dist, order, true) && SourceZero(P, dist)
    ensures Unreachable(P, target)
  {
    forall p: seq<Hop>, cp: int | IsRoute(P, p, cp) && EndsAt(p, target)
      ensures cp >= INF
    {
      RouteAboveQueue(P, target, dist, multiset{}, order, steps, last, p, cp);
    }
  }
}
