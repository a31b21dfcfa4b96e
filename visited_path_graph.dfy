/** The OptimizedEfficientGraph class of OptimizedEfficientGraph3.cpp: a branch-and-bound
    search in which every queue entry carries the set of nodes its branch has visited,
    so that each branch is a simple path, and the number of consecutive channels of its
    band, at most 3. The state an entry was pushed from is recorded under an integer key
    made of node, channel and count, and the path is rebuilt by following those keys. */
module VisitedPathGraph {
  import opened Common
  import opened GrowingBand
  import TracedGraph

  /** MAX_SEGMENTS: the widest band. */
  const MAX_SEGMENTS: int := 3

  /** State: a queue entry. `channel` is the last channel of the band in use (-1 before
      the first edge) and `consecutive` the number of channels in that band. */
  datatype State = State(cost: int, node: int, channel: int, consecutive: int, visited: set<int>)

  /** The entry the search starts from: the source, no band, only the source visited. */
  function Start(source: int): State
  {
    State(0, source, -1, 0, {source})
  }

  /** One step of a branch: along edge number `edge` of the current node, beginning a
      band or continuing the current one. */
  datatype Hop = Hop(edge: int, step: Step)

  /** A hop is taken only to a node the branch has not visited. A band may begin before
      the first edge, at a node that supports switching, once the band has reached
      channel 99, or once it holds 3 channels; it may be continued while it is below
      channel 99 and holds fewer than 3 channels. */
  predicate HopAllowed(G: Graph, s: State, h: Hop)
  {
    && ValidGraph(G) && 0 <= s.node < |G.adj| && 0 <= h.edge < |G.adj[s.node]|
    && G.adj[s.node][h.edge].to !in s.visited
    && StepFits(s.channel, h.step)
    && match h.step
       case Begin(_, _) =>
         s.channel == -1 || G.switch[s.node] || s.channel >= CHANNELS - 1 || s.consecutive == MAX_SEGMENTS
       case Extend => s.consecutive < MAX_SEGMENTS
  }

  /** The entry a hop pushes: the step's cost added, the other end of the edge as node
      and as newly visited, the band's last channel and its number of channels. */
  function HopTo(G: Graph, s: State, h: Hop): State
    requires HopAllowed(G, s, h)
  {
    var e := G.adj[s.node][h.edge];
    State(s.cost + StepCost(e.costs, s.channel, h.step), e.to, StepSlot(s.channel, h.step),
          if h.step.Extend? then s.consecutive + 1 else h.step.size, s.visited + {e.to})
  }

  /** The entry a branch of hops from the source ends in; None when a hop is not allowed. */
  ghost function Walk(G: Graph, source: int, hops: seq<Hop>): Option<State>
    decreases |hops|
  {
    if hops == [] then Some(Start(source))
    else
      var r := Walk(G, source, hops[..|hops| - 1]);
      var h := hops[|hops| - 1];
      if r.Some? && HopAllowed(G, r.value, h) then Some(HopTo(G, r.value, h)) else None
  }

  /** The nodes a branch passes, the source first. */
  ghost function Route(G: Graph, source: int, hops: seq<Hop>): seq<int>
    requires Walk(G, source, hops).Some?
    decreases |hops|
  {
    if hops == [] then [source] else Route(G, source, hops[..|hops| - 1]) + [Walk(G, source, hops).value.node]
  }

  /** An entry before its first edge has no band; afterwards its band holds 1 to 3
      channels that end at `channel`. */
  predicate Shaped(s: State)
  {
    || (s.channel == -1 && s.consecutive == 0)
    || (0 <= s.channel < CHANNELS && 1 <= s.consecutive <= MAX_SEGMENTS && s.consecutive <= s.channel + 1)
  }

  /** Every branch stays in the graph and keeps its entry shaped; it visits one node
      more than it has hops, and only the start entry is at the source. */
  lemma {:induction false} WalkShape(G: Graph, source: int, hops: seq<Hop>, s: State)
    requires ValidGraph(G) && 0 <= source < |G.adj| && Walk(G, source, hops) == Some(s)
    ensures 0 <= s.node < |G.adj| && s.node in s.visited && source in s.visited && Shaped(s)
    ensures forall w :: w in s.visited ==> 0 <= w < |G.adj|
    ensures |s.visited| == |hops| + 1
    ensures if hops == [] then s == Start(source) else s.node != source && s.channel != -1
    decreases |hops|
  {
    if hops != [] {
      var p := Walk(G, source, hops[..|hops| - 1]).value;
      WalkShape(G, source, hops[..|hops| - 1], p);
    }
  }

  /** Each branch of the search is a simple path: it starts at the source, ends at its
      entry's node, joins consecutive nodes by an edge, never repeats a node, and its
      nodes are exactly the entry's visited set. */
  lemma {:induction false} BranchIsSimplePath(G: Graph, source: int, hops: seq<Hop>, s: State)
    requires Walk(G, source, hops) == Some(s)
    ensures var r := Route(G, source, hops);
      && |r| == |hops| + 1 && r[0] == source && r[|hops|] == s.node
      && (forall i, j :: 0 <= i < j < |r| ==> r[i] != r[j])
      && (forall w :: w in s.visited <==> w in r)
      && (forall k :: 1 <= k < |r| ==> Adjacent(G, r[k - 1], r[k]))
    decreases |hops|
  {
    if hops != [] {
      var prefix, h := hops[..|hops| - 1], hops[|hops| - 1];
      var p := Walk(G, source, prefix).value;
      BranchIsSimplePath(G, source, prefix, p);
      assert Adjacent(G, p.node, s.node) by {
        assert G.adj[p.node][h.edge].to == s.node;
      }
      var r := Route(G, source, hops);
      assert r == Route(G, source, prefix) + [s.node];
    }
  }

  /** With non-negative costs a hop never makes a branch cheaper. */
  lemma HopCost(G: Graph, s: State, h: Hop)
    requires NonNegativeCosts(G.adj) && HopAllowed(G, s, h)
    ensures HopTo(G, s, h).cost >= s.cost
  {
    var e := G.adj[s.node][h.edge];
    assert NonNegative(e.costs);
    if h.step.Begin? {
      SegSumNonNegative(e.costs, h.step.first, h.step.size);
    }
  }

  /** Every prefix of a branch is a branch; the hop after it is allowed and leads to
      the next prefix; with non-negative costs it costs no more than the whole branch. */
  lemma {:induction false} WalkPrefix(G: Graph, source: int, hops: seq<Hop>, k: int)
    requires Walk(G, source, hops).Some? && 0 <= k <= |hops|
    ensures Walk(G, source, hops[..k]).Some?
    ensures k < |hops| ==>
      && HopAllowed(G, Walk(G, source, hops[..k]).value, hops[k])
      && Walk(G, source, hops[..k + 1]) == Some(HopTo(G, Walk(G, source, hops[..k]).value, hops[k]))
    ensures NonNegativeCosts(G.adj) ==> Walk(G, source, hops[..k]).value.cost <= Walk(G, source, hops).value.cost
    decreases |hops|
  {
    if k == |hops| {
      assert hops[..k] == hops;
    } else {
      var p := hops[..|hops| - 1];
      var last := Walk(G, source, p).value;
      if k < |hops| - 1 {
        WalkPrefix(G, source, p, k);
        assert p[..k] == hops[..k] && p[k] == hops[k] && p[..k + 1] == hops[..k + 1];
      } else {
        assert hops[..k + 1] == hops && hops[..k] == p;
      }
      if NonNegativeCosts(G.adj) {
        HopCost(G, last, hops[|hops| - 1]);
      }
    }
  }

  /** The key best_predecessor is indexed by. */
  function Key(node: int, channel: int, consecutive: int): int
  {
    node * 1000 + channel * 10 + consecutive
  }

  function KeyOf(s: State): int
  {
    Key(s.node, s.channel, s.consecutive)
  }

  /** A key decodes back to its node, channel and count when the channel is one of the
      100 channels and the count a single digit. */
  lemma KeyDecode(node: int, channel: int, consecutive: int)
    requires 0 <= channel < CHANNELS && 0 <= consecutive < 10
    ensures Key(node, channel, consecutive) / 1000 == node
    ensures Key(node, channel, consecutive) % 1000 / 10 == channel
    ensures Key(node, channel, consecutive) % 10 == consecutive
  {
    var low := channel * 10 + consecutive;
    DivMod1000(node, low);
    DivMod10(channel, consecutive);
    DivMod10(node * 100 + channel, consecutive);
    assert Key(node, channel, consecutive) == (node * 100 + channel) * 10 + consecutive;
  }

  lemma DivMod1000(q: int, r: int)
    requires 0 <= r < 1000
    ensures (q * 1000 + r) / 1000 == q && (q * 1000 + r) % 1000 == r
  {
  }

  lemma DivMod10(q: int, r: int)
    requires 0 <= r < 10
    ensures (q * 10 + r) / 10 == q && (q * 10 + r) % 10 == r
  {
  }

  /** Distinct (node, channel, count) triples get distinct keys. */
  lemma KeyInjective(v: int, c: int, k: int, v': int, c': int, k': int)
    requires 0 <= c < CHANNELS && 0 <= k < 10 && 0 <= c' < CHANNELS && 0 <= k' < 10
    requires Key(v, c, k) == Key(v', c', k')
    ensures v == v' && c == c' && k == k'
  {
    KeyDecode(v, c, k);
    KeyDecode(v', c', k');
  }

  /** p copies of c added up: a product the solver treats as a sum. */
  function Times(p: nat, c: nat): nat
  {
    if p == 0 then 0 else Times(p - 1, c) + c
  }

  /** Fewer copies of a positive amount add up to less. */
  lemma {:induction false} TimesLess(p: nat, q: nat, c: nat)
    requires p < q && c >= 1
    ensures Times(p, c) < Times(q, c)
    decreases q
  {
    if p < q - 1 {
      TimesLess(p, q - 1, c);
    }
  }

  lemma {:induction false} TimesZero(p: nat)
    ensures Times(p, 0) == 0
  {
    if p > 0 {
      TimesZero(p - 1);
    }
  }

  /** b to the power e. */
  function Pow(b: nat, e: nat): nat
  {
    if e == 0 then 1 else Times(b, Pow(b, e - 1))
  }

  lemma {:induction false} PowPositive(b: nat, e: nat)
    requires b >= 1
    ensures Pow(b, e) >= 1
  {
    if e > 0 {
      PowPositive(b, e - 1);
      TimesLess(0, b, Pow(b, e - 1));
    }
  }

  /** Most pushes one edge can cause: two families of bands of 1 to 3 channels (fewer
      than 300 each) and one continued band. */
  const PER_EDGE: int := 601

  /** The largest number of edges at one node. */
  function MaxDegree(adj: seq<seq<Edge>>): (r: nat)
    ensures forall u :: 0 <= u < |adj| ==> |adj[u]| <= r
  {
    if adj == [] then 0
    else
      var m := MaxDegree(adj[..|adj| - 1]);
      if |adj[|adj| - 1]| > m then |adj[|adj| - 1]| else m
  }

  /** More than the number of entries one expansion can push. */
  function Branching(G: Graph): nat
  {
    PER_EDGE * MaxDegree(G.adj) + 1
  }

  /** The termination measure: an entry that has visited d of the n nodes weighs B^(n-d). */
  function StateWeight(n: int, B: nat, s: State): nat
  {
    if |s.visited| <= n then Pow(B, n - |s.visited|) else 0
  }

  function QueueWeight(n: int, B: nat, q: seq<State>): nat
  {
    if q == [] then 0 else QueueWeight(n, B, q[..|q| - 1]) + StateWeight(n, B, q[|q| - 1])
  }

  /** What each entry pushed by expanding `x` weighs. */
  function ChildWeight(n: int, B: nat, x: State): nat
  {
    if |x.visited| < n then Pow(B, n - |x.visited| - 1) else 0
  }

  lemma QueueWeightAppend(n: int, B: nat, q: seq<State>, y: State)
    ensures QueueWeight(n, B, q + [y]) == QueueWeight(n, B, q) + StateWeight(n, B, y)
  {
    assert (q + [y])[..|q|] == q;
  }

  lemma {:induction false} QueueWeightRemove(n: int, B: nat, q: seq<State>, i: int)
    requires 0 <= i < |q|
    ensures QueueWeight(n, B, q[..i] + q[i + 1..]) == QueueWeight(n, B, q) - StateWeight(n, B, q[i])
  {
    var front := q[..|q| - 1];
    if i == |q| - 1 {
      assert q[..i] + q[i + 1..] == front;
    } else {
      assert q[..i] + q[i + 1..] == (front[..i] + front[i + 1..]) + [q[|q| - 1]];
      QueueWeightRemove(n, B, front, i);
      QueueWeightAppend(n, B, front[..i] + front[i + 1..], q[|q| - 1]);
    }
  }

  /** A set of nodes of an n-node graph has at most n members. */
  lemma {:induction false} RangeCard(s: set<int>, n: int)
    requires 0 <= n && forall w :: w in s ==> 0 <= w < n
    ensures |s| <= n
    decreases n
  {
    if n > 0 {
      RangeCard(s - {n - 1}, n - 1);
    } else {
      assert forall w :: w !in s;
      assert s == {};
    }
  }

  /** An expansion that pushes fewer than B entries, each one node deeper, lowers the
      queue weight by more than it adds. */
  lemma ExpansionLighter(n: int, B: nat, x: State, pushes: nat)
    requires B >= 1 && pushes < B && |x.visited| <= n
    ensures Times(pushes, ChildWeight(n, B, x)) < StateWeight(n, B, x)
  {
    if |x.visited| < n {
      PowPositive(B, n - |x.visited| - 1);
      TimesLess(pushes, B, Pow(B, n - |x.visited| - 1));
    } else {
      assert Times(pushes, 0) == 0 by {
        TimesZero(pushes);
      }
      PowPositive(B, 0);
    }
  }

  /** The locals of findMinCostPath: the queue, min_cost, best_state and
      best_predecessor. */
  datatype Search = Search(pq: seq<State>, minCost: int, best: Option<State>, pred: map<int, State>)

  /** What the proof keeps beside the search: the branch of every queued entry and the
      branch of the best entry. */
  datatype Ledger = Ledger(hopsOf: seq<seq<Hop>>, bestHops: seq<Hop>)

  ghost predicate Queued(G: Graph, source: int, pq: seq<State>, hopsOf: seq<seq<Hop>>)
  {
    |hopsOf| == |pq| && forall j :: 0 <= j < |pq| ==> Walk(G, source, hopsOf[j]) == Some(pq[j])
  }

  /** Every queued entry away from the source has its key recorded. */
  ghost predicate Keyed(source: int, pq: seq<State>, pred: map<int, State>)
  {
    forall j :: 0 <= j < |pq| && pq[j].node != source ==> KeyOf(pq[j]) in pred
  }

  /** A recorded predecessor: a shaped entry of the graph, with a band unless it is at
      the source, that has an edge to the node of the key it is recorded under. */
  ghost predicate PredOK(G: Graph, source: int, k: int, p: State)
  {
    && 0 <= p.node < |G.adj| && Shaped(p) && (p.node != source ==> p.channel != -1)
    && Adjacent(G, p.node, k / 1000)
  }

  ghost predicate Preds(G: Graph, source: int, pred: map<int, State>)
  {
    forall k {:trigger pred[k]} :: k in pred ==> PredOK(G, source, k, pred[k])
  }

  /** Every recorded predecessor away from the source has its own key recorded. */
  ghost predicate PredsKeyed(source: int, pred: map<int, State>)
  {
    forall k {:trigger pred[k]} :: k in pred && pred[k].node != source ==> KeyOf(pred[k]) in pred
  }

  /** best_state: none while min_cost is INT_MAX; otherwise an entry at the target that
      costs min_cost, the end of a branch, with its key recorded. */
  ghost predicate BestOK(G: Graph, source: int, target: int, best: Option<State>, minCost: int, bestHops: seq<Hop>,
                         pred: map<int, State>)
  {
    if best.None? then minCost == INF
    else
      && best.value.node == target && best.value.cost == minCost && minCost < INF
      && Walk(G, source, bestHops) == Some(best.value) && KeyOf(best.value) in pred
  }

  ghost predicate Frontier(G: Graph, source: int, target: int, S: Search, L: Ledger)
  {
    && ValidGraph(G) && 0 <= source < |G.adj| && source != target && S.minCost <= INF
    && Queued(G, source, S.pq, L.hopsOf) && Keyed(source, S.pq, S.pred)
    && Preds(G, source, S.pred) && PredsKeyed(source, S.pred)
    && BestOK(G, source, target, S.best, S.minCost, L.bestHops, S.pred)
  }

  /** The entry being expanded: the end of branch `xh`, with its key recorded unless it
      is at the source. */
  ghost predicate Expanding(G: Graph, source: int, pred: map<int, State>, x: State, xh: seq<Hop>)
  {
    Walk(G, source, xh) == Some(x) && (x.node != source ==> KeyOf(x) in pred)
  }

  /** During an expansion: the invariant holds, the expanded entry keeps its facts, and
      min_cost, best_state and the recorded keys are not lost. */
  ghost predicate Kept(G: Graph, source: int, target: int, S0: Search, S: Search, L: Ledger, x: State, xh: seq<Hop>)
  {
    && Frontier(G, source, target, S, L) && Expanding(G, source, S.pred, x, xh)
    && S.minCost == S0.minCost && S.best == S0.best && S0.pred.Keys <= S.pred.Keys
  }

  /** Kept, and `pushes` entries, each with one visited node more than `x`, have been
      added behind the queue as it was in `S0`. */
  ghost predicate Grown(G: Graph, source: int, target: int, S0: Search, S: Search, L: Ledger, x: State, xh: seq<Hop>,
                        pushes: nat)
  {
    && Kept(G, source, target, S0, S, L, x, xh)
    && Appended(S0.pq, S.pq, x, pushes)
  }

  /** `q` is `q0` followed by `pushes` entries that have visited one node more than `x`. */
  ghost predicate Appended(q0: seq<State>, q: seq<State>, x: State, pushes: nat)
  {
    && |q| == |q0| + pushes && q[..|q0|] == q0
    && forall j :: |q0| <= j < |q| ==> |q[j].visited| == |x.visited| + 1
  }

  /** Branch `hops` reaches the target for less than `bound`. */
  ghost predicate Below(G: Graph, source: int, target: int, hops: seq<Hop>, bound: int)
  {
    Walk(G, source, hops).Some? && Walk(G, source, hops).value.node == target && Walk(G, source, hops).value.cost < bound
  }

  /** The entry of some prefix of branch `hops` is in the queue. */
  ghost predicate Pending(G: Graph, source: int, pq: seq<State>, hops: seq<Hop>)
  {
    exists k :: 0 <= k <= |hops| && Walk(G, source, hops[..k]).Some? && Walk(G, source, hops[..k]).value in pq
  }

  /** Nothing is lost: with non-negative costs, every branch that reaches the target
      for less than min_cost can still be found from an entry in the queue. */
  ghost predicate Complete(G: Graph, source: int, target: int, pq: seq<State>, minCost: int)
  {
    NonNegativeCosts(G.adj) ==> forall hops :: Below(G, source, target, hops, minCost) ==> Pending(G, source, pq, hops)
  }

  /** No branch reaches the target for less than `cost`. */
  ghost predicate Least(G: Graph, source: int, target: int, cost: int)
  {
    forall hops :: Walk(G, source, hops).Some? && Walk(G, source, hops).value.node == target ==>
      cost <= Walk(G, source, hops).value.cost
  }

  /** Hop `h` out of `x`, when allowed and cheaper than min_cost, has had its entry
      pushed. */
  ghost predicate Covered(G: Graph, x: State, pq: seq<State>, minCost: int, h: Hop)
  {
    HopAllowed(G, x, h) && HopTo(G, x, h).cost < minCost ==> HopTo(G, x, h) in pq
  }

  /** A pushed entry stays in a queue that only grows at the back. */
  lemma CoveredKept(G: Graph, x: State, q: seq<State>, q': seq<State>, minCost: int)
    requires q <= q'
    ensures forall h :: Covered(G, x, q, minCost, h) ==> Covered(G, x, q', minCost, h)
  {
    forall h | Covered(G, x, q, minCost, h) && HopAllowed(G, x, h) && HopTo(G, x, h).cost < minCost
      ensures HopTo(G, x, h) in q'
    {
      var j :| 0 <= j < |q| && q[j] == HopTo(G, x, h);
      assert q'[j] == q[j];
    }
  }

  /** The search starts complete: every branch has the empty prefix, the start entry. */
  lemma StartComplete(G: Graph, source: int, target: int)
    ensures Complete(G, source, target, [Start(source)], INF)
  {
    forall hops | Below(G, source, target, hops, INF)
      ensures Pending(G, source, [Start(source)], hops)
    {
      assert hops[..0] == [];
    }
  }

  /** A complete search whose queue is empty has min_cost as least cost. */
  lemma ExhaustedLeast(G: Graph, source: int, target: int, minCost: int)
    requires NonNegativeCosts(G.adj) && Complete(G, source, target, [], minCost)
    ensures Least(G, source, target, minCost)
  {
    forall hops | Walk(G, source, hops).Some? && Walk(G, source, hops).value.node == target
      ensures minCost <= Walk(G, source, hops).value.cost
    {
      if Walk(G, source, hops).value.cost < minCost {
        assert Below(G, source, target, hops, minCost);
      }
    }
  }

  /** Every entry but the one at `i` is still in a queue that begins with the popped
      queue. */
  lemma Survivors(pq0: seq<State>, i: int, q: seq<State>)
    requires 0 <= i < |pq0| && pq0[..i] + pq0[i + 1..] <= q
    ensures forall j :: 0 <= j < |pq0| && j != i ==> pq0[j] in q
  {
    forall j | 0 <= j < |pq0| && j != i
      ensures pq0[j] in q
    {
      if j < i {
        assert q[j] == pq0[j];
      } else {
        assert q[j - 1] == pq0[j];
      }
    }
  }

  /** Popping entry `i` keeps the search complete when min_cost does not go up and the
      entry either costs at least the new min_cost (dropped, or a target entry that set
      it) or is away from the target and has had every allowed child cheaper than
      min_cost pushed. */
  lemma PopCompletes(G: Graph, source: int, target: int, pq0: seq<State>, i: int, q: seq<State>,
                     minCost0: int, minCost: int)
    requires Complete(G, source, target, pq0, minCost0) && 0 <= i < |pq0| && minCost <= minCost0
    requires forall j :: 0 <= j < |pq0| && j != i ==> pq0[j] in q
    requires pq0[i].cost >= minCost || (pq0[i].node != target && forall h :: Covered(G, pq0[i], q, minCost, h))
    ensures Complete(G, source, target, q, minCost)
  {
    if NonNegativeCosts(G.adj) {
      forall hops | Below(G, source, target, hops, minCost)
        ensures Pending(G, source, q, hops)
      {
        assert Below(G, source, target, hops, minCost0);
        var k :| 0 <= k <= |hops| && Walk(G, source, hops[..k]).Some? && Walk(G, source, hops[..k]).value in pq0;
        var y := Walk(G, source, hops[..k]).value;
        var j :| 0 <= j < |pq0| && pq0[j] == y;
        WalkPrefix(G, source, hops, k);
        if j == i {
          assert hops[..|hops|] == hops;
          WalkPrefix(G, source, hops, k + 1);
          assert Covered(G, y, q, minCost, hops[k]);
          assert Walk(G, source, hops[..k + 1]).value in q;
        }
      }
    }
  }

  /** Entries appended by expanding `x` add ChildWeight each to the queue weight. */
  lemma {:induction false} QueueWeightChildren(n: int, B: nat, q0: seq<State>, q: seq<State>, x: State, pushes: nat)
    requires Appended(q0, q, x, pushes)
    ensures QueueWeight(n, B, q) == QueueWeight(n, B, q0) + Times(pushes, ChildWeight(n, B, x))
    decreases pushes
  {
    if pushes == 0 {
      assert q == q[..|q0|];
    } else {
      var front := q[..|q| - 1];
      assert front[..|q0|] == q0;
      QueueWeightChildren(n, B, q0, front, x, pushes - 1);
      ChildWeighs(n, B, x, q[|q| - 1]);
    }
  }

  lemma PushKeeps(G: Graph, source: int, target: int, S0: Search, L0: Ledger, x: State, xh: seq<Hop>, h: Hop,
                  S: Search, L: Ledger)
    requires Frontier(G, source, target, S0, L0) && Expanding(G, source, S0.pred, x, xh) && HopAllowed(G, x, h)
    requires S.pq == S0.pq + [HopTo(G, x, h)] && S.pred == S0.pred[KeyOf(HopTo(G, x, h)) := x]
    requires S.minCost == S0.minCost && S.best == S0.best
    requires L.hopsOf == L0.hopsOf + [xh + [h]] && L.bestHops == L0.bestHops
    ensures Frontier(G, source, target, S, L) && Expanding(G, source, S.pred, x, xh)
  {
    var y := HopTo(G, x, h);
    var k := KeyOf(y);
    assert (xh + [h])[..|xh|] == xh;
    assert Walk(G, source, xh + [h]) == Some(y);
    WalkShape(G, source, xh, x);
    WalkShape(G, source, xh + [h], y);
    KeyDecode(y.node, y.channel, y.consecutive);
    assert Adjacent(G, x.node, k / 1000) by {
      assert G.adj[x.node][h.edge].to == k / 1000;
    }
    assert PredOK(G, source, k, x);
    forall j | 0 <= j < |S.pq|
      ensures Walk(G, source, L.hopsOf[j]) == Some(S.pq[j])
    {
      if j < |S0.pq| {
        assert L.hopsOf[j] == L0.hopsOf[j] && S.pq[j] == S0.pq[j];
      }
    }
  }

  /** The entry a band of `size` channels from `first` on edge `i` pushes. */
  lemma BeginChild(G: Graph, x: State, i: int, size: int, first: int)
    requires HopAllowed(G, x, Hop(i, Begin(1, 0))) && 1 <= size <= MAX_SEGMENTS && 0 <= first <= CHANNELS - size
    ensures HopAllowed(G, x, Hop(i, Begin(size, first)))
    ensures var e := G.adj[x.node][i];
      HopTo(G, x, Hop(i, Begin(size, first)))
        == State(x.cost + SegSum(e.costs, first, size), e.to, first + size - 1, size, x.visited + {e.to})
  {
  }

  /** The entry continuing the band on edge `i` pushes. */
  lemma ExtendChild(G: Graph, x: State, i: int)
    requires HopAllowed(G, x, Hop(i, Extend))
    ensures var e := G.adj[x.node][i];
      HopTo(G, x, Hop(i, Extend))
        == State(x.cost + e.costs[x.channel + 1], e.to, x.channel + 1, x.consecutive + 1, x.visited + {e.to})
  {
  }

  /** One push: the entry `child` that hop `h` leads to, cheaper than min_cost, joins the
      queue and `x` is recorded under its key. */
  method Push(ghost G: Graph, source: int, ghost target: int, ghost S0: Search, S1: Search, ghost L1: Ledger,
              x: State, ghost xh: seq<Hop>, ghost h: Hop, child: State, key: int, ghost pushes: nat)
    returns (S: Search, ghost L: Ledger)
    requires Grown(G, source, target, S0, S1, L1, x, xh, pushes) && HopAllowed(G, x, h)
    requires child == HopTo(G, x, h) && key == KeyOf(child) && child.cost < S1.minCost
    ensures S.pq == S1.pq + [child] && S.pred == S1.pred[key := x]
    ensures Grown(G, source, target, S0, S, L, x, xh, pushes + 1)
  {
    S := S1.(pq := S1.pq + [child], pred := S1.pred[key := x]);
    L := L1.(hopsOf := L1.hopsOf + [xh + [h]]);
    PushKeeps(G, source, target, S1, L1, x, xh, h, S, L);
    assert S.pq[..|S0.pq|] == S1.pq[..|S0.pq|];
  }

  /** An entry pushed by expanding `x` has visited one node more, so it weighs
      ChildWeight. */
  lemma ChildWeighs(n: int, B: nat, x: State, y: State)
    requires |y.visited| == |x.visited| + 1
    ensures StateWeight(n, B, y) == ChildWeight(n, B, x)
  {
  }

  /** One band on edge `i`: `size` channels from channel `first`, pushed when it keeps
      the cost below min_cost. `pushes` counts the entries pushed since `S0`. */
  method TryBand(ghost G: Graph, adj: seq<seq<Edge>>, source: int, ghost target: int, ghost S0: Search,
                 S1: Search, ghost L1: Ledger, x: State, ghost xh: seq<Hop>, i: int, size: int, first: int,
                 ghost pushes: nat)
    returns (S: Search, ghost L: Ledger, ghost pushes': nat)
    requires Grown(G, source, target, S0, S1, L1, x, xh, pushes)
    requires adj == G.adj && HopAllowed(G, x, Hop(i, Begin(1, 0)))
    requires 1 <= size <= MAX_SEGMENTS && 0 <= first <= CHANNELS - size
    ensures Grown(G, source, target, S0, S, L, x, xh, pushes') && pushes' <= pushes + 1
    ensures S1.pq <= S.pq && Covered(G, x, S.pq, S.minCost, Hop(i, Begin(size, first)))
  {
    S, L, pushes' := S1, L1, pushes;
    BeginChild(G, x, i, size, first);
    var segmentCost := TracedGraph.GetSegmentCost(adj[x.node][i].costs, first, size);
    var newCost := x.cost + segmentCost;
    if newCost < S.minCost {
      S, L := PushBand(G, adj, source, target, S0, S, L, x, xh, i, size, first, newCost, pushes);
      pushes' := pushes + 1;
    }
  }

  /** The push of the band of `size` channels from `first` on edge `i`, at cost
      `newCost`, below min_cost. */
  method PushBand(ghost G: Graph, adj: seq<seq<Edge>>, source: int, ghost target: int, ghost S0: Search,
                  S1: Search, ghost L1: Ledger, x: State, ghost xh: seq<Hop>, i: int, size: int, first: int,
                  newCost: int, ghost pushes: nat)
    returns (S: Search, ghost L: Ledger)
    requires Grown(G, source, target, S0, S1, L1, x, xh, pushes)
    requires adj == G.adj && HopAllowed(G, x, Hop(i, Begin(1, 0)))
    requires 1 <= size <= MAX_SEGMENTS && 0 <= first <= CHANNELS - size
    requires newCost == x.cost + SegSum(adj[x.node][i].costs, first, size) && newCost < S1.minCost
    requires HopAllowed(G, x, Hop(i, Begin(size, first)))
    ensures Grown(G, source, target, S0, S, L, x, xh, pushes + 1)
    ensures S.pq == S1.pq + [HopTo(G, x, Hop(i, Begin(size, first)))]
  {
    var v := adj[x.node][i].to;
    var child := State(newCost, v, first + size - 1, size, x.visited + {v});
    var key := v * 1000 + (first + size - 1) * 10 + size;
    BeginChild(G, x, i, size, first);
    S, L := Push(G, source, target, S0, S1, L1, x, xh, Hop(i, Begin(size, first)), child, key, pushes);
  }

  /** The two loops over seg_size and start on edge `i`: a band of 1 to 3 channels from
      every channel where it fits. */
  method Bands(ghost G: Graph, adj: seq<seq<Edge>>, source: int, ghost target: int, ghost S0: Search,
               S1: Search, ghost L1: Ledger, x: State, ghost xh: seq<Hop>, i: int, ghost pushes: nat)
    returns (S: Search, ghost L: Ledger, ghost pushes': nat)
    requires Grown(G, source, target, S0, S1, L1, x, xh, pushes)
    requires adj == G.adj && HopAllowed(G, x, Hop(i, Begin(1, 0)))
    ensures Grown(G, source, target, S0, S, L, x, xh, pushes') && pushes' <= pushes + 300
    ensures S1.pq <= S.pq && forall h: Hop :: h.edge == i && h.step.Begin? ==> Covered(G, x, S.pq, S.minCost, h)
  {
    S, L, pushes' := S1, L1, pushes;
    for size := 1 to MAX_SEGMENTS + 1
      invariant Grown(G, source, target, S0, S, L, x, xh, pushes') && pushes' <= pushes + 100 * (size - 1)
      invariant S1.pq <= S.pq && BandsCovered(G, x, S.pq, S.minCost, i, size, 0)
    {
      S, L, pushes' := BandsOfSize(G, adj, source, target, S0, S, L, x, xh, i, size, pushes');
    }
    BandsDone(G, x, S.pq, S.minCost, i);
  }

  /** The loop over start for one seg_size: a band of `size` channels from every
      channel where it fits. */
  method BandsOfSize(ghost G: Graph, adj: seq<seq<Edge>>, source: int, ghost target: int, ghost S0: Search,
                     S1: Search, ghost L1: Ledger, x: State, ghost xh: seq<Hop>, i: int, size: int, ghost pushes: nat)
    returns (S: Search, ghost L: Ledger, ghost pushes': nat)
    requires Grown(G, source, target, S0, S1, L1, x, xh, pushes) && BandsCovered(G, x, S1.pq, S1.minCost, i, size, 0)
    requires adj == G.adj && HopAllowed(G, x, Hop(i, Begin(1, 0))) && 1 <= size <= MAX_SEGMENTS
    ensures Grown(G, source, target, S0, S, L, x, xh, pushes') && pushes' <= pushes + 100
    ensures S1.pq <= S.pq && BandsCovered(G, x, S.pq, S.minCost, i, size + 1, 0)
  {
    S, L, pushes' := S1, L1, pushes;
    for first := 0 to CHANNELS - size + 1
      invariant Grown(G, source, target, S0, S, L, x, xh, pushes') && pushes' <= pushes + first
      invariant S1.pq <= S.pq && BandsCovered(G, x, S.pq, S.minCost, i, size, first)
    {
      ghost var before := S.pq;
      S, L, pushes' := TryBand(G, adj, source, target, S0, S, L, x, xh, i, size, first, pushes');
      BandCovered(G, x, before, S.pq, S.minCost, i, size, first);
    }
    SizeCovered(G, x, S.pq, S.minCost, i, size);
  }

  /** Every band on edge `i` before the band of `size` channels from `first`, in the
      order the loops try them, has been pushed when allowed and cheaper than
      min_cost. */
  ghost predicate BandsCovered(G: Graph, x: State, pq: seq<State>, minCost: int, i: int, size: int, first: int)
  {
    forall h: Hop :: h.edge == i && h.step.Begin? && (h.step.size < size || (h.step.size == size && h.step.first < first))
      ==> Covered(G, x, pq, minCost, h)
  }

  /** Trying one more band, in a queue that only grows, extends BandsCovered by that
      band. */
  lemma BandCovered(G: Graph, x: State, q: seq<State>, q': seq<State>, minCost: int, i: int, size: int, first: int)
    requires q <= q' && BandsCovered(G, x, q, minCost, i, size, first)
    requires Covered(G, x, q', minCost, Hop(i, Begin(size, first)))
    ensures BandsCovered(G, x, q', minCost, i, size, first + 1)
  {
    CoveredKept(G, x, q, q', minCost);
  }

  /** A band of `size` channels cannot start past channel 100 - size. */
  lemma SizeCovered(G: Graph, x: State, q: seq<State>, minCost: int, i: int, size: int)
    requires BandsCovered(G, x, q, minCost, i, size, CHANNELS - size + 1)
    ensures BandsCovered(G, x, q, minCost, i, size + 1, 0)
  {
  }

  /** No band holds more than 3 channels. */
  lemma BandsDone(G: Graph, x: State, q: seq<State>, minCost: int, i: int)
    requires BandsCovered(G, x, q, minCost, i, MAX_SEGMENTS + 1, 0)
    ensures forall h: Hop :: h.edge == i && h.step.Begin? ==> Covered(G, x, q, minCost, h)
  {
  }

  /** Continuing the band on edge `i` by the next channel, pushed when it keeps the
      cost below min_cost. */
  method Continue(ghost G: Graph, adj: seq<seq<Edge>>, source: int, ghost target: int, ghost S0: Search,
                  S1: Search, ghost L1: Ledger, x: State, ghost xh: seq<Hop>, i: int, ghost pushes: nat)
    returns (S: Search, ghost L: Ledger, ghost pushes': nat)
    requires Grown(G, source, target, S0, S1, L1, x, xh, pushes)
    requires adj == G.adj && HopAllowed(G, x, Hop(i, Extend))
    ensures Grown(G, source, target, S0, S, L, x, xh, pushes') && pushes' <= pushes + 1
    ensures S1.pq <= S.pq && Covered(G, x, S.pq, S.minCost, Hop(i, Extend))
  {
    S, L, pushes' := S1, L1, pushes;
    ExtendChild(G, x, i);
    var u := x.node;
    var v := adj[u][i].to;
    var nextChannel := x.channel + 1;
    var newCost := x.cost + adj[u][i].costs[nextChannel];
    if newCost < S.minCost {
      var child := State(newCost, v, nextChannel, x.consecutive + 1, x.visited + {v});
      var key := v * 1000 + nextChannel * 10 + (x.consecutive + 1);
      S, L := Push(G, source, target, S0, S, L, x, xh, Hop(i, Extend), child, key, pushes);
      pushes' := pushes + 1;
    }
  }

  /** The body of the loop over the edges of the expanded node: an edge to a visited
      node is skipped; before the first edge every band is tried; otherwise the band is
      continued when it is below channel 99 with fewer than 3 channels, and new bands
      are tried when the node supports switching, the band has reached channel 99 or
      it holds 3 channels. */
  method ExpandEdge(ghost G: Graph, adj: seq<seq<Edge>>, switch: seq<bool>, source: int, ghost target: int,
                    ghost S0: Search, S1: Search, ghost L1: Ledger, x: State, ghost xh: seq<Hop>, i: int,
                    ghost pushes: nat)
    returns (S: Search, ghost L: Ledger, ghost pushes': nat)
    requires Grown(G, source, target, S0, S1, L1, x, xh, pushes)
    requires adj == G.adj && switch == G.switch && 0 <= x.node < |adj| && 0 <= i < |adj[x.node]|
    ensures Grown(G, source, target, S0, S, L, x, xh, pushes') && pushes' <= pushes + PER_EDGE
    ensures S1.pq <= S.pq && forall h: Hop :: h.edge == i ==> Covered(G, x, S.pq, S.minCost, h)
  {
    S, L, pushes' := S1, L1, pushes;
    var u := x.node;
    var v := adj[u][i].to;
    if v in x.visited {
      return;
    }
    WalkShape(G, source, xh, x);
    if x.channel == -1 {
      S, L, pushes' := Bands(G, adj, source, target, S0, S, L, x, xh, i, pushes');
    } else {
      if x.channel < CHANNELS - 1 && x.consecutive < MAX_SEGMENTS {
        S, L, pushes' := Continue(G, adj, source, target, S0, S, L, x, xh, i, pushes');
      }
      var canRestart := switch[u] || x.channel >= CHANNELS - 1 || x.consecutive == MAX_SEGMENTS;
      if canRestart {
        ghost var before := S.pq;
        S, L, pushes' := Bands(G, adj, source, target, S0, S, L, x, xh, i, pushes');
        CoveredKept(G, x, before, S.pq, S.minCost);
      }
    }
  }

  /** The loop over the edges of the expanded node. */
  method ExpandState(ghost G: Graph, adj: seq<seq<Edge>>, switch: seq<bool>, source: int, ghost target: int,
                     S0: Search, ghost L0: Ledger, x: State, ghost xh: seq<Hop>)
    returns (S: Search, ghost L: Ledger, ghost pushes: nat)
    requires Frontier(G, source, target, S0, L0) && Expanding(G, source, S0.pred, x, xh)
    requires adj == G.adj && switch == G.switch && 0 <= x.node < |adj|
    ensures Grown(G, source, target, S0, S, L, x, xh, pushes) && pushes <= PER_EDGE * |adj[x.node]|
    ensures forall h: Hop :: Covered(G, x, S.pq, S.minCost, h)
  {
    S, L, pushes := S0, L0, 0;
    assert S0.pq[..|S0.pq|] == S0.pq;
    for i := 0 to |adj[x.node]|
      invariant Grown(G, source, target, S0, S, L, x, xh, pushes) && pushes <= PER_EDGE * i
      invariant forall h: Hop :: h.edge < i ==> Covered(G, x, S.pq, S.minCost, h)
    {
      ghost var before := S.pq;
      S, L, pushes := ExpandEdge(G, adj, switch, source, target, S0, S, L, x, xh, i, pushes);
      CoveredKept(G, x, before, S.pq, S.minCost);
    }
  }

  /** A non-empty queue has an entry of least cost. */
  lemma {:induction false} CheapestExists(q: seq<State>)
    requires q != []
    ensures exists i :: 0 <= i < |q| && forall j :: 0 <= j < |q| ==> q[i].cost <= q[j].cost
  {
    if |q| > 1 {
      var front := q[..|q| - 1];
      CheapestExists(front);
      var i :| 0 <= i < |front| && forall j :: 0 <= j < |front| ==> front[i].cost <= front[j].cost;
      if q[|q| - 1].cost < q[i].cost {
        assert forall j :: 0 <= j < |q| ==> q[|q| - 1].cost <= q[j].cost;
      } else {
        assert forall j :: 0 <= j < |q| ==> q[i].cost <= q[j].cost;
      }
    } else {
      assert forall j :: 0 <= j < |q| ==> q[0].cost <= q[j].cost;
    }
  }

  /** priority_queue::top under greater<State>: the position of an entry of least cost
      (the order among entries of equal cost is left open). */
  method PopCheapest(q: seq<State>) returns (i: int)
    requires q != []
    ensures 0 <= i < |q| && forall j :: 0 <= j < |q| ==> q[i].cost <= q[j].cost
  {
    CheapestExists(q);
    i :| 0 <= i < |q| && forall j :: 0 <= j < |q| ==> q[i].cost <= q[j].cost;
  }

  /** Taking entry `i` out of the queue keeps the invariant, and the entry is the end
      of its branch. */
  lemma PopKeeps(G: Graph, source: int, target: int, S0: Search, L0: Ledger, i: int, S: Search, L: Ledger)
    requires Frontier(G, source, target, S0, L0) && 0 <= i < |S0.pq|
    requires S == S0.(pq := S0.pq[..i] + S0.pq[i + 1..]) && L == L0.(hopsOf := L0.hopsOf[..i] + L0.hopsOf[i + 1..])
    ensures Frontier(G, source, target, S, L) && Expanding(G, source, S.pred, S0.pq[i], L0.hopsOf[i])
    ensures QueueWeight(|G.adj|, Branching(G), S.pq)
         == QueueWeight(|G.adj|, Branching(G), S0.pq) - StateWeight(|G.adj|, Branching(G), S0.pq[i])
  {
    PopQueued(G, source, S0.pq, L0.hopsOf, S0.pred, i);
    QueueWeightRemove(|G.adj|, Branching(G), S0.pq, i);
  }

  /** Removing entry `i` from the queue, and its branch from the ledger, leaves every
      other entry with its branch and its key. */
  lemma PopQueued(G: Graph, source: int, pq: seq<State>, hopsOf: seq<seq<Hop>>, pred: map<int, State>, i: int)
    requires Queued(G, source, pq, hopsOf) && Keyed(source, pq, pred) && 0 <= i < |pq|
    ensures Queued(G, source, pq[..i] + pq[i + 1..], hopsOf[..i] + hopsOf[i + 1..])
    ensures Keyed(source, pq[..i] + pq[i + 1..], pred)
  {
    var q, h := pq[..i] + pq[i + 1..], hopsOf[..i] + hopsOf[i + 1..];
    forall j | 0 <= j < |q|
      ensures Walk(G, source, h[j]) == Some(q[j]) && (q[j].node != source ==> KeyOf(q[j]) in pred)
    {
      if j < i {
        assert q[j] == pq[j] && h[j] == hopsOf[j];
      } else {
        assert q[j] == pq[j + 1] && h[j] == hopsOf[j + 1];
      }
    }
  }

  /** One turn of the loop of findMinCostPath: the cheapest entry is popped; it is
      dropped when dearer than min_cost; at the target it becomes best_state when
      cheaper than min_cost; otherwise it is expanded. min_cost never goes up, and the
      queue weight always goes down. */
  method Visit(ghost G: Graph, adj: seq<seq<Edge>>, switch: seq<bool>, source: int, target: int,
               S0: Search, ghost L0: Ledger)
    returns (S: Search, ghost L: Ledger)
    requires Frontier(G, source, target, S0, L0) && S0.pq != [] && adj == G.adj && switch == G.switch
    requires Complete(G, source, target, S0.pq, S0.minCost)
    ensures Frontier(G, source, target, S, L) && S.minCost <= S0.minCost
    ensures Complete(G, source, target, S.pq, S.minCost)
    ensures QueueWeight(|G.adj|, Branching(G), S.pq) < QueueWeight(|G.adj|, Branching(G), S0.pq)
  {
    ghost var n, B := |G.adj|, Branching(G);
    var i := PopCheapest(S0.pq);
    var x := S0.pq[i];
    ghost var xh := L0.hopsOf[i];
    S := S0.(pq := S0.pq[..i] + S0.pq[i + 1..]);
    L := L0.(hopsOf := L0.hopsOf[..i] + L0.hopsOf[i + 1..]);
    PopKeeps(G, source, target, S0, L0, i, S, L);
    WalkShape(G, source, xh, x);
    RangeCard(x.visited, n);
    PowPositive(B, n - |x.visited|);
    ghost var popped := S.pq;
    if x.cost > S.minCost {
      Survivors(S0.pq, i, S.pq);
      PopCompletes(G, source, target, S0.pq, i, S.pq, S0.minCost, S.minCost);
      return;
    }
    if x.node == target {
      if x.cost < S.minCost {
        S := S.(minCost := x.cost, best := Some(x));
        L := L.(bestHops := xh);
      }
      Survivors(S0.pq, i, S.pq);
      PopCompletes(G, source, target, S0.pq, i, S.pq, S0.minCost, S.minCost);
      return;
    }
    ghost var pushes;
    S, L, pushes := ExpandState(G, adj, switch, source, target, S, L, x, xh);
    QueueWeightChildren(n, B, popped, S.pq, x, pushes);
    ExpansionLighter(n, B, x, pushes);
    Survivors(S0.pq, i, S.pq);
    PopCompletes(G, source, target, S0.pq, i, S.pq, S0.minCost, S.minCost);
  }

  /** The predecessor chain reconstructPath follows: each state after the first is the
      one recorded under the key of the state before it, which is not at the source. */
  ghost predicate Follows(source: int, pred: map<int, State>, chain: seq<State>)
  {
    forall k :: 0 <= k < |chain| - 1 ==> Link(source, pred, chain[k], chain[k + 1])
  }

  /** `b` is the state recorded under the key of `a`, which is not at the source. */
  ghost predicate Link(source: int, pred: map<int, State>, a: State, b: State)
  {
    a.node != source && KeyOf(a) in pred && b == pred[KeyOf(a)]
  }

  /** The chain comes back to a state it has passed without reaching the source, so
      following it never ends. */
  ghost predicate Cycles(source: int, chain: seq<State>)
  {
    && (exists i, j :: 0 <= i < j < |chain| && chain[i] == chain[j])
    && forall k :: 0 <= k < |chain| ==> chain[k].node != source
  }

  /** The pair reported for a state: its node and the first channel of its band, -1 at
      the source, at the target and before the first edge. */
  function Label(source: int, target: int, s: State): (int, int)
  {
    var startChannel := if s.channel != -1 then s.channel - s.consecutive + 1 else -1;
    if s.node == source || s.node == target then (s.node, -1) else (s.node, startChannel)
  }

  function LabelAll(source: int, target: int, t: seq<State>): (r: seq<(int, int)>)
    ensures |r| == |t| && forall i :: 0 <= i < |t| ==> r[i] == Label(source, target, t[i])
    decreases |t|
  {
    if t == [] then [] else LabelAll(source, target, t[..|t| - 1]) + [Label(source, target, t[|t| - 1])]
  }

  /** More positions than distinct values means some value repeats. */
  lemma {:induction false} Pigeonhole<T>(s: seq<T>, values: set<T>)
    requires forall k :: 0 <= k < |s| ==> s[k] in values
    requires |s| > |values|
    ensures exists i, j :: 0 <= i < j < |s| && s[i] == s[j]
    decreases |s|
  {
    var last := s[|s| - 1];
    var front := s[..|s| - 1];
    if last in front {
      var i :| 0 <= i < |front| && front[i] == last;
      assert s[i] == s[|s| - 1];
    } else {
      forall k | 0 <= k < |front|
        ensures front[k] in values - {last}
      {
        assert front[k] == s[k];
      }
      Pigeonhole(front, values - {last});
      var i, j :| 0 <= i < j < |front| && front[i] == front[j];
      assert s[i] == s[j];
    }
  }

  /** reconstructPath: an empty path without a best state; otherwise the chain of
      recorded predecessors from the best state back to the source or to a key that
      was never recorded, reversed and labelled. A chain that runs past as many states
      as the map holds, plus two, has come back to a state it passed: the C++ loop
      then never ends, and the result is None. */
  method ReconstructPath(final: Option<State>, pred: map<int, State>, source: int, target: int)
    returns (r: Option<seq<(int, int)>>, ghost chain: seq<State>)
    ensures final.None? ==> r == Some([]) && chain == []
    ensures final.Some? ==> chain != [] && chain[0] == final.value && Follows(source, pred, chain)
    ensures final.Some? && r.Some? ==>
      && (chain[|chain| - 1].node == source || KeyOf(chain[|chain| - 1]) !in pred)
      && r.value == LabelAll(source, target, Reversed(chain))
    ensures r.None? ==> final.Some? && Cycles(source, chain)
  {
    if final.None? {
      return Some([]), [];
    }
    var reverseStates, stopped := TraceKeys(final.value, pred, source);
    chain := reverseStates;
    if !stopped {
      return None, chain;
    }
    var path := Relabelled(reverseStates, source, target);
    return Some(path), chain;
  }

  /** The first loop of reconstructPath: from `start`, record the state and move to the
      predecessor recorded under its key, until the source or a key that was never
      recorded. `stopped` is false when the chain has run past as many states as the
      map holds, plus two, without stopping. */
  method TraceKeys(start: State, pred: map<int, State>, source: int) returns (reverseStates: seq<State>, stopped: bool)
    ensures reverseStates != [] && reverseStates[0] == start && Follows(source, pred, reverseStates)
    ensures var last := reverseStates[|reverseStates| - 1];
      stopped ==> last.node == source || KeyOf(last) !in pred
    ensures !stopped ==> Cycles(source, reverseStates)
  {
    reverseStates := [];
    var current := start;
    stopped := false;
    while |reverseStates| <= |pred.Values| + 1
      invariant |reverseStates| <= |pred.Values| + 2
      invariant reverseStates == [] ==> current == start
      invariant reverseStates != [] ==> reverseStates[0] == start
      invariant reverseStates != [] ==>
        var last := reverseStates[|reverseStates| - 1];
        last.node != source && KeyOf(last) in pred && current == pred[KeyOf(last)]
      invariant Follows(source, pred, reverseStates)
      invariant forall k :: 0 <= k < |reverseStates| ==> reverseStates[k].node != source
      invariant forall k :: 1 <= k < |reverseStates| ==> reverseStates[k] in pred.Values
      decreases |pred.Values| + 2 - |reverseStates|
    {
      if current.node == source {
        reverseStates := reverseStates + [current];
        stopped := true;
        return;
      }
      var key := current.node * 1000 + current.channel * 10 + current.consecutive;
      if key !in pred {
        reverseStates := reverseStates + [current];
        stopped := true;
        return;
      }
      reverseStates := reverseStates + [current];
      current := pred[key];
    }
    LongChainCycles(source, pred, reverseStates);
  }

  /** A chain that never meets the source and passes more recorded predecessors than
      the map holds comes back to a state it has passed. */
  lemma LongChainCycles(source: int, pred: map<int, State>, chain: seq<State>)
    requires |chain| == |pred.Values| + 2
    requires forall k :: 0 <= k < |chain| ==> chain[k].node != source
    requires forall k :: 1 <= k < |chain| ==> chain[k] in pred.Values
    ensures Cycles(source, chain)
  {
    Pigeonhole(chain[1..], pred.Values);
    var i, j :| 0 <= i < j < |chain[1..]| && chain[1..][i] == chain[1..][j];
    assert chain[i + 1] == chain[j + 1];
  }

  /** The second loop of reconstructPath: the states in reverse order, labelled. */
  method Relabelled(reverseStates: seq<State>, source: int, target: int) returns (path: seq<(int, int)>)
    ensures path == LabelAll(source, target, Reversed(reverseStates))
  {
    path := [];
    var i := |reverseStates| - 1;
    while i >= 0
      invariant -1 <= i < |reverseStates| && |path| == |reverseStates| - 1 - i
      invariant forall k :: 0 <= k < |path| ==> path[k] == Label(source, target, reverseStates[|reverseStates| - 1 - k])
    {
      var state := reverseStates[i];
      var startChannel := -1;
      if state.channel != -1 {
        startChannel := state.channel - state.consecutive + 1;
      }
      if state.node == source || state.node == target {
        path := path + [(state.node, -1)];
      } else {
        path := path + [(state.node, startChannel)];
      }
      i := i - 1;
    }
    var expected := LabelAll(source, target, Reversed(reverseStates));
    assert forall k :: 0 <= k < |path| ==> path[k] == expected[k];
  }

  /** A path from the source to the target: it starts at (source, -1) and ends at
      (target, -1), consecutive nodes are joined by an edge, and every node other than
      the source and the target carries the first channel of a band. */
  ghost predicate PathShape(G: Graph, source: int, target: int, path: seq<(int, int)>)
  {
    && |path| >= 2 && path[0] == (source, -1) && path[|path| - 1] == (target, -1)
    && (forall k :: 1 <= k < |path| ==> Adjacent(G, path[k - 1].0, path[k].0))
    && (forall k :: 0 <= k < |path| && path[k].0 != source && path[k].0 != target ==> 0 <= path[k].1 < CHANNELS)
    && (forall k :: 0 <= k < |path| && (path[k].0 == source || path[k].0 == target) ==> path[k].1 == -1)
  }

  /** A chain from a shaped state at the target back to the source through recorded
      predecessors gives a path from the source to the target. */
  lemma ChainPath(G: Graph, source: int, target: int, pred: map<int, State>, chain: seq<State>)
    requires Preds(G, source, pred) && source != target
    requires chain != [] && Follows(source, pred, chain) && chain[|chain| - 1].node == source
    requires chain[0].node == target && Shaped(chain[0]) && chain[0].channel != -1
    ensures PathShape(G, source, target, LabelAll(source, target, Reversed(chain)))
  {
    var m := |chain|;
    var path := LabelAll(source, target, Reversed(chain));
    var rev := Reversed(chain);
    ChainShaped(G, source, pred, chain);
    ChainAdjacent(G, source, pred, chain);
    forall k | 0 <= k < m
      ensures path[k] == Label(source, target, chain[m - 1 - k])
    {
      assert rev[k] == chain[m - 1 - k];
    }
    forall k | 1 <= k < m
      ensures Adjacent(G, path[k - 1].0, path[k].0)
    {
      assert path[k - 1].0 == chain[m - k].node;
    }
  }

  /** Every state on a chain of recorded predecessors that starts from a shaped state
      is shaped, and has a band unless it is at the source. */
  lemma ChainShaped(G: Graph, source: int, pred: map<int, State>, chain: seq<State>)
    requires Preds(G, source, pred) && chain != [] && Follows(source, pred, chain)
    requires Shaped(chain[0]) && (chain[0].node != source ==> chain[0].channel != -1)
    ensures forall k :: 0 <= k < |chain| ==> Shaped(chain[k]) && (chain[k].node != source ==> chain[k].channel != -1)
  {
    forall k | 1 <= k < |chain|
      ensures Shaped(chain[k]) && (chain[k].node != source ==> chain[k].channel != -1)
    {
      assert Link(source, pred, chain[k - 1], chain[k]);
      assert PredOK(G, source, KeyOf(chain[k - 1]), pred[KeyOf(chain[k - 1])]);
    }
  }

  /** Each state on a chain of recorded predecessors has an edge to the state before it. */
  lemma ChainAdjacent(G: Graph, source: int, pred: map<int, State>, chain: seq<State>)
    requires Preds(G, source, pred) && Follows(source, pred, chain)
    requires forall k :: 0 <= k < |chain| ==> Shaped(chain[k]) && (chain[k].node != source ==> chain[k].channel != -1)
    ensures forall k :: 1 <= k < |chain| ==> Adjacent(G, chain[k].node, chain[k - 1].node)
  {
    forall k | 1 <= k < |chain|
      ensures Adjacent(G, chain[k].node, chain[k - 1].node)
    {
      var c := chain[k - 1];
      assert Link(source, pred, c, chain[k]);
      assert PredOK(G, source, KeyOf(c), pred[KeyOf(c)]);
      KeyDecode(c.node, c.channel, c.consecutive);
    }
  }

  /** Following recorded predecessors from an entry whose key is recorded only meets
      entries whose keys are recorded, up to the source. */
  lemma ChainKeyed(source: int, pred: map<int, State>, chain: seq<State>)
    requires PredsKeyed(source, pred) && chain != [] && Follows(source, pred, chain)
    requires chain[0].node != source ==> KeyOf(chain[0]) in pred
    ensures chain[|chain| - 1].node != source ==> KeyOf(chain[|chain| - 1]) in pred
  {
    var m := |chain|;
    if m > 1 {
      assert Link(source, pred, chain[m - 2], chain[m - 1]);
    }
  }

  /** findMinCostPath: [(source, -1)] when source and target are the same node; None
      when the rebuilt chain of predecessors goes round a cycle, where the C++ code
      never returns; otherwise the path rebuilt from best_state. It is empty only when
      no branch reached the target below INT_MAX, which with non-negative costs means
      that none reaches it below INT_MAX at all; else it is a path from the source to
      the target whose best state ends the simple branch `hops` at cost `cost`, and
      with non-negative costs no branch to the target costs less. */
  method MinCostPath(ghost G: Graph, adj: seq<seq<Edge>>, switch: seq<bool>, source: int, target: int)
    returns (r: Option<seq<(int, int)>>, ghost hops: seq<Hop>, ghost cost: int, ghost chain: seq<State>)
    requires ValidGraph(G) && adj == G.adj && switch == G.switch
    requires source == target || 0 <= source < |G.adj|
    ensures source == target ==> r == Some([(source, -1)])
    ensures r.None? ==> source != target && Cycles(source, chain)
    ensures r.Some? && r.value != [] && source != target ==>
      && PathShape(G, source, target, r.value)
      && Walk(G, source, hops).Some? && Walk(G, source, hops).value.node == target
      && Walk(G, source, hops).value.cost == cost && cost < INF
    ensures NonNegativeCosts(G.adj) && r == Some([]) && source != target ==> Least(G, source, target, INF)
    ensures NonNegativeCosts(G.adj) && r.Some? && r.value != [] && source != target ==> Least(G, source, target, cost)
  {
    hops, cost, chain := [], 0, [];
    if source == target {
      return Some([(source, -1)]), hops, cost, chain;
    }
    var start := State(0, source, -1, 0, {source});
    var S := Search([start], INF, None, map[]);
    ghost var L := Ledger([[]], []);
    StartComplete(G, source, target);
    while S.pq != []
      invariant Frontier(G, source, target, S, L) && Complete(G, source, target, S.pq, S.minCost)
      decreases QueueWeight(|G.adj|, Branching(G), S.pq)
    {
      S, L := Visit(G, adj, switch, source, target, S, L);
    }
    if NonNegativeCosts(G.adj) {
      ExhaustedLeast(G, source, target, S.minCost);
    }
    r, chain := ReconstructPath(S.best, S.pred, source, target);
    if S.best.Some? {
      hops, cost := L.bestHops, S.minCost;
      WalkShape(G, source, hops, S.best.value);
      ChainKeyed(source, S.pred, chain);
      if r.Some? {
        ChainPath(G, source, target, S.pred, chain);
      }
    }
  }

  /** The path checks of validatePath: not empty, from the source, to the target, and
      no node twice. */
  predicate ValidPath(path: seq<(int, int)>, source: int, target: int)
  {
    && path != [] && path[0].0 == source && path[|path| - 1].0 == target
    && forall i, j :: 0 <= i < j < |path| ==> path[i].0 != path[j].0
  }

  /** validatePath, without its messages. */
  method ValidatePath(path: seq<(int, int)>, source: int, target: int) returns (ok: bool)
    ensures ok == ValidPath(path, source, target)
  {
    if path == [] {
      return false;
    }
    if path[0].0 != source {
      return false;
    }
    if path[|path| - 1].0 != target {
      return false;
    }
    var visitedNodes: set<int> := {};
    for k := 0 to |path|
      invariant visitedNodes == set j | 0 <= j < k :: path[j].0
      invariant forall i, j :: 0 <= i < j < k ==> path[i].0 != path[j].0
    {
      if path[k].0 in visitedNodes {
        return false;
      }
      visitedNodes := visitedNodes + {path[k].0};
    }
    return true;
  }

  /** The OptimizedEfficientGraph class of OptimizedEfficientGraph3.cpp. */
  class OptimizedEfficientGraph {
    /** n */
    const n: int
    /** supports_switch */
    var supportsSwitch: seq<bool>
    /** adj */
    var adj: seq<seq<Edge>>

    ghost predicate Valid()
      reads this
    {
      0 <= n && |adj| == n && |supportsSwitch| == n && WellFormed(adj)
    }

    /** n nodes, no edges, no node supports switching. */
    constructor (nodeCount: int)
      requires 0 <= nodeCount
      ensures Valid() && n == nodeCount
      ensures forall u :: 0 <= u < n ==> adj[u] == [] && !supportsSwitch[u]
    {
      n := nodeCount;
      adj := seq(nodeCount, _ => []);
      supportsSwitch := seq(nodeCount, _ => false);
    }

    /** setChannelSwitchSupport: a node id out of range is ignored. */
    method SetChannelSwitchSupport(nodeId: int, supports: bool)
      requires Valid()
      modifies this
      ensures Valid() && adj == old(adj)
      ensures supportsSwitch == if 0 <= nodeId < n then old(supportsSwitch)[nodeId := supports] else old(supportsSwitch)
    {
      if 0 <= nodeId < n {
        supportsSwitch := supportsSwitch[nodeId := supports];
      }
    }

    /** addEdge: a cost vector that does not hold exactly 100 costs is rejected with
        invalid_argument and nothing changes; otherwise an edge with these costs is
        added in both directions. The endpoints are not checked, so they must be in
        range. */
    method AddEdge(u: int, v: int, costs: seq<int>) returns (r: Outcome)
      requires Valid() && 0 <= u < n && 0 <= v < n
      modifies this
      ensures Valid() && supportsSwitch == old(supportsSwitch)
      ensures r == (if |costs| == CHANNELS then Pass else Fail(InvalidArgument))
      ensures r.Pass? ==> adj == AddUndirected(old(adj), u, v, Edge(v, costs), Edge(u, costs))
      ensures r.Fail? ==> adj == old(adj)
    {
      if |costs| != CHANNELS {
        return Fail(InvalidArgument);
      }
      WellFormedAdd(adj, u, v, costs);
      adj := AddUndirected(adj, u, v, Edge(v, costs), Edge(u, costs));
      r := Pass;
    }

    /** findMinCostPath. The source is not checked, so unless it is also the target it
        must be in range. */
    method FindMinCostPath(source: int, target: int)
      returns (r: Option<seq<(int, int)>>, ghost hops: seq<Hop>, ghost cost: int, ghost chain: seq<State>)
      requires Valid() && (source == target || 0 <= source < n)
      ensures source == target ==> r == Some([(source, -1)])
      ensures r.None? ==> source != target && Cycles(source, chain)
      ensures r.Some? && r.value != [] && source != target ==>
        && PathShape(Graph(adj, supportsSwitch), source, target, r.value)
        && Walk(Graph(adj, supportsSwitch), source, hops).Some?
        && Walk(Graph(adj, supportsSwitch), source, hops).value.node == target
        && Walk(Graph(adj, supportsSwitch), source, hops).value.cost == cost && cost < INF
      ensures NonNegativeCosts(adj) && r == Some([]) && source != target ==> Least(Graph(adj, supportsSwitch), source, target, INF)
      ensures NonNegativeCosts(adj) && r.Some? && r.value != [] && source != target ==>
        Least(Graph(adj, supportsSwitch), source, target, cost)
    {
      r, hops, cost, chain := MinCostPath(Graph(adj, supportsSwitch), adj, supportsSwitch, source, target);
    }
  }
}
