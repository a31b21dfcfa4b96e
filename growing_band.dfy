/** The state space and the moves of the growing-band searches of
    OptimizedEfficientGraph.cpp and OptimizedEfficientGraph1.cpp.

    A search state is a node together with a channel slot: the last channel of the
    band in use on the edge that led into the node, or NOT_STARTED (slot 100) before
    the first edge. States are numbered node * 101 + slot. A move along an edge
    either begins a new band of 1 to 3 adjacent channels (always allowed from the
    NOT_STARTED slot, otherwise only at a node that supports switching or when the
    band has reached the last channel) or continues the band by its next channel. */
module GrowingBand {
  import opened Common

  /** STATE_COUNT: the 100 channels and the NOT_STARTED slot. */
  const STATE_COUNT: int := 101

  /** The channel slot of a state that has not used any edge yet. */
  const NOT_STARTED: int := 100

  function StateId(node: int, slot: int): int
  {
    node * STATE_COUNT + slot
  }

  function NodeOf(id: int): int
  {
    id / STATE_COUNT
  }

  function SlotOf(id: int): int
  {
    id % STATE_COUNT
  }

  /** Decoding a state number by / 101 and % 101 recovers its node and its slot. */
  lemma StateIdRoundTrip(node: int, slot: int)
    requires 0 <= slot < STATE_COUNT
    ensures NodeOf(StateId(node, slot)) == node && SlotOf(StateId(node, slot)) == slot
  {
  }

  /** The states of n nodes are numbered 0 .. n*101-1, and every such number decodes
      to a node below n. */
  lemma StateIdRange(n: int, id: int)
    requires 0 <= id
    ensures 0 <= SlotOf(id) < STATE_COUNT && StateId(NodeOf(id), SlotOf(id)) == id
    ensures id < n * STATE_COUNT <==> NodeOf(id) < n
    ensures 0 <= NodeOf(id)
  {
  }

  /** How a move picks the band it uses on the next edge. */
  datatype Step =
    | Begin(size: int, first: int)   // a new band of `size` channels from channel `first`
    | Extend                         // the band grows by the next channel

  /** The channel slot a step leads to: the last channel of the new band, or the
      next channel. */
  function StepSlot(slot: int, step: Step): int
  {
    match step
    case Begin(size, first) => first + size - 1
    case Extend => slot + 1
  }

  /** The step stays within the 100 channels and within bands of 1 to 3. */
  predicate StepFits(slot: int, step: Step)
  {
    match step
    case Begin(size, first) => 1 <= size <= 3 && 0 <= first <= CHANNELS - size
    case Extend => 0 <= slot < CHANNELS - 1
  }

  /** A new band may begin from the NOT_STARTED slot, at a node that supports
      switching, or once the band has reached channel 99; slot 100 is at least 99, so
      one test covers all three. Extending needs a started band below channel 99. */
  predicate StepAllowed(switch: bool, slot: int, step: Step)
  {
    StepFits(slot, step) && (step.Begin? ==> switch || slot >= CHANNELS - 1)
  }

  /** The cost of a step on an edge: the block cost of the new band, or the cost of
      the next channel. */
  function StepCost(costs: seq<int>, slot: int, step: Step): int
    requires |costs| == CHANNELS && StepFits(slot, step)
  {
    match step
    case Begin(size, first) => SegSum(costs, first, size)
    case Extend => costs[slot + 1]
  }

  /** The graph as the search sees it: adjacency lists with channel costs, and the
      supports_switch flags. */
  datatype Graph = Graph(adj: seq<seq<Edge>>, switch: seq<bool>)

  predicate ValidGraph(G: Graph)
  {
    WellFormed(G.adj) && |G.switch| == |G.adj|
  }

  /** One move: along edge number `edge` of the current node, with a step. */
  datatype Move = Move(edge: int, step: Step)

  predicate MoveOK(G: Graph, s: int, m: Move)
  {
    && ValidGraph(G) && 0 <= s && 0 <= NodeOf(s) < |G.adj|
    && 0 <= m.edge < |G.adj[NodeOf(s)]|
    && StepAllowed(G.switch[NodeOf(s)], SlotOf(s), m.step)
  }

  function MoveTarget(G: Graph, s: int, m: Move): int
    requires MoveOK(G, s, m)
  {
    StateId(G.adj[NodeOf(s)][m.edge].to, StepSlot(SlotOf(s), m.step))
  }

  function MoveCost(G: Graph, s: int, m: Move): int
    requires MoveOK(G, s, m)
  {
    StepCost(G.adj[NodeOf(s)][m.edge].costs, SlotOf(s), m.step)
  }

  /** A move never leads to the NOT_STARTED slot and never leaves the graph, and it
      costs nothing negative when no channel cost is negative. */
  lemma MoveTargetRange(G: Graph, s: int, m: Move)
    requires MoveOK(G, s, m)
    ensures 0 <= MoveTarget(G, s, m) < |G.adj| * STATE_COUNT
    ensures SlotOf(MoveTarget(G, s, m)) < CHANNELS
    ensures NonNegativeCosts(G.adj) ==> MoveCost(G, s, m) >= 0
  {
    var e := G.adj[NodeOf(s)][m.edge];
    StateIdRoundTrip(e.to, StepSlot(SlotOf(s), m.step));
    StateIdRange(|G.adj|, MoveTarget(G, s, m));
    if NonNegativeCosts(G.adj) && m.step.Begin? {
      SegSumNonNegative(e.costs, m.step.first, m.step.size);
    }
  }

  /** Where a sequence of moves from state `s` ends and what it costs; None when one
      of the moves is not allowed. */
  datatype Reached = Reached(state: int, cost: int)

  ghost function Run(G: Graph, s: int, moves: seq<Move>): Option<Reached>
    decreases |moves|
  {
    if moves == [] then Some(Reached(s, 0))
    else
      var r := Run(G, s, moves[..|moves| - 1]);
      var m := moves[|moves| - 1];
      if r.Some? && MoveOK(G, r.value.state, m) then
        Some(Reached(MoveTarget(G, r.value.state, m), r.value.cost + MoveCost(G, r.value.state, m)))
      else None
  }

  /** Running one more move extends the run by that move. */
  lemma RunExtend(G: Graph, s: int, moves: seq<Move>, m: Move, state: int, cost: int)
    requires Run(G, s, moves) == Some(Reached(state, cost)) && MoveOK(G, state, m)
    ensures Run(G, s, moves + [m]) == Some(Reached(MoveTarget(G, state, m), cost + MoveCost(G, state, m)))
  {
    assert (moves + [m])[..|moves|] == moves;
  }

  /** The first channel of the band in use after `moves`: the `first` of the last
      Begin step, -1 before any move. */
  function BandStart(moves: seq<Move>): int
    decreases |moves|
  {
    if moves == [] then -1
    else match moves[|moves| - 1].step
      case Begin(_, first) => first
      case Extend => BandStart(moves[..|moves| - 1])
  }

  /** A Begin step sets the band's first channel; an Extend step keeps it. */
  lemma BandStartSnoc(moves: seq<Move>, m: Move)
    ensures BandStart(moves + [m]) == if m.step.Begin? then m.step.first else BandStart(moves)
  {
    assert (moves + [m])[..|moves|] == moves;
  }

  /** After at least one move from a NOT_STARTED state, a band is in use and its first
      channel is one of the 100 channels: an Extend step needs a started band, so the
      first move is always a Begin. */
  lemma {:induction false} BandStartStarted(G: Graph, s0: int, moves: seq<Move>, s: int, c: int)
    requires SlotOf(s0) == NOT_STARTED && Run(G, s0, moves) == Some(Reached(s, c)) && moves != []
    ensures 0 <= BandStart(moves) < CHANNELS
    decreases |moves|
  {
    var prefix := moves[..|moves| - 1];
    var m := moves[|moves| - 1];
    var r := Run(G, s0, prefix);
    assert r.Some? && MoveOK(G, r.value.state, m);
    if m.step.Extend? {
      if prefix == [] {
        assert false;
      }
      BandStartStarted(G, s0, prefix, r.value.state, r.value.cost);
    }
  }

  /** Node `b` is the other endpoint of one of the edges of node `a`. */
  ghost predicate Adjacent(G: Graph, a: int, b: int)
  {
    0 <= a < |G.adj| && exists k :: 0 <= k < |G.adj[a]| && G.adj[a][k].to == b
  }

  /** The state where every search starts. */
  function StartState(source: int): int
  {
    StateId(source, NOT_STARTED)
  }

  /** `moves` is a walk from the source that ends in `state` at cost `cost`. */
  ghost predicate WalkTo(G: Graph, source: int, moves: seq<Move>, state: int, cost: int)
  {
    Run(G, StartState(source), moves) == Some(Reached(state, cost))
  }

  /** Some walk from the source reaches the target with a started band at cost `cost`. */
  ghost predicate ReachesAt(G: Graph, source: int, target: int, cost: int)
  {
    exists moves, slot :: 0 <= slot < CHANNELS && WalkTo(G, source, moves, StateId(target, slot), cost)
  }

  /** `cost` is the least cost of a walk from the source to the target with a started
      band. */
  ghost predicate Cheapest(G: Graph, source: int, target: int, cost: int)
  {
    ReachesAt(G, source, target, cost) && forall c :: ReachesAt(G, source, target, c) ==> cost <= c
  }

  /** No walk from the source reaches the target with a started band for less than
      INT_MAX, the sentinel the searches use for an unreached state. */
  ghost predicate NoneBelowInf(G: Graph, source: int, target: int)
  {
    forall c :: ReachesAt(G, source, target, c) ==> INF <= c
  }
}
