/** Definitions shared by every variant of the channel-constrained route search:
    the channel count, the INT_MAX sentinel, the edge record, the error kinds the
    C++ code throws, adjacency-list insertion and channel-block sums. */
module Common {

  /** Number of channels on every edge (CHANNELS in every source file). */
  const CHANNELS: int := 100

  /** INT_MAX, the "infinite" cost sentinel (INF / INT_MAX in the sources). */
  const INF: int := 2147483647

  /** An adjacency entry: the other endpoint and one cost per channel. */
  datatype Edge = Edge(to: int, costs: seq<int>)

  /** The standard exceptions the sources throw. */
  datatype Error = OutOfRange | InvalidArgument | RuntimeError

  /** Outcome of a void operation that may throw. */
  datatype Outcome = Pass | Fail(error: Error)

  /** Outcome of a value-returning operation that may throw. */
  datatype Result<+T> = Success(value: T) | Failure(error: Error)

  datatype Option<+T> = None | Some(value: T)

  /** Every adjacency entry points at a node in range and carries one cost per channel. */
  predicate WellFormed(adj: seq<seq<Edge>>)
  {
    forall u, i :: 0 <= u < |adj| && 0 <= i < |adj[u]| ==>
      0 <= adj[u][i].to < |adj| && |adj[u][i].costs| == CHANNELS
  }

  /** Every stored channel cost is non-negative. */
  predicate NonNegativeCosts(adj: seq<seq<Edge>>)
  {
    forall u, i :: 0 <= u < |adj| && 0 <= i < |adj[u]| ==> NonNegative(adj[u][i].costs)
  }

  /** The adjacency lists after adding the undirected edge {u, v}: `toV` is appended
      to the list of u and then `toU` to the list of v (both to the same list when
      u == v). Every other list is unchanged. */
  function AddUndirected<E>(adj: seq<seq<E>>, u: int, v: int, toV: E, toU: E): (r: seq<seq<E>>)
    requires 0 <= u < |adj| && 0 <= v < |adj|
    ensures |r| == |adj|
    ensures forall w :: 0 <= w < |adj| ==> |adj[w]| <= |r[w]| && r[w][..|adj[w]|] == adj[w]
    ensures forall w :: 0 <= w < |adj| && w != u && w != v ==> r[w] == adj[w]
    ensures u != v ==> r[u] == adj[u] + [toV] && r[v] == adj[v] + [toU]
    ensures u == v ==> r[u] == adj[u] + [toV, toU]
    ensures toV in r[u] && toU in r[v]
  {
    var a := adj[u := adj[u] + [toV]];
    assert a[u][|adj[u]|] == toV;
    a[v := a[v] + [toU]]
  }

  /** Adding an edge between nodes in range with one cost per channel keeps the
      adjacency lists well formed. */
  lemma WellFormedAdd(adj: seq<seq<Edge>>, u: int, v: int, costs: seq<int>)
    requires WellFormed(adj) && 0 <= u < |adj| && 0 <= v < |adj| && |costs| == CHANNELS
    ensures WellFormed(AddUndirected(adj, u, v, Edge(v, costs), Edge(u, costs)))
  {
    var adj': seq<seq<Edge>> := AddUndirected(adj, u, v, Edge(v, costs), Edge(u, costs));
    forall w, k | 0 <= w < |adj'| && 0 <= k < |adj'[w]|
      ensures 0 <= adj'[w][k].to < |adj'| && |adj'[w][k].costs| == CHANNELS
    {
      if k < |adj[w]| {
        assert adj'[w][k] == adj'[w][..|adj[w]|][k];
      } else if w == u && k == |adj[u]| {
        assert adj'[w][k] == Edge(v, costs);
      } else {
        assert adj'[w][k] == Edge(u, costs);
      }
    }
  }

  /** Sum of a sequence, accumulated from the left as the C++ loops do. */
  function Sum(s: seq<int>): int
  {
    if s == [] then 0 else Sum(s[..|s| - 1]) + s[|s| - 1]
  }

  /** The cost of channels start .. start+width-1 of one edge. */
  function SegSum(costs: seq<int>, start: int, width: int): int
    requires 0 <= start && 0 <= width && start + width <= |costs|
  {
    Sum(costs[start..start + width])
  }

  /** Every cost is non-negative. */
  predicate NonNegative(s: seq<int>)
  {
    forall i :: 0 <= i < |s| ==> s[i] >= 0
  }

  lemma {:induction false} SumNonNegative(s: seq<int>)
    requires NonNegative(s)
    ensures Sum(s) >= 0
  {
    if s != [] {
      SumNonNegative(s[..|s| - 1]);
    }
  }

  /** A block of non-negative channel costs never costs less than zero. */
  lemma SegSumNonNegative(costs: seq<int>, start: int, width: int)
    requires NonNegative(costs)
    requires 0 <= start && 0 <= width && start + width <= |costs|
    ensures SegSum(costs, start, width) >= 0
  {
    SumNonNegative(costs[start..start + width]);
  }

  /** Extending a block by one channel adds that channel's cost. */
  lemma SegSumExtend(costs: seq<int>, start: int, width: int)
    requires 0 <= start && 0 <= width && start + width < |costs|
    ensures SegSum(costs, start, width + 1) == SegSum(costs, start, width) + costs[start + width]
  {
    assert costs[start..start + width + 1][..width] == costs[start..start + width];
  }

  /** Blocks of one, two and three channels written out. */
  lemma SegSumSmall(costs: seq<int>, start: int)
    requires 0 <= start < |costs|
    ensures SegSum(costs, start, 1) == costs[start]
    ensures start + 2 <= |costs| ==> SegSum(costs, start, 2) == costs[start] + costs[start + 1]
    ensures start + 3 <= |costs| ==> SegSum(costs, start, 3) == costs[start] + costs[start + 1] + costs[start + 2]
  {
    SegSumExtend(costs, start, 0);
    if start + 2 <= |costs| {
      SegSumExtend(costs, start, 1);
    }
    if start + 3 <= |costs| {
      SegSumExtend(costs, start, 2);
    }
  }

  /** std::reverse as a function on sequences. */
  function Reversed<T>(s: seq<T>): (r: seq<T>)
    ensures |r| == |s|
    ensures forall i :: 0 <= i < |s| ==> r[i] == s[|s| - 1 - i]
  {
    if s == [] then [] else Reversed(s[1..]) + [s[0]]
  }

  lemma ReversedSnoc<T>(s: seq<T>, x: T)
    ensures Reversed(s + [x]) == [x] + Reversed(s)
  {
    assert forall i :: 0 <= i < |s| + 1 ==> Reversed(s + [x])[i] == ([x] + Reversed(s))[i];
  }

  lemma ReversedTwice<T>(s: seq<T>)
    ensures Reversed(Reversed(s)) == s
  {
    assert forall i :: 0 <= i < |s| ==> Reversed(Reversed(s))[i] == s[i];
  }

  /** Sum of the entries of a two-dimensional table. */
  function Total2(t: seq<seq<int>>): int
  {
    if t == [] then 0 else Total2(t[..|t| - 1]) + Sum(t[|t| - 1])
  }

  lemma {:induction false} SumUpdate(s: seq<int>, i: int, x: int)
    requires 0 <= i < |s|
    ensures Sum(s[i := x]) == Sum(s) - s[i] + x
  {
    if i < |s| - 1 {
      assert s[i := x][..|s| - 1] == s[..|s| - 1][i := x];
      SumUpdate(s[..|s| - 1], i, x);
    } else {
      assert s[i := x][..|s| - 1] == s[..|s| - 1];
    }
  }

  lemma {:induction false} Total2Update(t: seq<seq<int>>, i: int, j: int, x: int)
    requires 0 <= i < |t| && 0 <= j < |t[i]|
    ensures Total2(t[i := t[i][j := x]]) == Total2(t) - t[i][j] + x
  {
    var t' := t[i := t[i][j := x]];
    if i < |t| - 1 {
      assert t'[..|t| - 1] == t[..|t| - 1][i := t[i][j := x]];
      Total2Update(t[..|t| - 1], i, j, x);
    } else {
      assert t'[..|t| - 1] == t[..|t| - 1];
      SumUpdate(t[i], j, x);
    }
  }

  lemma {:induction false} SumNonNegativeTable(t: seq<seq<int>>)
    requires forall i, j :: 0 <= i < |t| && 0 <= j < |t[i]| ==> t[i][j] >= 0
    ensures Total2(t) >= 0
  {
    if t != [] {
      SumNonNegativeTable(t[..|t| - 1]);
      SumNonNegative(t[|t| - 1]);
    }
  }

  /** Number of unset flags in a row. */
  function CountFalse(s: seq<bool>): nat
  {
    if s == [] then 0 else CountFalse(s[..|s| - 1]) + (if s[|s| - 1] then 0 else 1)
  }

  /** Number of unset flags in a two-dimensional table. */
  function CountFalse2(t: seq<seq<bool>>): nat
  {
    if t == [] then 0 else CountFalse2(t[..|t| - 1]) + CountFalse(t[|t| - 1])
  }

  lemma {:induction false} CountFalseSet(s: seq<bool>, i: int)
    requires 0 <= i < |s| && !s[i]
    ensures CountFalse(s[i := true]) == CountFalse(s) - 1
  {
    if i < |s| - 1 {
      assert s[i := true][..|s| - 1] == s[..|s| - 1][i := true];
      CountFalseSet(s[..|s| - 1], i);
    } else {
      assert s[i := true][..|s| - 1] == s[..|s| - 1];
    }
  }

  lemma {:induction false} CountFalse2Set(t: seq<seq<bool>>, i: int, j: int)
    requires 0 <= i < |t| && 0 <= j < |t[i]| && !t[i][j]
    ensures CountFalse2(t[i := t[i][j := true]]) == CountFalse2(t) - 1
  {
    var t' := t[i := t[i][j := true]];
    if i < |t| - 1 {
      assert t'[..|t| - 1] == t[..|t| - 1][i := t[i][j := true]];
      CountFalse2Set(t[..|t| - 1], i, j);
    } else {
      assert t'[..|t| - 1] == t[..|t| - 1];
      CountFalseSet(t[i], j);
    }
  }

  /** A non-empty finite multiset has an element of least key. */
  lemma {:induction false} MinExists<T>(q: multiset<T>, key: T -> int)
    requires q != multiset{}
    ensures exists x :: x in q && forall y :: y in q ==> key(x) <= key(y)
    decreases |q|
  {
    var z :| z in q;
    var rest := q - multiset{z};
    assert q == rest + multiset{z};
    if rest == multiset{} {
      assert forall y :: y in q ==> y == z;
    } else {
      MinExists(rest, key);
      var m :| m in rest && forall y :: y in rest ==> key(m) <= key(y);
      assert forall y :: y in q ==> y == z || y in rest;
      if key(z) >= key(m) {
        assert m in q;
      }
    }
  }
}
