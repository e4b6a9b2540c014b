/**
 Transaction graphs and partitions of their vertices: what the per-shard edge counts mean, and
 how moving one vertex changes them.
 */
module Graphs {

  type Vertex = string
  type Edge = (Vertex, Vertex)
  type Assignment = map<Vertex, nat>

  /** The shard a vertex is assigned to; a missing entry reads as shard 0. */
  function ShardOf(part: Assignment, v: Vertex): nat {
    if v in part then part[v] else 0
  }

  /** The adjacency list of `v` after adding the edges in order, in both directions. */
  function Neighbors(edges: seq<Edge>, v: Vertex): seq<Vertex> {
    if edges == [] then []
    else
      var e := edges[|edges| - 1];
      Neighbors(edges[..|edges| - 1], v)
        + (if v == e.0 then [e.1] else []) + (if v == e.1 then [e.0] else [])
  }

  function One(b: bool): nat {
    if b then 1 else 0
  }

  predicate Touches(part: Assignment, e: Edge, k: nat) {
    ShardOf(part, e.0) == k || ShardOf(part, e.1) == k
  }

  predicate Crosses(part: Assignment, e: Edge) {
    ShardOf(part, e.0) != ShardOf(part, e.1)
  }

  /** Number of undirected edges with an endpoint in shard `k`. */
  function Touching(edges: seq<Edge>, part: Assignment, k: nat): nat {
    if edges == [] then 0
    else Touching(edges[..|edges| - 1], part, k) + One(Touches(part, edges[|edges| - 1], k))
  }

  /** Number of undirected edges between different shards. */
  function Crossing(edges: seq<Edge>, part: Assignment): nat {
    if edges == [] then 0
    else Crossing(edges[..|edges| - 1], part) + One(Crosses(part, edges[|edges| - 1]))
  }

  /** Number of edges from `v` to itself. */
  function Loops(edges: seq<Edge>, v: Vertex): nat {
    if edges == [] then 0
    else Loops(edges[..|edges| - 1], v) + One(edges[|edges| - 1] == (v, v))
  }

  ghost predicate LoopFree(edges: seq<Edge>) {
    forall e :: e in edges ==> e.0 != e.1
  }

  lemma {:induction false} NoLoops(edges: seq<Edge>, v: Vertex)
    ensures Loops(edges, v) == 0 <==> (v, v) !in edges
  {
    if edges != [] {
      var init, e := edges[..|edges| - 1], edges[|edges| - 1];
      NoLoops(init, v);
      assert edges == init + [e];
    }
  }

  predicate Joins(e: Edge, a: Vertex, b: Vertex) {
    (e.0 == a && e.1 == b) || (e.0 == b && e.1 == a)
  }

  /** Number of edges between two vertices, in either direction. */
  function Joining(edges: seq<Edge>, a: Vertex, b: Vertex): nat {
    if edges == [] then 0
    else Joining(edges[..|edges| - 1], a, b) + One(Joins(edges[|edges| - 1], a, b))
  }

  lemma {:induction false} JoiningConcat(xs: seq<Edge>, ys: seq<Edge>, a: Vertex, b: Vertex)
    ensures Joining(xs + ys, a, b) == Joining(xs, a, b) + Joining(ys, a, b)
  {
    if ys == [] {
      assert xs + ys == xs;
    } else {
      assert (xs + ys)[..|xs + ys| - 1] == xs + ys[..|ys| - 1];
      JoiningConcat(xs, ys[..|ys| - 1], a, b);
    }
  }

  /** The adjacency list of a vertex holds another as often as edges join the two; an edge to itself is there
      twice. */
  lemma {:induction false} NeighborsAreJoined(edges: seq<Edge>, a: Vertex, b: Vertex)
    ensures multiset(Neighbors(edges, a))[b] == if a == b then 2 * Joining(edges, a, b) else Joining(edges, a, b)
  {
    if edges != [] {
      NeighborsAreJoined(edges[..|edges| - 1], a, b);
    }
  }

  // ---------- The entries sum to all edges plus cross edges ----------

  function TouchSum(edges: seq<Edge>, part: Assignment, n: nat): nat {
    if n == 0 then 0 else TouchSum(edges, part, n - 1) + Touching(edges, part, n - 1)
  }

  lemma {:induction false} TouchSumStep(edges: seq<Edge>, part: Assignment, n: nat)
    requires edges != []
    ensures var e := edges[|edges| - 1];
      TouchSum(edges, part, n) == TouchSum(edges[..|edges| - 1], part, n)
        + One(ShardOf(part, e.0) < n) + One(Crosses(part, e) && ShardOf(part, e.1) < n)
  {
    if n > 0 {
      TouchSumStep(edges, part, n - 1);
    }
  }

  lemma {:induction false} TouchSumNothing(part: Assignment, n: nat)
    ensures TouchSum([], part, n) == 0
  {
    if n > 0 {
      TouchSumNothing(part, n - 1);
    }
  }

  /** Over all shards, every edge is counted once, and a cross edge twice. */
  lemma {:induction false} EntriesSum(edges: seq<Edge>, part: Assignment, n: nat)
    requires forall e :: e in edges ==> ShardOf(part, e.0) < n && ShardOf(part, e.1) < n
    ensures TouchSum(edges, part, n) == |edges| + Crossing(edges, part)
  {
    if edges == [] {
      TouchSumNothing(part, n);
    } else {
      assert edges[|edges| - 1] in edges;
      EntriesSum(edges[..|edges| - 1], part, n);
      TouchSumStep(edges, part, n);
    }
  }

  // ---------- Counting over adjacency lists ----------

  /** What one adjacency list adds to the count of edges entering shard `k` from another shard. */
  function Entering(part: Assignment, from: nat, nbrs: seq<Vertex>, k: nat): nat {
    if nbrs == [] then 0
    else Entering(part, from, nbrs[..|nbrs| - 1], k)
           + One(ShardOf(part, nbrs[|nbrs| - 1]) == k && k != from)
  }

  /** What one adjacency list adds to the count of edge ends inside shard `k`. */
  function Staying(part: Assignment, from: nat, nbrs: seq<Vertex>, k: nat): nat {
    if nbrs == [] then 0
    else Staying(part, from, nbrs[..|nbrs| - 1], k)
           + One(ShardOf(part, nbrs[|nbrs| - 1]) == k && k == from)
  }

  /** The same, over the adjacency lists of the listed vertices. */
  function EnteringSum(edges: seq<Edge>, part: Assignment, order: seq<Vertex>, k: nat): nat {
    if order == [] then 0
    else
      var v := order[|order| - 1];
      EnteringSum(edges, part, order[..|order| - 1], k) + Entering(part, ShardOf(part, v), Neighbors(edges, v), k)
  }

  function StayingSum(edges: seq<Edge>, part: Assignment, order: seq<Vertex>, k: nat): nat {
    if order == [] then 0
    else
      var v := order[|order| - 1];
      StayingSum(edges, part, order[..|order| - 1], k) + Staying(part, ShardOf(part, v), Neighbors(edges, v), k)
  }

  ghost predicate Distinct(order: seq<Vertex>) {
    forall i, j :: 0 <= i < j < |order| ==> order[i] != order[j]
  }

  lemma EnteringSnoc(part: Assignment, from: nat, nbrs: seq<Vertex>, u: Vertex, k: nat)
    ensures Entering(part, from, nbrs + [u], k)
      == Entering(part, from, nbrs, k) + One(ShardOf(part, u) == k && k != from)
    ensures Staying(part, from, nbrs + [u], k) == Staying(part, from, nbrs, k) + One(ShardOf(part, u) == k && k == from)
  {
    assert (nbrs + [u])[..|nbrs + [u]| - 1] == nbrs;
  }

  lemma NeighborsStep(edges: seq<Edge>, part: Assignment, v: Vertex, k: nat)
    requires edges != []
    ensures var e, from := edges[|edges| - 1], ShardOf(part, v);
      Entering(part, from, Neighbors(edges, v), k)
        == Entering(part, from, Neighbors(edges[..|edges| - 1], v), k)
         + One(v == e.0 && ShardOf(part, e.1) == k && k != from) + One(v == e.1 && ShardOf(part, e.0) == k && k != from)
      && Staying(part, from, Neighbors(edges, v), k)
        == Staying(part, from, Neighbors(edges[..|edges| - 1], v), k)
         + One(v == e.0 && ShardOf(part, e.1) == k && k == from) + One(v == e.1 && ShardOf(part, e.0) == k && k == from)
  {
    var e, from, nbrs := edges[|edges| - 1], ShardOf(part, v), Neighbors(edges[..|edges| - 1], v);
    var more := nbrs + (if v == e.0 then [e.1] else []);
    assert nbrs + [] == nbrs && more + [] == more;
    EnteringSnoc(part, from, nbrs, e.1, k);
    EnteringSnoc(part, from, more, e.0, k);
  }

  /** One more edge adds to the sums what it adds from each end that is listed. */
  lemma {:induction false} SumsStep(edges: seq<Edge>, part: Assignment, order: seq<Vertex>, k: nat)
    requires edges != [] && Distinct(order)
    ensures var e, init := edges[|edges| - 1], edges[..|edges| - 1];
      var s, t := ShardOf(part, e.0), ShardOf(part, e.1);
      EnteringSum(edges, part, order, k) == EnteringSum(init, part, order, k)
        + One(e.0 in order && t == k && k != s) + One(e.1 in order && s == k && k != t)
      && StayingSum(edges, part, order, k) == StayingSum(init, part, order, k)
        + One(e.0 in order && t == k && k == s) + One(e.1 in order && s == k && k == t)
  {
    if order != [] {
      var rest, v := order[..|order| - 1], order[|order| - 1];
      assert order == rest + [v];
      SumsStep(edges, part, rest, k);
      NeighborsStep(edges, part, v, k);
    }
  }

  lemma {:induction false} SumsNothing(part: Assignment, order: seq<Vertex>, k: nat)
    ensures EnteringSum([], part, order, k) == 0 && StayingSum([], part, order, k) == 0
  {
    if order != [] {
      SumsNothing(part, order[..|order| - 1], k);
    }
  }

  ghost predicate EndsIn(edges: seq<Edge>, order: seq<Vertex>) {
    forall e :: e in edges ==> e.0 in order && e.1 in order
  }

  /** Number of edges with both ends in shard `k`. */
  function Inside(edges: seq<Edge>, part: Assignment, k: nat): nat {
    if edges == [] then 0
    else
      var e := edges[|edges| - 1];
      Inside(edges[..|edges| - 1], part, k) + One(ShardOf(part, e.0) == k && ShardOf(part, e.1) == k)
  }

  /** Walking all adjacency lists, in any order of the vertices, meets an edge touching `k` once
      when it enters `k` from elsewhere and twice when it is inside. */
  lemma {:induction false} WalkCounts(edges: seq<Edge>, part: Assignment, order: seq<Vertex>, k: nat)
    requires Distinct(order) && EndsIn(edges, order)
    ensures StayingSum(edges, part, order, k) == 2 * Inside(edges, part, k)
    ensures EnteringSum(edges, part, order, k) + Inside(edges, part, k) == Touching(edges, part, k)
  {
    if edges == [] {
      SumsNothing(part, order, k);
    } else {
      var e, init := edges[|edges| - 1], edges[..|edges| - 1];
      assert edges == init + [e];
      assert e in edges;
      WalkCounts(init, part, order, k);
      SumsStep(edges, part, order, k);
    }
  }

  function EnteringTotal(edges: seq<Edge>, part: Assignment, order: seq<Vertex>, n: nat): nat {
    if n == 0 then 0 else EnteringTotal(edges, part, order, n - 1) + EnteringSum(edges, part, order, n - 1)
  }

  lemma {:induction false} TotalStep(edges: seq<Edge>, part: Assignment, order: seq<Vertex>, n: nat)
    requires edges != [] && Distinct(order)
    ensures var e := edges[|edges| - 1];
      EnteringTotal(edges, part, order, n) == EnteringTotal(edges[..|edges| - 1], part, order, n)
        + One(e.0 in order && Crosses(part, e) && ShardOf(part, e.1) < n)
        + One(e.1 in order && Crosses(part, e) && ShardOf(part, e.0) < n)
  {
    if n > 0 {
      TotalStep(edges, part, order, n - 1);
      SumsStep(edges, part, order, n - 1);
    }
  }

  lemma {:induction false} TotalNothing(part: Assignment, order: seq<Vertex>, n: nat)
    ensures EnteringTotal([], part, order, n) == 0
  {
    if n > 0 {
      TotalNothing(part, order, n - 1);
      SumsNothing(part, order, n - 1);
    }
  }

  /** Each cross edge enters two shards. */
  lemma {:induction false} WalkCrosses(edges: seq<Edge>, part: Assignment, order: seq<Vertex>, n: nat)
    requires Distinct(order) && EndsIn(edges, order)
    requires forall e :: e in edges ==> ShardOf(part, e.0) < n && ShardOf(part, e.1) < n
    ensures EnteringTotal(edges, part, order, n) == 2 * Crossing(edges, part)
  {
    if edges == [] {
      TotalNothing(part, order, n);
    } else {
      var e, init := edges[|edges| - 1], edges[..|edges| - 1];
      assert edges == init + [e];
      assert e in edges;
      WalkCrosses(init, part, order, n);
      TotalStep(edges, part, order, n);
    }
  }

  // ---------- Moving one vertex ----------

  /** What the incremental update adds to entry `k` for one neighbour in shard `near`. */
  function Shift(near: nat, src: nat, dst: nat, k: nat): int {
    if near != dst && near != src then One(k == dst) - One(k == src)
    else if near == dst then 0 - One(k == src)
    else One(k == dst)
  }

  function CrossShift(near: nat, src: nat, dst: nat): int {
    if near != dst && near != src then 0 else if near == dst then -1 else 1
  }

  function Shifts(part: Assignment, nbrs: seq<Vertex>, src: nat, dst: nat, k: nat): int {
    if nbrs == [] then 0
    else Shifts(part, nbrs[..|nbrs| - 1], src, dst, k) + Shift(ShardOf(part, nbrs[|nbrs| - 1]), src, dst, k)
  }

  function CrossShifts(part: Assignment, nbrs: seq<Vertex>, src: nat, dst: nat): int {
    if nbrs == [] then 0
    else CrossShifts(part, nbrs[..|nbrs| - 1], src, dst) + CrossShift(ShardOf(part, nbrs[|nbrs| - 1]), src, dst)
  }

  lemma ShiftsSnoc(part: Assignment, nbrs: seq<Vertex>, u: Vertex, src: nat, dst: nat, k: nat)
    ensures Shifts(part, nbrs + [u], src, dst, k)
      == Shifts(part, nbrs, src, dst, k) + Shift(ShardOf(part, u), src, dst, k)
    ensures CrossShifts(part, nbrs + [u], src, dst)
      == CrossShifts(part, nbrs, src, dst) + CrossShift(ShardOf(part, u), src, dst)
  {
    assert (nbrs + [u])[..|nbrs + [u]| - 1] == nbrs;
  }

  lemma ShiftsStep(edges: seq<Edge>, part: Assignment, v: Vertex, src: nat, dst: nat, k: nat)
    requires edges != []
    ensures var e, init := edges[|edges| - 1], edges[..|edges| - 1];
      Shifts(part, Neighbors(edges, v), src, dst, k)
        == Shifts(part, Neighbors(init, v), src, dst, k)
         + (if v == e.0 then Shift(ShardOf(part, e.1), src, dst, k) else 0)
         + (if v == e.1 then Shift(ShardOf(part, e.0), src, dst, k) else 0)
      && CrossShifts(part, Neighbors(edges, v), src, dst)
        == CrossShifts(part, Neighbors(init, v), src, dst)
         + (if v == e.0 then CrossShift(ShardOf(part, e.1), src, dst) else 0)
         + (if v == e.1 then CrossShift(ShardOf(part, e.0), src, dst) else 0)
  {
    var e, nbrs := edges[|edges| - 1], Neighbors(edges[..|edges| - 1], v);
    var more := nbrs + (if v == e.0 then [e.1] else []);
    assert nbrs + [] == nbrs && more + [] == more;
    ShiftsSnoc(part, nbrs, e.1, src, dst, k);
    ShiftsSnoc(part, more, e.0, src, dst, k);
  }

  /** The change one edge makes, seen from each of its ends. */
  lemma EdgeChanges(e: Edge, part: Assignment, v: Vertex, dst: nat, k: nat)
    requires ShardOf(part, v) != dst
    ensures var src, after := ShardOf(part, v), part[v := dst];
      One(Touches(after, e, k)) == One(Touches(part, e, k))
        + (if v == e.0 then Shift(ShardOf(after, e.1), src, dst, k) else 0)
        + (if v == e.1 then Shift(ShardOf(after, e.0), src, dst, k) else 0)
        + (if (k == src || k == dst) && e == (v, v) then 1 else 0)
    ensures var src, after := ShardOf(part, v), part[v := dst];
      One(Crosses(after, e)) == One(Crosses(part, e))
        + (if v == e.0 then CrossShift(ShardOf(after, e.1), src, dst) else 0)
        + (if v == e.1 then CrossShift(ShardOf(after, e.0), src, dst) else 0)
        + (if e == (v, v) then 2 else 0)
  {
    assert e == (e.0, e.1);
  }

  /** The incremental update against the true change: it is off by the self-loops of the vertex. */
  lemma {:induction false} MoveChanges(edges: seq<Edge>, part: Assignment, v: Vertex, dst: nat, k: nat)
    requires ShardOf(part, v) != dst
    ensures var src, after := ShardOf(part, v), part[v := dst];
      Touching(edges, after, k) == Touching(edges, part, k) + Shifts(after, Neighbors(edges, v), src, dst, k)
        + (if k == src || k == dst then Loops(edges, v) else 0)
      && Crossing(edges, after) == Crossing(edges, part) + CrossShifts(after, Neighbors(edges, v), src, dst)
        + 2 * Loops(edges, v)
  {
    if edges != [] {
      MoveChanges(edges[..|edges| - 1], part, v, dst, k);
      ShiftsStep(edges, part[v := dst], v, ShardOf(part, v), dst, k);
      EdgeChanges(edges[|edges| - 1], part, v, dst, k);
    }
  }

  /** The incremental update gives the recounted entries and cross number after a move if and only
      if the moved vertex has no edge to itself. */
  lemma IncrementalIsRecount(edges: seq<Edge>, part: Assignment, v: Vertex, dst: nat)
    requires ShardOf(part, v) != dst
    ensures var src, after := ShardOf(part, v), part[v := dst];
      (v, v) !in edges <==>
        (forall k: nat :: Touching(edges, part, k) + Shifts(after, Neighbors(edges, v), src, dst, k)
          == Touching(edges, after, k))
        && Crossing(edges, part) + CrossShifts(after, Neighbors(edges, v), src, dst) == Crossing(edges, after)
  {
    NoLoops(edges, v);
    forall k: nat ensures Loops(edges, v) == 0 ==>
      Touching(edges, part, k) + Shifts(part[v := dst], Neighbors(edges, v), ShardOf(part, v), dst, k)
        == Touching(edges, part[v := dst], k)
    {
      MoveChanges(edges, part, v, dst, k);
    }
    MoveChanges(edges, part, v, dst, dst);
  }

  // ---------- Occupancy ----------

  /** The vertices assigned to shard `k`. */
  function Members(vertices: set<Vertex>, part: Assignment, k: nat): set<Vertex> {
    set v | v in vertices && ShardOf(part, v) == k
  }

  lemma MemberMoves(vertices: set<Vertex>, part: Assignment, v: Vertex, dst: nat, k: nat)
    requires v in vertices && ShardOf(part, v) != dst
    ensures |Members(vertices, part[v := dst], k)|
         == |Members(vertices, part, k)| + One(k == dst) - One(k == ShardOf(part, v))
  {
    var before, after := Members(vertices, part, k), Members(vertices, part[v := dst], k);
    if k == dst {
      assert after == before + {v};
    } else if k == ShardOf(part, v) {
      assert after == before - {v};
    } else {
      assert after == before;
    }
  }

  lemma MemberJoins(vertices: set<Vertex>, part: Assignment, v: Vertex, part': Assignment, k: nat)
    requires v !in vertices
    requires forall u :: u in vertices ==> ShardOf(part', u) == ShardOf(part, u)
    ensures |Members(vertices + {v}, part', k)| == |Members(vertices, part, k)| + One(k == ShardOf(part', v))
  {
    var before, after := Members(vertices, part, k), Members(vertices + {v}, part', k);
    if k == ShardOf(part', v) {
      assert after == before + {v};
    } else {
      assert after == before;
    }
  }
}
