/**
 The graph partitioner: its state is updated in place, vertex by vertex and edge by edge, and must
 agree with what the graph and the assignment mean.
 */
module Clpa {
  import opened Graphs

  const MAX_INT: int := 0x7FFF_FFFF_FFFF_FFFF
  const MAX_MOVES: nat := 50

  // ---------- What the fields mean ----------

  type Adjacency = map<Vertex, seq<Vertex>>

  function AdjOf(adj: Adjacency, v: Vertex): seq<Vertex> {
    if v in adj then adj[v] else []
  }

  /** The adjacency lists are those of the graph. */
  ghost predicate AdjacencyOk(adj: Adjacency, edges: seq<Edge>) {
    (forall v :: AdjOf(adj, v) == Neighbors(edges, v)) && forall e :: e in edges ==> e.0 in adj && e.1 in adj
  }

  ghost predicate AssignmentOk(part: Assignment, vertices: set<Vertex>, n: nat) {
    vertices <= part.Keys && forall v :: v in part ==> part[v] < n
  }

  /** Entry `k` is the number of edges touching shard `k`. */
  ghost predicate EntriesOk(entries: seq<int>, edges: seq<Edge>, part: Assignment) {
    forall k :: 0 <= k < |entries| ==> entries[k] == Touching(edges, part, k)
  }

  /** Counter `k` is the number of vertices in shard `k`. */
  ghost predicate OccupancyOk(counts: seq<int>, vertices: set<Vertex>, part: Assignment) {
    forall k :: 0 <= k < |counts| ==> counts[k] == |Members(vertices, part, k)|
  }

  /** The smallest entry, capped by the largest machine integer. */
  ghost predicate IsMin(entries: seq<int>, m: int) {
    m <= MAX_INT && (forall x :: x in entries ==> m <= x) && (m == MAX_INT || m in entries)
  }

  function AddBoth(adj: Adjacency, u: Vertex, v: Vertex): Adjacency {
    var one := adj[u := AdjOf(adj, u) + [v]];
    one[v := AdjOf(one, v) + [u]]
  }

  lemma AdjacencyGrows(adj: Adjacency, edges: seq<Edge>, u: Vertex, v: Vertex)
    requires AdjacencyOk(adj, edges)
    ensures AdjacencyOk(AddBoth(adj, u, v), edges + [(u, v)])
  {
    var all := edges + [(u, v)];
    assert all[..|all| - 1] == edges;
    forall x ensures AdjOf(AddBoth(adj, u, v), x) == Neighbors(all, x) {
      assert AdjOf(adj, x) == Neighbors(edges, x);
      assert Neighbors(edges, x) + [] == Neighbors(edges, x);
    }
  }

  lemma OccupancyJoins(counts: seq<int>, vertices: set<Vertex>, part: Assignment, v: Vertex, part': Assignment)
    requires OccupancyOk(counts, vertices, part) && vertices <= part.Keys
    requires v in part' && part'[v] < |counts| && part' == if v in part then part else part[v := part'[v]]
    ensures var counts' := counts[part'[v] := counts[part'[v]] + 1];
      OccupancyOk(counts', vertices + {v}, part') <==> v !in vertices
  {
    var counts' := counts[part'[v] := counts[part'[v]] + 1];
    if v !in vertices {
      forall k: nat | k < |counts'| ensures counts'[k] == |Members(vertices + {v}, part', k)| {
        MemberJoins(vertices, part, v, part', k);
      }
    } else {
      assert vertices + {v} == vertices && part' == part;
      assert counts'[part'[v]] != |Members(vertices + {v}, part', part'[v])|;
    }
  }

  lemma OccupancyMoves(counts: seq<int>, vertices: set<Vertex>, part: Assignment, v: Vertex, dst: nat)
    requires OccupancyOk(counts, vertices, part) && v in vertices && v in part
    requires part[v] < |counts| && dst < |counts| && part[v] != dst
    ensures OccupancyOk(counts[part[v] := counts[part[v]] - 1][dst := counts[dst] + 1], vertices, part[v := dst])
  {
    var counts' := counts[part[v] := counts[part[v]] - 1][dst := counts[dst] + 1];
    forall k: nat | k < |counts'| ensures counts'[k] == |Members(vertices, part[v := dst], k)| {
      MemberMoves(vertices, part, v, dst, k);
    }
  }

  /** The entries after the incremental update. */
  ghost predicate Shifted(before: seq<int>, after: seq<int>, part: Assignment, nbrs: seq<Vertex>, src: nat, dst: nat) {
    |before| == |after|
    && forall k :: 0 <= k < |after| ==> after[k] == before[k] + Shifts(part, nbrs, src, dst, k)
  }

  lemma ShiftedNothing(entries: seq<int>, part: Assignment, src: nat, dst: nat)
    ensures Shifted(entries, entries, part, [], src, dst)
  {
  }

  lemma ShiftedSnoc(before: seq<int>, mid: seq<int>, after: seq<int>, part: Assignment, nbrs: seq<Vertex>,
                    u: Vertex, src: nat, dst: nat)
    requires Shifted(before, mid, part, nbrs, src, dst) && |after| == |mid|
    requires forall k :: 0 <= k < |after| ==> after[k] == mid[k] + Shift(ShardOf(part, u), src, dst, k)
    ensures Shifted(before, after, part, nbrs + [u], src, dst)
    ensures CrossShifts(part, nbrs + [u], src, dst)
      == CrossShifts(part, nbrs, src, dst) + CrossShift(ShardOf(part, u), src, dst)
  {
    ShiftsSnoc(part, nbrs, u, src, dst, 0);
    forall k: nat | k < |after| ensures after[k] == before[k] + Shifts(part, nbrs + [u], src, dst, k) {
      ShiftsSnoc(part, nbrs, u, src, dst, k);
    }
  }

  /** Entries and cross number that were right stay right under the incremental update exactly when
      the moved vertex has no edge to itself. */
  lemma ShiftedIsRecount(before: seq<int>, after: seq<int>, cross: int, edges: seq<Edge>, part: Assignment,
      v: Vertex, dst: nat)
    requires EntriesOk(before, edges, part) && cross == Crossing(edges, part) && ShardOf(part, v) != dst
    requires Shifted(before, after, part[v := dst], Neighbors(edges, v), ShardOf(part, v), dst)
    ensures (v, v) !in edges <==>
      EntriesOk(after, edges, part[v := dst])
      && cross + CrossShifts(part[v := dst], Neighbors(edges, v), ShardOf(part, v), dst)
        == Crossing(edges, part[v := dst])
  {
    NoLoops(edges, v);
    MoveChanges(edges, part, v, dst, dst);
    forall k: nat | k < |after|
      ensures Touching(edges, part[v := dst], k)
           == after[k] + if k == ShardOf(part, v) || k == dst then Loops(edges, v) else 0
    {
      MoveChanges(edges, part, v, dst, k);
    }
  }

  // ---------- Walking the adjacency lists ----------

  /** The counters of a walk over the adjacency lists of the listed vertices. */
  ghost predicate Walked(entering: seq<int>, staying: seq<int>, edges: seq<Edge>, part: Assignment,
      order: seq<Vertex>) {
    |entering| == |staying|
    && forall k :: 0 <= k < |entering| ==>
         entering[k] == EnteringSum(edges, part, order, k) && staying[k] == StayingSum(edges, part, order, k)
  }

  /** ... and of the first entries of one more list. */
  ghost predicate Walking(entering: seq<int>, staying: seq<int>, edges: seq<Edge>, part: Assignment, order: seq<Vertex>,
                          from: nat, nbrs: seq<Vertex>) {
    |entering| == |staying|
    && forall k :: 0 <= k < |entering| ==>
         entering[k] == EnteringSum(edges, part, order, k) + Entering(part, from, nbrs, k)
         && staying[k] == StayingSum(edges, part, order, k) + Staying(part, from, nbrs, k)
  }

  lemma WalkingSnoc(entering: seq<int>, staying: seq<int>, edges: seq<Edge>, part: Assignment, order: seq<Vertex>,
                    from: nat, nbrs: seq<Vertex>, u: Vertex)
    requires Walking(entering, staying, edges, part, order, from, nbrs) && ShardOf(part, u) < |entering|
    ensures var to := ShardOf(part, u);
      from != to ==> Walking(entering[to := entering[to] + 1], staying, edges, part, order, from, nbrs + [u])
    ensures var to := ShardOf(part, u);
      from == to ==> Walking(entering, staying[to := staying[to] + 1], edges, part, order, from, nbrs + [u])
  {
    forall k: nat | k < |entering|
      ensures Entering(part, from, nbrs + [u], k)
        == Entering(part, from, nbrs, k) + (if ShardOf(part, u) == k && k != from then 1 else 0)
      ensures Staying(part, from, nbrs + [u], k)
        == Staying(part, from, nbrs, k) + (if ShardOf(part, u) == k && k == from then 1 else 0)
    {
      EnteringSnoc(part, from, nbrs, u, k);
    }
  }

  lemma WalkedSnoc(entering: seq<int>, staying: seq<int>, edges: seq<Edge>, part: Assignment, order: seq<Vertex>,
      v: Vertex)
    requires Walking(entering, staying, edges, part, order, ShardOf(part, v), Neighbors(edges, v))
    ensures Walked(entering, staying, edges, part, order + [v])
  {
    assert (order + [v])[..|order + [v]| - 1] == order;
  }

  lemma DistinctSnoc(order: seq<Vertex>, v: Vertex)
    requires Distinct(order) && v !in order
    ensures Distinct(order + [v])
  {
  }

  /** Entry `k` of a walk over all vertices, completed. */
  lemma WalkedEntry(entering: seq<int>, staying: seq<int>, edges: seq<Edge>, part: Assignment, order: seq<Vertex>,
      k: nat)
    requires Walked(entering, staying, edges, part, order) && Distinct(order) && EndsIn(edges, order) && k < |entering|
    ensures entering[k] + staying[k] / 2 == Touching(edges, part, k)
  {
    WalkCounts(edges, part, order, k);
  }

  lemma WalkedNothing(entering: seq<int>, staying: seq<int>, edges: seq<Edge>, part: Assignment)
    requires |entering| == |staying| && forall k :: 0 <= k < |entering| ==> entering[k] == 0 && staying[k] == 0
    ensures Walked(entering, staying, edges, part, [])
  {
  }

  // ---------- Runs of the partitioner ----------

  /** One vertex relabelled by a run of the partitioner. */
  datatype Move = Move(v: Vertex, src: nat, dst: nat)

  function Play(part: Assignment, moves: seq<Move>): Assignment {
    if moves == [] then part
    else
      var m := moves[|moves| - 1];
      Play(part, moves[..|moves| - 1])[m.v := m.dst]
  }

  function MovesOf(moves: seq<Move>, v: Vertex): nat {
    if moves == [] then 0
    else MovesOf(moves[..|moves| - 1], v) + if moves[|moves| - 1].v == v then 1 else 0
  }

  /** Move number `i` takes its vertex to the shard some neighbour of it has at that time. */
  ghost predicate FollowsNeighbor(edges: seq<Edge>, part: Assignment, moves: seq<Move>, i: nat)
    requires i < |moves|
  {
    var now := Play(part, moves[..i]);
    moves[i].src == ShardOf(now, moves[i].v) != moves[i].dst
    && exists u :: u in Neighbors(edges, moves[i].v) && ShardOf(now, u) == moves[i].dst
  }

  ghost predicate AllFollow(edges: seq<Edge>, part: Assignment, moves: seq<Move>) {
    forall i: nat :: i < |moves| ==> FollowsNeighbor(edges, part, moves, i)
  }

  /** Every move changes its vertex's shard, and its vertex has no edge to itself. */
  ghost predicate Legal(edges: seq<Edge>, part: Assignment, moves: seq<Move>) {
    moves != [] ==>
      var init, m := moves[..|moves| - 1], moves[|moves| - 1];
      Legal(edges, part, init) && ShardOf(Play(part, init), m.v) == m.src != m.dst && (m.v, m.v) !in edges
  }

  /** Entry `k` as the incremental update keeps it over a sequence of moves, from a first count. */
  function KeptEntry(edges: seq<Edge>, part: Assignment, moves: seq<Move>, k: nat): int {
    if moves == [] then Touching(edges, part, k)
    else
      var m := moves[|moves| - 1];
      KeptEntry(edges, part, moves[..|moves| - 1], k)
        + Shifts(Play(part, moves), Neighbors(edges, m.v), m.src, m.dst, k)
  }

  function KeptCross(edges: seq<Edge>, part: Assignment, moves: seq<Move>): int {
    if moves == [] then Crossing(edges, part)
    else
      var m := moves[|moves| - 1];
      KeptCross(edges, part, moves[..|moves| - 1]) + CrossShifts(Play(part, moves), Neighbors(edges, m.v), m.src, m.dst)
  }

  /** After any sequence of moves the incrementally kept numbers are those of a fresh count. */
  lemma {:induction false} KeptIsRecount(edges: seq<Edge>, part: Assignment, moves: seq<Move>, k: nat)
    requires Legal(edges, part, moves)
    ensures KeptEntry(edges, part, moves, k) == Touching(edges, Play(part, moves), k)
    ensures KeptCross(edges, part, moves) == Crossing(edges, Play(part, moves))
  {
    if moves != [] {
      var init, m := moves[..|moves| - 1], moves[|moves| - 1];
      KeptIsRecount(edges, part, init, k);
      NoLoops(edges, m.v);
      MoveChanges(edges, Play(part, init), m.v, m.dst, k);
    }
  }

  function Times(moved: map<Vertex, nat>, v: Vertex): nat {
    if v in moved then moved[v] else 0
  }

  /** How a run has got from `start` to `part`. */
  ghost predicate Progress(edges: seq<Edge>, start: Assignment, part: Assignment, res: Assignment,
                           moves: seq<Move>, moved: map<Vertex, nat>)
  {
    part == start + res && part == Play(start, moves) && AllFollow(edges, start, moves) && MovesCounted(moves, moved)
  }

  ghost predicate MovesCounted(moves: seq<Move>, moved: map<Vertex, nat>) {
    forall v :: MovesOf(moves, v) == Times(moved, v) <= MAX_MOVES
  }

  lemma CountSnoc(moves: seq<Move>, moved: map<Vertex, nat>, m: Move)
    requires MovesCounted(moves, moved) && Times(moved, m.v) < MAX_MOVES
    ensures MovesCounted(moves + [m], moved[m.v := Times(moved, m.v) + 1])
  {
    assert (moves + [m])[..|moves + [m]| - 1] == moves;
    forall v ensures MovesOf(moves + [m], v) == Times(moved[m.v := Times(moved, m.v) + 1], v) <= MAX_MOVES {
      assert MovesOf(moves, v) == Times(moved, v);
    }
  }

  lemma OverlaySnoc(start: Assignment, res: Assignment, v: Vertex, dst: nat)
    ensures (start + res)[v := dst] == start + res[v := dst]
  {
    var x, y := (start + res)[v := dst], start + res[v := dst];
    assert x.Keys == y.Keys;
    assert forall u :: u in x ==> x[u] == y[u];
  }

  lemma MovesSnoc(part: Assignment, moves: seq<Move>, m: Move)
    ensures Play(part, moves + [m]) == Play(part, moves)[m.v := m.dst]
    ensures forall x :: MovesOf(moves + [m], x) == MovesOf(moves, x) + if x == m.v then 1 else 0
  {
    assert (moves + [m])[..|moves + [m]| - 1] == moves;
  }

  lemma FollowSnoc(edges: seq<Edge>, start: Assignment, moves: seq<Move>, m: Move, u: Vertex)
    requires AllFollow(edges, start, moves)
    requires m.src == ShardOf(Play(start, moves), m.v) != m.dst
    requires u in Neighbors(edges, m.v) && ShardOf(Play(start, moves), u) == m.dst
    ensures AllFollow(edges, start, moves + [m])
  {
    forall i: nat | i < |moves + [m]| ensures FollowsNeighbor(edges, start, moves + [m], i) {
      if i < |moves| {
        assert FollowsNeighbor(edges, start, moves, i);
        assert (moves + [m])[..i] == moves[..i];
      } else {
        assert (moves + [m])[..i] == moves;
      }
    }
  }

  lemma ProgressMoves(edges: seq<Edge>, start: Assignment, part: Assignment, res: Assignment,
                      moves: seq<Move>, moved: map<Vertex, nat>, v: Vertex, u: Vertex, dst: nat)
    requires Progress(edges, start, part, res, moves, moved) && Times(moved, v) < MAX_MOVES
    requires ShardOf(part, v) != dst && u in Neighbors(edges, v) && ShardOf(part, u) == dst
    ensures Progress(edges, start, part[v := dst], res[v := dst], moves + [Move(v, ShardOf(part, v), dst)],
                     moved[v := Times(moved, v) + 1])
  {
    var m := Move(v, ShardOf(part, v), dst);
    MovesSnoc(start, moves, m);
    FollowSnoc(edges, start, moves, m, u);
    CountSnoc(moves, moved, m);
    OverlaySnoc(start, res, v, dst);
  }

  /** Every shard that had a vertex still has one. */
  ghost predicate NoneEmptied(vertices: set<Vertex>, start: Assignment, counts: seq<int>) {
    forall k :: 0 <= k < |counts| && Members(vertices, start, k) != {} ==> counts[k] > 0
  }

  lemma NoneEmptiedMoves(vertices: set<Vertex>, start: Assignment, counts: seq<int>, src: nat, dst: nat)
    requires NoneEmptied(vertices, start, counts) && src < |counts| && dst < |counts| && src != dst
    requires counts[src] > 1 && counts[dst] >= 0
    ensures NoneEmptied(vertices, start, counts[src := counts[src] - 1][dst := counts[dst] + 1])
  {
  }

  /** Everything a run keeps: how it got here, and that it emptied no shard. */
  ghost predicate OnTrack(vertices: set<Vertex>, edges: seq<Edge>, start: Assignment, part: Assignment,
      counts: seq<int>,
                          res: Assignment, moves: seq<Move>, moved: map<Vertex, nat>)
  {
    Progress(edges, start, part, res, moves, moved) && NoneEmptied(vertices, start, counts)
  }

  lemma OnTrackMoves(vertices: set<Vertex>, edges: seq<Edge>, start: Assignment, part: Assignment, counts: seq<int>,
                     res: Assignment, moves: seq<Move>, moved: map<Vertex, nat>, v: Vertex, u: Vertex, dst: nat)
    requires OnTrack(vertices, edges, start, part, counts, res, moves, moved) && OccupancyOk(counts, vertices, part)
    requires Times(moved, v) < MAX_MOVES && u in Neighbors(edges, v) && ShardOf(part, u) == dst
    requires v in part && part[v] != dst && part[v] < |counts| && dst < |counts| && counts[part[v]] > 1
    ensures OnTrack(vertices, edges, start, part[v := dst],
      counts[part[v] := counts[part[v]] - 1][dst := counts[dst] + 1],
                    res[v := dst], moves + [Move(v, part[v], dst)], moved[v := Times(moved, v) + 1])
  {
    ProgressMoves(edges, start, part, res, moves, moved, v, u, dst);
    NoneEmptiedMoves(vertices, start, counts, part[v], dst);
  }

  lemma OnTrackThen(vertices: set<Vertex>, edges: seq<Edge>, start: Assignment, part: Assignment, counts: seq<int>,
                    res: Assignment, moves: seq<Move>, moved: map<Vertex, nat>, v: Vertex, u: Vertex, dst: nat,
                    part': Assignment, counts': seq<int>)
    requires OnTrack(vertices, edges, start, part, counts, res, moves, moved) && OccupancyOk(counts, vertices, part)
    requires Times(moved, v) < MAX_MOVES && u in Neighbors(edges, v) && ShardOf(part, u) == dst
    requires v in part && part[v] != dst && part[v] < |counts| && dst < |counts| && counts[part[v]] > 1
    requires part' == part[v := dst]
    requires counts' == counts[part[v] := counts[part[v]] - 1][dst := counts[dst] + 1]
    ensures OnTrack(vertices, edges, start, part', counts', res[v := dst], moves + [Move(v, part[v], dst)],
                    moved[v := Times(moved, v) + 1])
  {
    OnTrackMoves(vertices, edges, start, part, counts, res, moves, moved, v, u, dst);
  }

  lemma NoneEmptyAtStart(vertices: set<Vertex>, start: Assignment, counts: seq<int>)
    requires OccupancyOk(counts, vertices, start)
    ensures NoneEmptied(vertices, start, counts)
  {
  }

  lemma NoneEmptyAtEnd(vertices: set<Vertex>, start: Assignment, part: Assignment, counts: seq<int>)
    requires NoneEmptied(vertices, start, counts) && OccupancyOk(counts, vertices, part)
    ensures forall k :: 0 <= k < |counts| && Members(vertices, start, k) != {} ==> Members(vertices, part, k) != {}
  {
  }

  // ---------- Which label a vertex takes ----------

  /** What a score is computed from. */
  datatype Scene = Scene(adj: Adjacency, part: Assignment, entries: seq<int>, minEntry: int)

  /** The score of putting a vertex into a shard. */
  type Score = (Scene, Vertex, nat) -> real

  const NO_SCORE: real := -9999.0

  /** The score of the shard of neighbour number `i`. */
  function ScoreAt(score: Score, scene: Scene, v: Vertex, i: nat): real
    requires i < |AdjOf(scene.adj, v)|
  {
    score(scene, v, ShardOf(scene.part, AdjOf(scene.adj, v)[i]))
  }

  /** Among the first `n` neighbours, `i` is the first whose shard has the best score, and that is above the
      least one that counts. */
  ghost predicate TopsFirst(score: Score, scene: Scene, v: Vertex, n: nat, i: nat) {
    i < n <= |AdjOf(scene.adj, v)| && ScoreAt(score, scene, v, i) > -9999.0
    && (forall j: nat :: j < n ==> ScoreAt(score, scene, v, j) <= ScoreAt(score, scene, v, i))
    && (forall j: nat :: j < i ==> ScoreAt(score, scene, v, j) < ScoreAt(score, scene, v, i))
  }

  /** ... among all neighbours. */
  ghost predicate Tops(score: Score, scene: Scene, v: Vertex, i: nat) {
    TopsFirst(score, scene, v, |AdjOf(scene.adj, v)|, i)
  }

  /** The label chosen after the first `n` neighbours, and its score. */
  datatype Choice = Choice(pick: nat, top: real)

  function Choose(score: Score, scene: Scene, v: Vertex, n: nat): Choice
    requires n <= |AdjOf(scene.adj, v)|
  {
    if n == 0 then Choice(ShardOf(scene.part, v), NO_SCORE)
    else
      var prev, x := Choose(score, scene, v, n - 1), ScoreAt(score, scene, v, n - 1);
      if prev.top < x then Choice(ShardOf(scene.part, AdjOf(scene.adj, v)[n - 1]), x) else prev
  }

  function BestLabel(score: Score, scene: Scene, v: Vertex): nat {
    Choose(score, scene, v, |AdjOf(scene.adj, v)|).pick
  }

  /** The choice is the own label with no score, or the label of the neighbour that tops the others. */
  ghost predicate ChosenBy(score: Score, scene: Scene, v: Vertex, n: nat, i: nat)
    requires n <= |AdjOf(scene.adj, v)|
  {
    TopsFirst(score, scene, v, n, i)
    && Choose(score, scene, v, n) == Choice(ShardOf(scene.part, AdjOf(scene.adj, v)[i]), ScoreAt(score, scene, v, i))
  }

  lemma {:induction false} ChooseTops(score: Score, scene: Scene, v: Vertex, n: nat) returns (i: nat)
    requires n <= |AdjOf(scene.adj, v)|
    ensures forall j: nat :: j < n ==> ScoreAt(score, scene, v, j) <= Choose(score, scene, v, n).top
    ensures Choose(score, scene, v, n).top > -9999.0 ==> ChosenBy(score, scene, v, n, i)
    ensures Choose(score, scene, v, n).top <= -9999.0 ==>
      Choose(score, scene, v, n) == Choice(ShardOf(scene.part, v), -9999.0)
  {
    i := 0;
    if n > 0 {
      i := ChooseTops(score, scene, v, n - 1);
      if Choose(score, scene, v, n - 1).top < ScoreAt(score, scene, v, n - 1) {
        i := n - 1;
      }
    }
  }

  /** The best label is that of the first neighbour whose shard has the best score above -9999; without one it
      is the vertex's own. */
  lemma BestLabelTops(score: Score, scene: Scene, v: Vertex)
    ensures forall i: nat :: Tops(score, scene, v, i) ==>
      BestLabel(score, scene, v) == ShardOf(scene.part, AdjOf(scene.adj, v)[i])
    ensures (forall i: nat :: !Tops(score, scene, v, i)) ==> BestLabel(score, scene, v) == ShardOf(scene.part, v)
    ensures (forall i: nat :: !Tops(score, scene, v, i)) <==>
      forall j: nat :: j < |AdjOf(scene.adj, v)| ==> ScoreAt(score, scene, v, j) <= -9999.0
  {
    var n := |AdjOf(scene.adj, v)|;
    var t := ChooseTops(score, scene, v, n);
    if Choose(score, scene, v, n).top > -9999.0 {
      assert Tops(score, scene, v, t);
      forall i: nat | Tops(score, scene, v, i) ensures i == t {
        TopsOnce(score, scene, v, i, t);
      }
    }
  }

  lemma TopsOnce(score: Score, scene: Scene, v: Vertex, i: nat, j: nat)
    requires Tops(score, scene, v, i) && Tops(score, scene, v, j)
    ensures i == j
  {
  }

  // ---------- A run, visit by visit ----------

  /** What the partitioner changes while it runs. */
  datatype Labels = Labels(
    part: Assignment, entries: seq<int>, minEntry: int, counts: seq<int>, res: Assignment, moved: map<Vertex, nat>)

  function SceneOf(adj: Adjacency, s: Labels): Scene {
    Scene(adj, s.part, s.entries, s.minEntry)
  }

  /** The vertex has moves left and is not the last of its shard. */
  predicate MayMove(s: Labels, v: Vertex) {
    Times(s.moved, v) < MAX_MOVES && ShardOf(s.part, v) < |s.counts| && s.counts[ShardOf(s.part, v)] > 1
  }

  /** Visiting `v` leads from `s` to `t`. */
  ghost predicate VisitStep(score: Score, adj: Adjacency, s: Labels, v: Vertex, t: Labels) {
    var own, best := ShardOf(s.part, v), BestLabel(score, SceneOf(adj, s), v);
    if !MayMove(s, v) || best == own then t == s
    else
      t.part == s.part[v := best] && t.res == s.res[v := best] && t.moved == s.moved[v := Times(s.moved, v) + 1]
      && best < |s.counts| && t.counts == s.counts[own := s.counts[own] - 1][best := s.counts[best] + 1]
      && Shifted(s.entries, t.entries, t.part, AdjOf(adj, v), own, best) && IsMin(t.entries, t.minEntry)
  }

  lemma StepMade(score: Score, adj: Adjacency, edges: seq<Edge>, s: Labels, v: Vertex, dst: nat, t: Labels)
    requires AdjacencyOk(adj, edges) && v in s.part && s.part[v] < |s.counts| && s.part[v] != dst && dst < |s.counts|
    requires dst == BestLabel(score, SceneOf(adj, s), v) && MayMove(s, v)
    requires t.part == s.part[v := dst] && t.res == s.res[v := dst] && t.moved == s.moved[v := Times(s.moved, v) + 1]
    requires t.counts == s.counts[s.part[v] := s.counts[s.part[v]] - 1][dst := s.counts[dst] + 1]
    requires Shifted(s.entries, t.entries, t.part, Neighbors(edges, v), s.part[v], dst) && IsMin(t.entries, t.minEntry)
    ensures VisitStep(score, adj, s, v, t)
  {
    assert AdjOf(adj, v) == Neighbors(edges, v);
  }

  /** A visit with moves left takes the vertex to the shard of the neighbour that tops the others, and to no
      other; without moves left, or alone in its shard, it stays. */
  lemma VisitFollowsScore(score: Score, adj: Adjacency, s: Labels, v: Vertex, t: Labels)
    requires VisitStep(score, adj, s, v, t) && v in s.part
    ensures MayMove(s, v) ==> forall i: nat :: Tops(score, SceneOf(adj, s), v, i) ==>
      t.part == s.part[v := ShardOf(s.part, AdjOf(adj, v)[i])]
    ensures !MayMove(s, v) || (forall i: nat :: !Tops(score, SceneOf(adj, s), v, i)) ==> t == s
  {
    BestLabelTops(score, SceneOf(adj, s), v);
    assert s.part[v := s.part[v]] == s.part;
  }

  /** The vertices visited, and the state before, between and after the visits. */
  datatype Log = Log(visits: seq<Vertex>, states: seq<Labels>)

  ghost predicate LogOk(score: Score, adj: Adjacency, log: Log) {
    |log.states| == |log.visits| + 1 && forall i: nat :: i < |log.visits| ==> LogAt(score, adj, log, i)
  }

  ghost predicate LogAt(score: Score, adj: Adjacency, log: Log, i: nat)
    requires i < |log.visits| && |log.states| == |log.visits| + 1
  {
    VisitStep(score, adj, log.states[i], log.visits[i], log.states[i + 1])
  }

  ghost predicate LogEnds(score: Score, adj: Adjacency, log: Log, s: Labels) {
    LogOk(score, adj, log) && log.states[|log.visits|] == s
  }

  lemma LogGrows(score: Score, adj: Adjacency, log: Log, s: Labels, v: Vertex, t: Labels)
    requires LogEnds(score, adj, log, s) && VisitStep(score, adj, s, v, t)
    ensures LogEnds(score, adj, Log(log.visits + [v], log.states + [t]), t)
  {
    var longer := Log(log.visits + [v], log.states + [t]);
    forall i: nat | i < |longer.visits| ensures LogAt(score, adj, longer, i) {
      if i < |log.visits| {
        assert LogAt(score, adj, log, i);
      }
    }
  }

  /** The list holds every vertex once. */
  ghost predicate Lists(order: seq<Vertex>, vertices: set<Vertex>) {
    Distinct(order) && forall v :: v in order <==> v in vertices
  }

  lemma ListsSnoc(order: seq<Vertex>, vertices: set<Vertex>, todo: set<Vertex>, v: Vertex)
    requires v in vertices && v !in todo && Lists(order, vertices - (todo + {v}))
    ensures Lists(order + [v], vertices - todo)
  {
    DistinctSnoc(order, v);
  }

  function Joined(rounds: seq<seq<Vertex>>): seq<Vertex> {
    if rounds == [] then [] else Joined(rounds[..|rounds| - 1]) + rounds[|rounds| - 1]
  }

  lemma JoinedSnoc(rounds: seq<seq<Vertex>>, order: seq<Vertex>)
    ensures Joined(rounds + [order]) == Joined(rounds) + order
  {
    assert (rounds + [order])[..|rounds + [order]| - 1] == rounds;
  }

  lemma {:induction false} InJoined(rounds: seq<seq<Vertex>>, i: nat, v: Vertex)
    requires i < |rounds| && v in rounds[i]
    ensures v in Joined(rounds)
  {
    if i < |rounds| - 1 {
      InJoined(rounds[..|rounds| - 1], i, v);
    }
  }

  /** The vertex cannot improve: it is the last of its shard, or no neighbour tops the others from elsewhere. */
  ghost predicate Content(score: Score, adj: Adjacency, s: Labels, v: Vertex) {
    !MayMove(s, v)
    || forall i: nat :: Tops(score, SceneOf(adj, s), v, i) ==> ShardOf(s.part, AdjOf(adj, v)[i]) == ShardOf(s.part, v)
  }

  lemma StillIsContent(score: Score, adj: Adjacency, s: Labels, v: Vertex, t: Labels)
    requires VisitStep(score, adj, s, v, t) && t.res == map[]
    ensures t == s && Content(score, adj, s, v)
  {
    var own, best := ShardOf(s.part, v), BestLabel(score, SceneOf(adj, s), v);
    if MayMove(s, v) && best != own {
      MovedIsListed(score, adj, s, v, t);
    } else if MayMove(s, v) {
      OwnIsBest(score, adj, s, v);
    }
  }

  lemma MovedIsListed(score: Score, adj: Adjacency, s: Labels, v: Vertex, t: Labels)
    requires VisitStep(score, adj, s, v, t) && MayMove(s, v)
    requires BestLabel(score, SceneOf(adj, s), v) != ShardOf(s.part, v)
    ensures v in t.res
  {
  }

  lemma OwnIsBest(score: Score, adj: Adjacency, s: Labels, v: Vertex)
    requires BestLabel(score, SceneOf(adj, s), v) == ShardOf(s.part, v)
    ensures Content(score, adj, s, v)
  {
    BestLabelTops(score, SceneOf(adj, s), v);
  }

  lemma {:induction false} NothingMoved(score: Score, adj: Adjacency, log: Log, n: nat)
    requires LogOk(score, adj, log) && n <= |log.visits| && log.states[n].res == map[]
    ensures log.states[n] == log.states[0]
    ensures forall i: nat :: i < n ==> Content(score, adj, log.states[0], log.visits[i])
  {
    if n > 0 {
      assert LogAt(score, adj, log, n - 1);
      StillIsContent(score, adj, log.states[n - 1], log.visits[n - 1], log.states[n]);
      NothingMoved(score, adj, log, n - 1);
    }
  }

  /** When a run of at least one iteration moved nothing, no vertex could improve in the first place. */
  lemma EmptyResultIsOptimal(score: Score, adj: Adjacency, log: Log, rounds: seq<seq<Vertex>>, vertices: set<Vertex>)
    requires LogOk(score, adj, log) && log.visits == Joined(rounds) && rounds != [] && Lists(rounds[0], vertices)
    requires log.states[|log.visits|].res == map[]
    ensures forall v :: v in vertices ==> Content(score, adj, log.states[0], v)
  {
    NothingMoved(score, adj, log, |log.visits|);
    forall v | v in vertices ensures Content(score, adj, log.states[0], v) {
      InJoined(rounds, 0, v);
      var i: nat :| i < |log.visits| && log.visits[i] == v;
    }
  }

  class ClpaState {
    const shardNum: nat
    const maxIterations: nat
    /** How good a shard is for a vertex; the program's formula is one such score. */
    const score: Score
    const defaultShard: Vertex -> nat
    var vertices: set<Vertex>
    var edgeSet: Adjacency
    var part: Assignment
    var edges2Shard: array<int>
    var vertexsNumInShard: array<int>
    var minEdges2Shard: int
    var crossShardEdgeNum: int
    /** The undirected edges in the order they were added. */
    ghost var edges: seq<Edge>

    ghost predicate Shape()
      reads this`vertices, this`edgeSet, this`part, this`edges, this`edges2Shard, this`vertexsNumInShard
    {
      && shardNum > 0 && (forall v :: defaultShard(v) < shardNum)
      && edges2Shard.Length == vertexsNumInShard.Length == shardNum && edges2Shard != vertexsNumInShard
      && AssignmentOk(part, vertices, shardNum)
      && edgeSet.Keys <= vertices && AdjacencyOk(edgeSet, edges)
    }

    ghost predicate Valid()
      reads this`vertices, this`edgeSet, this`part, this`edges, this`edges2Shard, this`vertexsNumInShard
      reads vertexsNumInShard
    {
      Shape() && OccupancyOk(vertexsNumInShard[..], vertices, part)
    }

    /** The edge counters are those of a recount. */
    ghost predicate Counted()
      reads this`edges, this`part, this`edges2Shard, this`crossShardEdgeNum, edges2Shard
    {
      EntriesOk(edges2Shard[..], edges, part) && crossShardEdgeNum == Crossing(edges, part)
    }

    /** On a graph without self-loops the edge counters are always those of a recount. */
    ghost predicate Exact()
      reads this`edges, this`part, this`edges2Shard, this`crossShardEdgeNum, edges2Shard
    {
      LoopFree(edges) ==> Counted()
    }

    /** What a run of the partitioner changes. */
    ghost function Now(res: Assignment, moved: map<Vertex, nat>): Labels
      reads this`part, this`edges2Shard, this`minEdges2Shard, this`vertexsNumInShard, edges2Shard, vertexsNumInShard
    {
      Labels(part, edges2Shard[..], minEdges2Shard, vertexsNumInShard[..], res, moved)
    }

    /** `seeds` is what the committee seeds the partition map with. */
    constructor (n: nat, iterations: nat, home: Vertex -> nat, seeds: Assignment, scoring: Score)
      requires n > 0 && (forall v :: home(v) < n) && forall v :: v in seeds ==> seeds[v] < n
      ensures Valid() && fresh(edges2Shard) && fresh(vertexsNumInShard)
      ensures vertices == {} && edges == [] && part == seeds && shardNum == n && maxIterations == iterations
      ensures defaultShard == home && score == scoring
    {
      shardNum, maxIterations, defaultShard, score := n, iterations, home, scoring;
      vertices, edgeSet, part, edges := {}, map[], seeds, [];
      minEdges2Shard, crossShardEdgeNum := 0, 0;
      var e2s, occupancy := new int[n], new int[n];
      for i := 0 to n
        invariant forall k :: 0 <= k < i ==> occupancy[k] == 0
      {
        occupancy[i] := 0;
      }
      edges2Shard, vertexsNumInShard := e2s, occupancy;
      assert forall k :: Members({}, seeds, k) == {};
    }

    /** Adding a vertex keeps the occupancy counters right exactly when it is a new one. */
    method AddVertex(v: Vertex)
      requires Valid()
      modifies this`vertices, this`part, vertexsNumInShard
      ensures Shape() && (OccupancyOk(vertexsNumInShard[..], vertices, part) <==> v !in old(vertices))
      ensures vertices == old(vertices) + {v}
      ensures part == if v in old(part) then old(part) else old(part)[v := defaultShard(v)]
    {
      ghost var counts := vertexsNumInShard[..];
      vertices := vertices + {v};
      if v !in part {
        part := part[v := defaultShard(v)];
      }
      vertexsNumInShard[part[v]] := vertexsNumInShard[part[v]] + 1;
      assert vertexsNumInShard[..] == counts[part[v] := counts[part[v]] + 1];
      OccupancyJoins(counts, old(vertices), old(part), v, part);
    }

    method AddEdge(u: Vertex, v: Vertex)
      requires Valid()
      modifies this`vertices, this`part, this`edgeSet, this`edges, vertexsNumInShard
      ensures Valid() && edges == old(edges) + [(u, v)] && vertices == old(vertices) + {u, v}
      ensures forall x :: x in old(part) ==> x in part && part[x] == old(part)[x]
      ensures forall x :: x in part && x !in old(part) ==> x in {u, v} && part[x] == defaultShard(x)
    {
      if u !in vertices {
        AddVertex(u);
      }
      if v !in vertices {
        AddVertex(v);
      }
      Connect(u, v);
    }

    /** The graph's own part of adding an edge: one entry in each direction. */
    method Connect(u: Vertex, v: Vertex)
      requires AdjacencyOk(edgeSet, edges)
      modifies this`edgeSet, this`edges
      ensures AdjacencyOk(edgeSet, edges) && edges == old(edges) + [(u, v)]
      ensures edgeSet.Keys == old(edgeSet.Keys) + {u, v}
    {
      AdjacencyGrows(edgeSet, edges, u, v);
      edgeSet := edgeSet[u := AdjOf(edgeSet, u) + [v]];
      edgeSet := edgeSet[v := AdjOf(edgeSet, v) + [u]];
      edges := edges + [(u, v)];
    }

    method FindMin()
      requires Shape()
      modifies this`minEdges2Shard
      ensures IsMin(edges2Shard[..], minEdges2Shard)
    {
      minEdges2Shard := MAX_INT;
      for k := 0 to edges2Shard.Length
        invariant IsMin(edges2Shard[..k], minEdges2Shard)
      {
        assert edges2Shard[..k + 1] == edges2Shard[..k] + [edges2Shard[k]];
        if minEdges2Shard > edges2Shard[k] {
          minEdges2Shard := edges2Shard[k];
        }
      }
      assert edges2Shard[..edges2Shard.Length] == edges2Shard[..];
    }

    /** One adjacency list of the walk: ends in other shards are counted in `entering`, ends in the
        vertex's own shard in `staying`. */
    method WalkList(lst: seq<Vertex>, from: nat, entering: array<int>, staying: array<int>, ghost order: seq<Vertex>)
      requires entering != staying && entering.Length == staying.Length
      requires forall u :: ShardOf(part, u) < entering.Length
      requires Walked(entering[..], staying[..], edges, part, order)
      modifies entering, staying
      ensures Walking(entering[..], staying[..], edges, part, order, from, lst)
    {
      for i := 0 to |lst|
        invariant Walking(entering[..], staying[..], edges, part, order, from, lst[..i])
      {
        var to := ShardOf(part, lst[i]);
        assert lst[..i + 1] == lst[..i] + [lst[i]];
        WalkingSnoc(entering[..], staying[..], edges, part, order, from, lst[..i], lst[i]);
        if from != to {
          entering[to] := entering[to] + 1;
        } else {
          staying[to] := staying[to] + 1;
        }
      }
      assert lst[..|lst|] == lst;
    }

    method SumUp(entering: array<int>, ghost order: seq<Vertex>)
      requires Shape() && entering.Length == shardNum
      requires Distinct(order) && EndsIn(edges, order)
      requires forall k :: 0 <= k < shardNum ==> entering[k] == EnteringSum(edges, part, order, k)
      modifies this`crossShardEdgeNum
      ensures crossShardEdgeNum == Crossing(edges, part)
    {
      var total := 0;
      for i := 0 to shardNum
        invariant total == EnteringTotal(edges, part, order, i)
      {
        total := total + entering[i];
      }
      WalkCrosses(edges, part, order, shardNum);
      crossShardEdgeNum := total / 2;
    }

    /** The two counters of every shard, after a walk over all vertices in any order. */
    method WalkAll() returns (entering: array<int>, staying: array<int>, ghost order: seq<Vertex>)
      requires Shape()
      ensures fresh(entering) && fresh(staying) && entering != staying
      ensures entering.Length == staying.Length == shardNum
      ensures Distinct(order) && EndsIn(edges, order) && Walked(entering[..], staying[..], edges, part, order)
    {
      entering, staying := new int[shardNum], new int[shardNum];
      for i := 0 to shardNum
        invariant forall k :: 0 <= k < i ==> entering[k] == 0 && staying[k] == 0
      {
        entering[i], staying[i] := 0, 0;
      }
      order := [];
      WalkedNothing(entering[..], staying[..], edges, part);
      var keys := edgeSet.Keys;
      while keys != {}
        invariant keys <= edgeSet.Keys && Distinct(order)
        invariant forall v :: v in order <==> v in edgeSet.Keys - keys
        invariant Walked(entering[..], staying[..], edges, part, order)
        decreases keys
      {
        var v :| v in keys;
        WalkList(AdjOf(edgeSet, v), ShardOf(part, v), entering, staying, order);
        WalkedSnoc(entering[..], staying[..], edges, part, order, v);
        DistinctSnoc(order, v);
        keys := keys - {v};
        order := order + [v];
      }
    }

    /** Adds half of the second counter to the first. */
    method AddHalves(entering: array<int>, staying: array<int>, ghost order: seq<Vertex>)
      requires entering != staying && entering.Length == staying.Length
      requires Walked(entering[..], staying[..], edges, part, order) && Distinct(order) && EndsIn(edges, order)
      modifies entering
      ensures EntriesOk(entering[..], edges, part)
    {
      ghost var first, second := entering[..], staying[..];
      for i := 0 to entering.Length
        invariant forall k :: 0 <= k < i ==> entering[k] == Touching(edges, part, k)
        invariant forall k :: i <= k < entering.Length ==> entering[k] == first[k]
      {
        WalkedEntry(first, second, edges, part, order, i);
        entering[i] := entering[i] + staying[i] / 2;
      }
    }

    /** A full recount, in any order of the vertices. */
    method ComputeEdges2Shard()
      requires Shape()
      modifies this`edges2Shard, this`minEdges2Shard, this`crossShardEdgeNum
      ensures Shape() && Counted() && IsMin(edges2Shard[..], minEdges2Shard) && fresh(edges2Shard)
    {
      var entering, staying, order := WalkAll();
      SumUp(entering, order);
      AddHalves(entering, staying, order);
      edges2Shard := entering;
      FindMin();
    }

    /** The incremental update for one neighbour in shard `near`. */
    method ShiftOne(near: nat, src: nat, dst: nat)
      requires src < edges2Shard.Length && dst < edges2Shard.Length && src != dst
      modifies this`crossShardEdgeNum, edges2Shard
      ensures forall k :: 0 <= k < edges2Shard.Length ==>
        edges2Shard[k] == old(edges2Shard[k]) + Shift(near, src, dst, k)
      ensures crossShardEdgeNum == old(crossShardEdgeNum) + CrossShift(near, src, dst)
    {
      if near != dst && near != src {
        edges2Shard[dst] := edges2Shard[dst] + 1;
        edges2Shard[src] := edges2Shard[src] - 1;
      } else if near == dst {
        edges2Shard[src] := edges2Shard[src] - 1;
        crossShardEdgeNum := crossShardEdgeNum - 1;
      } else {
        edges2Shard[dst] := edges2Shard[dst] + 1;
        crossShardEdgeNum := crossShardEdgeNum + 1;
      }
    }

    /** The incremental update for a vertex that came from shard `src` and has the given neighbours. */
    method ShiftAll(lst: seq<Vertex>, src: nat, dst: nat)
      requires src < edges2Shard.Length && dst < edges2Shard.Length && src != dst
      modifies this`crossShardEdgeNum, edges2Shard
      ensures Shifted(old(edges2Shard[..]), edges2Shard[..], part, lst, src, dst)
      ensures crossShardEdgeNum == old(crossShardEdgeNum) + CrossShifts(part, lst, src, dst)
    {
      ghost var before := edges2Shard[..];
      ShiftedNothing(before, part, src, dst);
      for i := 0 to |lst|
        invariant Shifted(before, edges2Shard[..], part, lst[..i], src, dst)
        invariant crossShardEdgeNum == old(crossShardEdgeNum) + CrossShifts(part, lst[..i], src, dst)
      {
        ghost var mid := edges2Shard[..];
        ShiftOne(ShardOf(part, lst[i]), src, dst);
        assert lst[..i + 1] == lst[..i] + [lst[i]];
        ShiftedSnoc(before, mid, edges2Shard[..], part, lst[..i], lst[i], src, dst);
      }
      assert lst[..|lst|] == lst;
    }

    method ChangeShardRecompute(v: Vertex, src: nat)
      requires Shape() && v in vertices && src < shardNum && src != part[v]
      modifies this`minEdges2Shard, this`crossShardEdgeNum, edges2Shard
      ensures Shifted(old(edges2Shard[..]), edges2Shard[..], part, Neighbors(edges, v), src, part[v])
      ensures crossShardEdgeNum == old(crossShardEdgeNum) + CrossShifts(part, Neighbors(edges, v), src, part[v])
      ensures IsMin(edges2Shard[..], minEdges2Shard)
    {
      ShiftAll(AdjOf(edgeSet, v), src, part[v]);
      FindMin();
    }

    method MoveCount(src: nat, dst: nat)
      requires Shape() && src < shardNum && dst < shardNum
      modifies vertexsNumInShard
      ensures var counts := old(vertexsNumInShard[..]);
        src != dst ==> vertexsNumInShard[..] == counts[src := counts[src] - 1][dst := counts[dst] + 1]
    {
      vertexsNumInShard[src] := vertexsNumInShard[src] - 1;
      vertexsNumInShard[dst] := vertexsNumInShard[dst] + 1;
    }

    method MoveVertex(v: Vertex, dst: nat)
      requires Valid() && v in vertices && dst < shardNum && part[v] != dst
      modifies this`part, vertexsNumInShard
      ensures Valid() && part == old(part)[v := dst]
      ensures var counts, src := old(vertexsNumInShard[..]), old(part)[v];
        vertexsNumInShard[..] == counts[src := counts[src] - 1][dst := counts[dst] + 1]
    {
      OccupancyMoves(vertexsNumInShard[..], vertices, part, v, dst);
      MoveCount(part[v], dst);
      part := part[v := dst];
    }

    /** Relabels one vertex. Counters that were right stay right exactly when the vertex has no edge
        to itself. */
    method Relabel(v: Vertex, dst: nat)
      requires Valid() && v in vertices && dst < shardNum && part[v] != dst
      modifies this`part, this`minEdges2Shard, this`crossShardEdgeNum, edges2Shard, vertexsNumInShard
      ensures Valid() && part == old(part)[v := dst]
      ensures var counts, src := old(vertexsNumInShard[..]), old(part)[v];
        vertexsNumInShard[..] == counts[src := counts[src] - 1][dst := counts[dst] + 1]
      ensures old(Counted()) ==> (Counted() <==> (v, v) !in edges)
      ensures old(Exact()) ==> Exact()
      ensures Shifted(old(edges2Shard[..]), edges2Shard[..], part, Neighbors(edges, v), old(part)[v], dst)
      ensures IsMin(edges2Shard[..], minEdges2Shard)
    {
      var src := part[v];
      ghost var entries, before, cross := edges2Shard[..], part, crossShardEdgeNum;
      ghost var counted := Counted();
      MoveVertex(v, dst);
      ChangeShardRecompute(v, src);
      if counted {
        ShiftedIsRecount(entries, edges2Shard[..], cross, edges, before, v, dst);
      }
    }

    /** The label with the best score among the neighbours' shards; each shard is scored once. */
    method BestShard(v: Vertex) returns (best: nat, ghost near: Vertex)
      requires Shape() && v in vertices
      ensures best < shardNum && best == BestLabel(score, Scene(edgeSet, part, edges2Shard[..], minEdges2Shard), v)
      ensures best != part[v] ==> near in Neighbors(edges, v) && ShardOf(part, near) == best
    {
      best, near := part[v], v;
      var scene := Scene(edgeSet, part, edges2Shard[..], minEdges2Shard);
      var maxScore: real := -9999.0;
      var scored: set<nat> := {};
      var lst := AdjOf(edgeSet, v);
      for i := 0 to |lst|
        invariant best < shardNum && (best != part[v] ==> near in lst && ShardOf(part, near) == best)
        invariant Choice(best, maxScore) == Choose(score, scene, v, i)
        invariant ScoredAre(scene, v, i, scored)
      {
        var uShard := ShardOf(part, lst[i]);
        ghost var top := ChooseTops(score, scene, v, i);
        if uShard !in scored {
          scored := scored + {uShard};
          var x := score(scene, v, uShard);
          if maxScore < x {
            maxScore, best, near := x, uShard, lst[i];
          }
        } else {
          ghost var j: nat :| j < i && ShardOf(part, lst[j]) == uShard;
          assert ScoreAt(score, scene, v, i) == ScoreAt(score, scene, v, j);
        }
      }
    }

    /** The shards of the first `n` neighbours. */
    ghost predicate ScoredAre(scene: Scene, v: Vertex, n: nat, scored: set<nat>) {
      n <= |AdjOf(scene.adj, v)|
      && forall k :: k in scored <==> exists j: nat :: j < n && ShardOf(scene.part, AdjOf(scene.adj, v)[j]) == k
    }

    /** Relabelling as one step of a run. */
    method Step(v: Vertex, dst: nat, ghost near: Vertex, ghost start: Assignment, ghost res: Assignment,
                ghost moves: seq<Move>, ghost moved: map<Vertex, nat>)
      requires Valid() && v in vertices && dst < shardNum && part[v] != dst && vertexsNumInShard[part[v]] > 1
      requires near in Neighbors(edges, v) && ShardOf(part, near) == dst && Times(moved, v) < MAX_MOVES
      requires OnTrack(vertices, edges, start, part, vertexsNumInShard[..], res, moves, moved) && Exact()
      requires dst == BestLabel(score, Scene(edgeSet, part, edges2Shard[..], minEdges2Shard), v)
      modifies this`part, this`minEdges2Shard, this`crossShardEdgeNum, edges2Shard, vertexsNumInShard
      ensures Valid() && Exact() && part == old(part)[v := dst]
      ensures OnTrack(vertices, edges, start, part, vertexsNumInShard[..], res[v := dst],
                      moves + [Move(v, old(part)[v], dst)], moved[v := Times(moved, v) + 1])
      ensures VisitStep(score, edgeSet, old(Now(res, moved)), v, Now(res[v := dst], moved[v := Times(moved, v) + 1]))
    {
      ghost var before, counts := part, vertexsNumInShard[..];
      ghost var after := counts[before[v] := counts[before[v]] - 1][dst := counts[dst] + 1];
      OnTrackThen(vertices, edges, start, before, counts, res, moves, moved, v, near, dst, before[v := dst], after);
      RelabelBest(v, dst, res, moved, after);
      assert part == before[v := dst] && vertexsNumInShard[..] == after;
    }

    /** Relabelling to the best label is the visit's step. */
    method RelabelBest(v: Vertex, dst: nat, ghost res: Assignment, ghost moved: map<Vertex, nat>, ghost after: seq<int>)
      requires Valid() && Exact() && v in vertices && dst < shardNum && part[v] != dst && vertexsNumInShard[part[v]] > 1
      requires dst == BestLabel(score, Scene(edgeSet, part, edges2Shard[..], minEdges2Shard), v)
      requires Times(moved, v) < MAX_MOVES
      requires var counts, src := vertexsNumInShard[..], part[v];
        after == counts[src := counts[src] - 1][dst := counts[dst] + 1]
      modifies this`part, this`minEdges2Shard, this`crossShardEdgeNum, edges2Shard, vertexsNumInShard
      ensures Valid() && Exact() && part == old(part)[v := dst]
      ensures vertexsNumInShard[..] == after
      ensures VisitStep(score, edgeSet, old(Now(res, moved)), v, Now(res[v := dst], moved[v := Times(moved, v) + 1]))
    {
      ghost var s := Now(res, moved);
      Relabel(v, dst);
      StepMade(score, edgeSet, edges, s, v, dst, Now(res[v := dst], moved[v := Times(moved, v) + 1]));
    }

    /** One vertex in one iteration: `res` and `moved` are the run's result and move counters so far. With fewer
        than 50 moves so far and company in its shard, the vertex goes to the shard of the first neighbour with
        the best score above -9999, and stays if that is its own or there is none. */
    method Visit(v: Vertex, res: Assignment, moved: map<Vertex, nat>, ghost start: Assignment, ghost moves: seq<Move>)
      returns (res': Assignment, moved': map<Vertex, nat>, ghost moves': seq<Move>)
      requires Valid() && v in vertices && Exact()
      requires OnTrack(vertices, edges, start, part, vertexsNumInShard[..], res, moves, moved)
      modifies this`part, this`minEdges2Shard, this`crossShardEdgeNum, edges2Shard, vertexsNumInShard
      ensures Valid() && Exact()
      ensures OnTrack(vertices, edges, start, part, vertexsNumInShard[..], res', moves', moved')
      ensures forall x :: MovesOf(moves', x) <= MovesOf(moves, x) + if x == v then 1 else 0
      ensures VisitStep(score, edgeSet, old(Now(res, moved)), v, Now(res', moved'))
      ensures Times(moved, v) < 50 && old(vertexsNumInShard[part[v]]) > 1 ==>
        forall i: nat :: Tops(score, old(Scene(edgeSet, part, edges2Shard[..], minEdges2Shard)), v, i) ==>
          part == old(part)[v := ShardOf(old(part), AdjOf(edgeSet, v)[i])]
      ensures Times(moved, v) >= 50 || old(vertexsNumInShard[part[v]]) <= 1 ==>
        part == old(part) && res' == res && moves' == moves
      ensures (forall i: nat :: !Tops(score, old(Scene(edgeSet, part, edges2Shard[..], minEdges2Shard)), v, i)) ==>
        part == old(part) && res' == res && moves' == moves
    {
      ghost var s := Now(res, moved);
      res', moved', moves' := VisitOnce(v, res, moved, start, moves);
      VisitFollowsScore(score, edgeSet, s, v, Now(res', moved'));
    }

    method VisitOnce(v: Vertex, res: Assignment, moved: map<Vertex, nat>, ghost start: Assignment,
                     ghost moves: seq<Move>)
      returns (res': Assignment, moved': map<Vertex, nat>, ghost moves': seq<Move>)
      requires Valid() && v in vertices && Exact()
      requires OnTrack(vertices, edges, start, part, vertexsNumInShard[..], res, moves, moved)
      modifies this`part, this`minEdges2Shard, this`crossShardEdgeNum, edges2Shard, vertexsNumInShard
      ensures Valid() && Exact()
      ensures OnTrack(vertices, edges, start, part, vertexsNumInShard[..], res', moves', moved')
      ensures forall x :: MovesOf(moves', x) <= MovesOf(moves, x) + if x == v then 1 else 0
      ensures VisitStep(score, edgeSet, old(Now(res, moved)), v, Now(res', moved'))
      ensures moved' == moved ==> moves' == moves
    {
      res', moved', moves' := res, moved, moves;
      if Times(moved, v) >= MAX_MOVES {
        return;
      }
      var now := part[v];
      var best, near := BestShard(v);
      if now != best && vertexsNumInShard[now] > 1 {
        Step(v, best, near, start, res, moves, moved);
        res', moved', moves' := res[v := best], moved[v := Times(moved, v) + 1], moves + [Move(v, now, best)];
        MovesSnoc(start, moves, Move(v, now, best));
      }
    }

    /** One iteration: every vertex is visited once, in any order. */
    method Sweep(res: Assignment, moved: map<Vertex, nat>, ghost start: Assignment, ghost moves: seq<Move>,
                 ghost log: Log)
      returns (res': Assignment, moved': map<Vertex, nat>, ghost moves': seq<Move>, ghost log': Log,
               ghost order: seq<Vertex>)
      requires Valid() && Exact() && LogEnds(score, edgeSet, log, Now(res, moved))
      requires OnTrack(vertices, edges, start, part, vertexsNumInShard[..], res, moves, moved)
      modifies this`part, this`minEdges2Shard, this`crossShardEdgeNum, edges2Shard, vertexsNumInShard
      ensures Valid() && Exact()
      ensures OnTrack(vertices, edges, start, part, vertexsNumInShard[..], res', moves', moved')
      ensures forall x :: MovesOf(moves', x) <= MovesOf(moves, x) + 1
      ensures LogEnds(score, edgeSet, log', Now(res', moved')) && log.states <= log'.states
      ensures Lists(order, vertices) && log'.visits == log.visits + order
    {
      res', moved', moves', log', order := res, moved, moves, log, [];
      var todo := vertices;
      while todo != {}
        invariant todo <= vertices && Valid() && Exact()
        invariant OnTrack(vertices, edges, start, part, vertexsNumInShard[..], res', moves', moved')
        invariant forall x :: MovesOf(moves', x) <= MovesOf(moves, x) + if x in todo then 0 else 1
        invariant LogEnds(score, edgeSet, log', Now(res', moved')) && log.states <= log'.states
        invariant Lists(order, vertices - todo) && log'.visits == log.visits + order
        decreases todo
      {
        var v :| v in todo;
        assert (todo - {v}) + {v} == todo;
        todo := todo - {v};
        res', moved', moves', log' := VisitNext(v, res', moved', start, moves', log');
        ListsSnoc(order, vertices, todo, v);
        order := order + [v];
      }
    }

    /** A visit, logged. */
    method VisitNext(v: Vertex, res: Assignment, moved: map<Vertex, nat>, ghost start: Assignment,
                     ghost moves: seq<Move>, ghost log: Log)
      returns (res': Assignment, moved': map<Vertex, nat>, ghost moves': seq<Move>, ghost log': Log)
      requires Valid() && v in vertices && Exact() && LogEnds(score, edgeSet, log, Now(res, moved))
      requires OnTrack(vertices, edges, start, part, vertexsNumInShard[..], res, moves, moved)
      modifies this`part, this`minEdges2Shard, this`crossShardEdgeNum, edges2Shard, vertexsNumInShard
      ensures Valid() && Exact() && LogEnds(score, edgeSet, log', Now(res', moved'))
      ensures OnTrack(vertices, edges, start, part, vertexsNumInShard[..], res', moves', moved')
      ensures forall x :: MovesOf(moves', x) <= MovesOf(moves, x) + if x == v then 1 else 0
      ensures log'.visits == log.visits + [v] && log.states <= log'.states
    {
      ghost var s := Now(res, moved);
      res', moved', moves' := Visit(v, res, moved, start, moves);
      LogGrows(score, edgeSet, log, s, v, Now(res', moved'));
      log' := Log(log.visits + [v], log.states + [Now(res', moved')]);
    }

    /** A run of the partitioner, for every score and every order in which vertices are visited. Each iteration
        visits every vertex once, and each visit follows the score (`VisitFollowsScore`). The returned map laid
        over the old assignment is the new one; each move follows a neighbour; no vertex moves more than
        min(50, maxIterations) times; no shard that had a vertex ends empty; and if nothing moved, no vertex
        could improve. */
    method Partition() returns (res: Assignment, cross: int, ghost moves: seq<Move>, ghost log: Log,
                                ghost rounds: seq<seq<Vertex>>)
      requires Valid()
      modifies this`part, this`edges2Shard, this`minEdges2Shard, this`crossShardEdgeNum, edges2Shard, vertexsNumInShard
      ensures Valid() && Counted() && IsMin(edges2Shard[..], minEdges2Shard) && cross == Crossing(edges, part)
      ensures part == old(part) + res && part == Play(old(part), moves) && AllFollow(edges, old(part), moves)
      ensures forall v :: MovesOf(moves, v) <= MAX_MOVES && MovesOf(moves, v) <= maxIterations
      ensures forall k :: 0 <= k < shardNum && Members(vertices, old(part), k) != {} ==>
        Members(vertices, part, k) != {}
      ensures RunLog(old(part), old(vertexsNumInShard[..]), res, log, rounds) && |rounds| == maxIterations
      ensures maxIterations > 0 && res == map[] ==>
        forall v :: v in vertices ==> Content(score, edgeSet, log.states[0], v)
    {
      ghost var start := part;
      ComputeEdges2Shard();
      res, moves, log, rounds := Iterate();
      ComputeEdges2Shard();
      NoneEmptyAtEnd(vertices, start, part, vertexsNumInShard[..]);
      cross := crossShardEdgeNum;
    }

    /** The iterations, on freshly counted numbers. */
    method Iterate() returns (res: Assignment, ghost moves: seq<Move>, ghost log: Log, ghost rounds: seq<seq<Vertex>>)
      requires Valid() && Counted()
      modifies this`part, this`minEdges2Shard, this`crossShardEdgeNum, edges2Shard, vertexsNumInShard
      ensures Valid() && NoneEmptied(vertices, old(part), vertexsNumInShard[..])
      ensures part == old(part) + res && part == Play(old(part), moves) && AllFollow(edges, old(part), moves)
      ensures forall v :: MovesOf(moves, v) <= MAX_MOVES && MovesOf(moves, v) <= maxIterations
      ensures RunLog(old(part), old(vertexsNumInShard[..]), res, log, rounds) && |rounds| == maxIterations
      ensures maxIterations > 0 && res == map[] ==>
        forall v :: v in vertices ==> Content(score, edgeSet, log.states[0], v)
    {
      ghost var start, counts := part, vertexsNumInShard[..];
      res, moves, rounds := map[], [], [];
      var moved: map<Vertex, nat> := map[];
      log := Log([], [Now(res, moved)]);
      NoneEmptyAtStart(vertices, start, vertexsNumInShard[..]);
      for iter := 0 to maxIterations
        invariant Valid() && Exact()
        invariant OnTrack(vertices, edges, start, part, vertexsNumInShard[..], res, moves, moved)
        invariant forall v :: MovesOf(moves, v) <= iter
        invariant |rounds| == iter && LogEnds(score, edgeSet, log, Now(res, moved))
        invariant RunLog(start, counts, res, log, rounds)
      {
        ghost var order;
        res, moved, moves, log, order := Sweep(res, moved, start, moves, log);
        JoinedSnoc(rounds, order);
        rounds := rounds + [order];
      }
      if maxIterations > 0 && res == map[] {
        EmptyResultIsOptimal(score, edgeSet, log, rounds, vertices);
      }
    }

    /** The log of a run starts with the recounted numbers of the old assignment and ends with the new one, and
        visits every vertex once in each round. */
    ghost predicate RunLog(start: Assignment, counts: seq<int>, res: Assignment, log: Log, rounds: seq<seq<Vertex>>)
      reads this`vertices, this`edgeSet, this`edges, this`part
    {
      LogOk(score, edgeSet, log) && log.visits == Joined(rounds)
      && (forall i :: 0 <= i < |rounds| ==> Lists(rounds[i], vertices))
      && log.states[0].part == start && log.states[0].counts == counts && EntriesOk(log.states[0].entries, edges, start)
      && log.states[0].res == map[] && log.states[0].moved == map[]
      && log.states[|log.visits|].part == part && log.states[|log.visits|].res == res
    }
  }
}
