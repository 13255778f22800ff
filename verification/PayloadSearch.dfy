/**
 Breadth-first searches over nested payloads (graph_factory.py). Dictionaries are objects: they may be shared, and they
 may contain themselves, so a payload is a reference into a heap of dictionaries.
 */
module PayloadSearch {
  import opened Values

  type Ref = nat

  /**
   What a dictionary holds under a key: a plain value, or a reference, to a dictionary when the heap has one there.
   */
  datatype Cell = Plain(value: Value) | Object(ref: Ref)

  type Heap = map<Ref, map<string, Cell>>

  predicate IsDict(heap: Heap, c: Cell) {
    c.Object? && c.ref in heap
  }

  function Entry(heap: Heap, r: Ref, key: string): Cell
    requires r in heap
  {
    if key in heap[r] then heap[r][key] else Plain(Null)
  }

  const CHILD_KEYS := ["result", "raw_result", "result_envelope", "error_details", "output_payload"]

  /** The dictionaries under the first n child keys, in key order. */
  function ChildrenUpTo(heap: Heap, r: Ref, n: nat): (c: seq<Ref>)
    requires r in heap && n <= |CHILD_KEYS|
    ensures forall x <- c :: x in heap
  {
    if n == 0 then []
    else
      var cell := Entry(heap, r, CHILD_KEYS[n - 1]);
      ChildrenUpTo(heap, r, n - 1) + (if IsDict(heap, cell) then [cell.ref] else [])
  }

  function Children(heap: Heap, r: Ref): (c: seq<Ref>)
    requires r in heap
    ensures forall x <- c :: x in heap
  {
    ChildrenUpTo(heap, r, |CHILD_KEYS|)
  }

  // ----- reachability -----

  /** From the root, r is reached through exactly d child keys. */
  ghost predicate Reaches(heap: Heap, root: Ref, r: Ref, d: nat)
    decreases d
  {
    if d == 0 then r == root && root in heap
    else exists m :: m in heap && r in Children(heap, m) && Reaches(heap, root, m, d - 1)
  }

  /** A closest match: reached in some number of steps, and nothing matches in fewer. */
  ghost predicate Closest(heap: Heap, root: Ref, hit: Ref -> bool, r: Ref) {
    r in heap && hit(r) &&
    exists d: nat :: Reaches(heap, root, r, d) && forall e: nat, q: Ref :: e < d && Reaches(heap, root, q, e) ==>
        !hit(q)
  }

  ghost predicate NoneReached(heap: Heap, root: Ref, hit: Ref -> bool) {
    forall d: nat, q: Ref :: Reaches(heap, root, q, d) ==> !hit(q)
  }

  // ----- the search's invariant -----

  ghost predicate Queued(queue: seq<Ref>, dist: seq<nat>, r: Ref, d: nat)
    requires |queue| == |dist|
  {
    exists i :: 0 <= i < |queue| && queue[i] == r && dist[i] <= d
  }

  /** A node accounted for at a distance: visited at no more, or still queued at no more. */
  ghost predicate Covered(level: map<Ref, nat>, queue: seq<Ref>, dist: seq<nat>, r: Ref, d: nat)
    requires |queue| == |dist|
  {
    (r in level && level[r] <= d) || Queued(queue, dist, r, d)
  }

  /** Queue entries carry the distance they were found at; two neighbouring levels at most are queued, in order. */
  ghost predicate InOrder(heap: Heap, root: Ref, queue: seq<Ref>, dist: seq<nat>) {
    && |queue| == |dist|
    && (forall i :: 0 <= i < |queue| ==> queue[i] in heap && Reaches(heap, root, queue[i], dist[i]))
    && (forall i, j :: 0 <= i < j < |dist| ==> dist[i] <= dist[j])
    && (forall i :: 0 <= i < |dist| ==> dist[i] <= dist[0] + 1)
  }

  /**
   Every visited node missed, at a distance the queue has passed, and its children are accounted for one further on.
   */
  ghost predicate Explored(heap: Heap, root: Ref, hit: Ref -> bool, level: map<Ref, nat>, queue: seq<Ref>,
                           dist: seq<nat>)
    requires |queue| == |dist|
  {
    && level.Keys <= heap.Keys
    && Covered(level, queue, dist, root, 0)
    && (forall v <- level :: !hit(v) && (queue != [] ==> level[v] <= dist[0]))
    && (forall v, c :: v in level && v in heap && c in Children(heap, v) ==>
        Covered(level, queue, dist, c, level[v] + 1))
  }

  /** A reachable node that is not visited in time has the queue's first distance, or more, still before it. */
  lemma {:induction false} Frontier(
      heap: Heap, root: Ref, hit: Ref -> bool, level: map<Ref, nat>, queue: seq<Ref>, dist: seq<nat>, q: Ref, e: nat)
    requires InOrder(heap, root, queue, dist) && Explored(heap, root, hit, level, queue, dist)
    requires Reaches(heap, root, q, e)
    ensures (q in level && level[q] <= e) || (queue != [] && dist[0] <= e)
    decreases e
  {
    if e == 0 {
    } else {
      var m :| m in heap && q in Children(heap, m) && Reaches(heap, root, m, e - 1);
      Frontier(heap, root, hit, level, queue, dist, m, e - 1);
      assert m in level && level[m] <= e - 1 ==> Covered(level, queue, dist, q, level[m] + 1);
    }
  }

  // ----- one iteration -----

  /** Popping a node visited before. */
  lemma SkipKeeps(heap: Heap, root: Ref, hit: Ref -> bool, level: map<Ref, nat>, queue: seq<Ref>, dist: seq<nat>)
    requires InOrder(heap, root, queue, dist) && Explored(heap, root, hit, level, queue, dist)
    requires queue != [] && queue[0] in level
    ensures InOrder(heap, root, queue[1..], dist[1..]) && Explored(heap, root, hit, level, queue[1..], dist[1..])
  {
    hide Children, Reaches;
    forall r, d: nat | Covered(level, queue, dist, r, d) ensures Covered(level, queue[1..], dist[1..], r, d) {
      if !(r in level && level[r] <= d) {
        var i :| 0 <= i < |queue| && queue[i] == r && dist[i] <= d;
        assert i > 0 && queue[1..][i - 1] == r && dist[1..][i - 1] == dist[i];
      }
    }
  }

  /** Popping a node and queueing its children one step further on keeps the queue in order. */
  lemma VisitKeepsOrder(heap: Heap, root: Ref, queue: seq<Ref>, dist: seq<nat>, more: seq<nat>)
    requires InOrder(heap, root, queue, dist) && queue != []
    requires |more| == |Children(heap, queue[0])| && forall k :: 0 <= k < |more| ==> more[k] == dist[0] + 1
    ensures InOrder(heap, root, queue[1..] + Children(heap, queue[0]), dist[1..] + more)
  {
    hide Children;
    var c := Children(heap, queue[0]);
    var queue', dist' := queue[1..] + c, dist[1..] + more;
    forall i | 0 <= i < |queue'|
      ensures queue'[i] in heap && Reaches(heap, root, queue'[i], dist'[i]) && dist[0] <= dist'[i] <= dist[0] + 1
    {
      if i < |queue| - 1 {
        assert queue'[i] == queue[i + 1] && dist'[i] == dist[i + 1];
      } else {
        assert queue'[i] == c[i - (|queue| - 1)] && dist'[i] == more[i - (|queue| - 1)];
        assert queue'[i] in c;
      }
    }
    forall i, j | 0 <= i < j < |dist'| ensures dist'[i] <= dist'[j] {
      assert j < |queue| - 1 ==> dist'[i] == dist[i + 1] && dist'[j] == dist[j + 1];
    }
  }

  /** What was accounted for still is, once the queue's first node is visited and more is queued. */
  lemma StaysCovered(level: map<Ref, nat>, queue: seq<Ref>, dist: seq<nat>, c: seq<Ref>, more: seq<nat>, r: Ref, d: nat)
    requires |queue| == |dist| > 0 && |c| == |more| && queue[0] !in level
    requires forall i :: 0 <= i < |dist| ==> dist[0] <= dist[i]
    requires Covered(level, queue, dist, r, d)
    ensures Covered(level[queue[0] := dist[0]], queue[1..] + c, dist[1..] + more, r, d)
  {
    var queue', dist' := queue[1..] + c, dist[1..] + more;
    if !(r in level && level[r] <= d) {
      var i :| 0 <= i < |queue| && queue[i] == r && dist[i] <= d;
      assert i > 0 ==> queue'[i - 1] == r && dist'[i - 1] == dist[i];
    }
  }

  lemma ChildIsCovered(level: map<Ref, nat>, queue: seq<Ref>, dist: seq<nat>, c: seq<Ref>, more: seq<nat>, x: Ref,
                       d: nat)
    requires |queue| == |dist| && |c| == |more| && x in c && forall k :: 0 <= k < |more| ==> more[k] == d
    ensures Covered(level, queue + c, dist + more, x, d)
  {
    var k :| 0 <= k < |c| && c[k] == x;
    assert (queue + c)[|queue| + k] == x && (dist + more)[|queue| + k] == more[k];
  }

  /** Visiting a node that misses. */
  lemma VisitKeepsExplored(heap: Heap, root: Ref, hit: Ref -> bool, level: map<Ref, nat>, queue: seq<Ref>,
                           dist: seq<nat>, more: seq<nat>)
    requires InOrder(heap, root, queue, dist) && Explored(heap, root, hit, level, queue, dist)
    requires queue != [] && queue[0] !in level && !hit(queue[0])
    requires |more| == |Children(heap, queue[0])| && forall k :: 0 <= k < |more| ==> more[k] == dist[0] + 1
    ensures Explored(heap, root, hit, level[queue[0] := dist[0]], queue[1..] + Children(heap, queue[0]),
                     dist[1..] + more)
  {
    hide Children, Reaches, Covered;
    var c := Children(heap, queue[0]);
    var queue', dist', level' := queue[1..] + c, dist[1..] + more, level[queue[0] := dist[0]];
    StaysCovered(level, queue, dist, c, more, root, 0);
    forall v, x | v in level' && v in heap && x in Children(heap, v)
      ensures Covered(level', queue', dist', x, level'[v] + 1)
    {
      if v == queue[0] {
        ChildIsCovered(level', queue[1..], dist[1..], c, more, x, dist[0] + 1);
      } else {
        StaysCovered(level, queue, dist, c, more, x, level[v] + 1);
      }
    }
    assert queue' != [] ==> dist[0] <= dist'[0];
  }

  /** The breadth-first loop both searches share: it ends on any finite heap, cycles included. */
  method Search(heap: Heap, root: Ref, hit: Ref -> bool) returns (found: Option<Ref>)
    requires root in heap
    ensures found.Some? ==> Closest(heap, root, hit, found.value)
    ensures found.None? <==> NoneReached(heap, root, hit)
  {
    hide Children, Reaches, InOrder, Explored;
    var queue, visited := [root], {};
    ghost var dist: seq<nat>, level: map<Ref, nat> := [0], map[];
    SearchStarts(heap, root, hit);
    while queue != []
      invariant |queue| == |dist| && visited == level.Keys && visited <= heap.Keys
      invariant forall i :: 0 <= i < |queue| ==> queue[i] in heap
      invariant InOrder(heap, root, queue, dist) && Explored(heap, root, hit, level, queue, dist)
      decreases heap.Keys - visited, |queue|
    {
      var current := queue[0];
      if current in visited {
        SkipKeeps(heap, root, hit, level, queue, dist);
        queue, dist := queue[1..], dist[1..];
        continue;
      }
      if hit(current) {
        FirstHitIsClosest(heap, root, hit, level, queue, dist);
        return Some(current);
      }
      ghost var more := seq(|Children(heap, current)|, _ => dist[0] + 1);
      VisitKeepsOrder(heap, root, queue, dist, more);
      VisitKeepsExplored(heap, root, hit, level, queue, dist, more);
      visited := visited + {current};
      level := level[current := dist[0]];
      queue, dist := queue[1..] + Children(heap, current), dist[1..] + more;
    }
    EmptyQueueMeansNone(heap, root, hit, level);
    found := None;
  }

  lemma SearchStarts(heap: Heap, root: Ref, hit: Ref -> bool)
    requires root in heap
    ensures InOrder(heap, root, [root], [0]) && Explored(heap, root, hit, map[], [root], [0])
  {
    assert [root][0] == root && [0][0] == 0;
  }

  lemma FirstHitIsClosest(heap: Heap, root: Ref, hit: Ref -> bool, level: map<Ref, nat>, queue: seq<Ref>,
                          dist: seq<nat>)
    requires InOrder(heap, root, queue, dist) && Explored(heap, root, hit, level, queue, dist)
    requires queue != [] && hit(queue[0])
    ensures Closest(heap, root, hit, queue[0]) && !NoneReached(heap, root, hit)
  {
    hide Children, Reaches;
    forall e: nat, q: Ref | e < dist[0] && Reaches(heap, root, q, e) ensures !hit(q) {
      Frontier(heap, root, hit, level, queue, dist, q, e);
    }
    assert Reaches(heap, root, queue[0], dist[0]);
  }

  lemma EmptyQueueMeansNone(heap: Heap, root: Ref, hit: Ref -> bool, level: map<Ref, nat>)
    requires InOrder(heap, root, [], []) && Explored(heap, root, hit, level, [], [])
    ensures NoneReached(heap, root, hit)
  {
    hide Children, Reaches;
    forall d: nat, q: Ref | Reaches(heap, root, q, d) ensures !hit(q) {
      Frontier(heap, root, hit, level, [], [], q, d);
    }
  }

  // ----- the two searches -----

  predicate CellTruthy(heap: Heap, c: Cell) {
    if IsDict(heap, c) then heap[c.ref] != map[] else c.Object? || Truthy(c.value)
  }

  predicate HasField(heap: Heap, r: Ref, key: string) {
    r in heap && Entry(heap, r, key) != Plain(Null)
  }

  predicate IsRecovery(heap: Heap, r: Ref) {
    && r in heap && Entry(heap, r, "ok") == Plain(Bool(false)) && Entry(heap, r, "recoverable") == Plain(Bool(true))
    && CellTruthy(heap, Entry(heap, r, "next_action"))
  }

  function FieldHit(heap: Heap, key: string): Ref -> bool {
    (q: Ref) => HasField(heap, q, key)
  }

  function RecoveryHit(heap: Heap): Ref -> bool {
    (q: Ref) => IsRecovery(heap, q)
  }

  /** `_first_nested_runtime_field`: the field of a closest dictionary that has it, if any reachable one does. */
  method FirstNestedField(heap: Heap, payload: Cell, key: string) returns (field: Option<Cell>)
    ensures field.Some? <==> IsDict(heap, payload) && !NoneReached(heap, payload.ref, FieldHit(heap, key))
    ensures field.Some? ==>
            exists r: Ref :: Closest(heap, payload.ref, FieldHit(heap, key), r) && field.value == Entry(heap, r, key)
  {
    hide Reaches, NoneReached;
    if !IsDict(heap, payload) { return None; }
    var found := Search(heap, payload.ref, FieldHit(heap, key));
    if found.None? { return None; }
    field := Some(Entry(heap, found.value, key));
  }

  /** `_no_dead_end_outcome_from_payload`: a closest recoverable outcome, if any is reachable. */
  method NoDeadEndOutcome(heap: Heap, payload: Cell) returns (outcome: Option<Ref>)
    ensures outcome.Some? <==> IsDict(heap, payload) && !NoneReached(heap, payload.ref, RecoveryHit(heap))
    ensures outcome.Some? ==> Closest(heap, payload.ref, RecoveryHit(heap), outcome.value)
  {
    if !IsDict(heap, payload) { return None; }
    outcome := Search(heap, payload.ref, RecoveryHit(heap));
  }
}
