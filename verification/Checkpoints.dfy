/**
 The checkpoint store (checkpoints.py): saves stamp their rows, and the newest stamp is resumed.

 Stamps count microseconds. A database column keeps them at a coarser precision, while the rows a
 session wrote itself keep the exact stamp in memory until they are refreshed.
 */
module Checkpoints {
  import opened Values
  import opened AgentStates

  /** The bump applied to a clock reading that does not advance: one second. */
  const SECOND: int := 1_000_000

  /** A column's precision: any resolution that divides a second. */
  predicate Precision(p: int) {
    p > 0 && SECOND % p == 0
  }

  type Resolution = p: int | Precision(p) witness SECOND

  /** The stamp a column of precision p keeps. */
  function Stored(t: int, p: int): int
    requires p > 0
  {
    t - t % p
  }

  /** `seen` is the stamp the session compares; `createdAt` is the stamp the column holds. */
  datatype Row<R, S> = Row(id: int, run: R, key: string, state: S, seen: int, createdAt: int)

  // ----- the newest row of a run -----

  function OfRun<R(==,!new), S(==,!new)>(rows: seq<Row<R, S>>, run: R): (r: seq<Row<R, S>>)
    ensures forall x :: x in r <==> x in rows && x.run == run
    ensures |r| <= |rows|
  {
    if rows == [] then []
    else OfRun(rows[..|rows| - 1], run) + (if rows[|rows| - 1].run == run then [rows[|rows| - 1]] else [])
  }

  /** `MAX(created_at)`. */
  function NewestStamp<R(==,!new), S(==,!new)>(rows: seq<Row<R, S>>): (t: int)
    requires rows != []
    ensures exists x :: x in rows && x.createdAt == t
    ensures forall x :: x in rows ==> x.createdAt <= t
  {
    if |rows| == 1 then rows[0].createdAt
    else
      var t := NewestStamp(rows[1..]);
      if t < rows[0].createdAt then rows[0].createdAt else t
  }

  function At<R(==,!new), S(==,!new)>(rows: seq<Row<R, S>>, t: int): (r: seq<Row<R, S>>)
    ensures forall x :: x in r <==> x in rows && x.createdAt == t
  {
    if rows == [] then [] else (if rows[0].createdAt == t then [rows[0]] else []) + At(rows[1..], t)
  }

  function WithKey<R(==,!new), S(==,!new)>(rows: seq<Row<R, S>>, key: string): (r: seq<Row<R, S>>)
    ensures forall x :: x in r <==> x in rows && x.key == key
  {
    if rows == [] then [] else (if rows[0].key == key then [rows[0]] else []) + WithKey(rows[1..], key)
  }

  /** `ORDER BY id DESC LIMIT 1`. */
  function TopById<R(==,!new), S(==,!new)>(rows: seq<Row<R, S>>): (r: Row<R, S>)
    requires rows != []
    ensures r in rows
    ensures forall x :: x in rows ==> x.id <= r.id
  {
    if |rows| == 1 then rows[0]
    else
      var r := TopById(rows[1..]);
      if r.id < rows[0].id then rows[0] else r
  }

  /** `_latest_checkpoint`: among the newest rows, one whose key is the workflow's current step wins. */
  function Latest<R(==,!new), S(==,!new)>(rows: seq<Row<R, S>>, step: string, run: R): Option<Row<R, S>> {
    var own := OfRun(rows, run);
    if own == [] then None
    else
      var newest := At(own, NewestStamp(own));
      var matching := WithKey(newest, step);
      if step != "" && matching != [] then Some(TopById(matching)) else Some(TopById(newest))
  }

  /** The declarative reading of `_latest_checkpoint`, ties of older installations included. */
  ghost predicate ResumesNewest<R(!new), S(!new)>(rows: seq<Row<R, S>>, step: string, run: R, r: Row<R, S>) {
    && r in rows && r.run == run
    && (forall x :: x in rows && x.run == run ==> x.createdAt <= r.createdAt)
    && (step != "" && (exists x :: x in rows && x.run == run && x.createdAt == r.createdAt && x.key == step) ==>
        r.key == step)
    && (forall x ::
        x in rows && x.run == run && x.createdAt == r.createdAt && (x.key == r.key || step == "" || r.key != step) ==>
          x.id <= r.id)
  }

  /**
   A run with rows resumes from a newest one, from the workflow's current step if any newest row has that key, and ties
   go to the largest id.
   */
  lemma LatestIsNewest<R(!new), S(!new)>(rows: seq<Row<R, S>>, step: string, run: R)
    ensures Latest(rows, step, run).None? <==> forall x :: x in rows ==> x.run != run
    ensures Latest(rows, step, run).Some? ==> ResumesNewest(rows, step, run, Latest(rows, step, run).value)
  {
    var own := OfRun(rows, run);
    if own != [] {
      assert own[0] in own;
      var t := NewestStamp(own);
      var newest := At(own, t);
      var matching := WithKey(newest, step);
      assert newest != [];
      forall x | x in rows && x.run == run && x.createdAt == t && x.key == step
        ensures x in matching
      {
      }
    } else {
      forall x | x in rows ensures x.run != run {
        assert x.run == run ==> x in own;
      }
    }
  }

  // ----- saving -----

  /** The stamp of a new row: the clock reading, or one second after the latest row the session sees. */
  function Stamp<R(==,!new), S(==,!new)>(previous: Option<Row<R, S>>, clock: int): int {
    if previous.Some? && clock <= previous.value.seen then previous.value.seen + SECOND else clock
  }

  /** `save`: the row is inserted and, when the clock did not advance, its stamp is moved. */
  function Save<R(==,!new), S(==,!new)>(rows: seq<Row<R, S>>, step: string, run: R, key: string, state: S, id: int,
                                        clock: int, p: int)
    : seq<Row<R, S>>
    requires p > 0
  {
    var t := Stamp(Latest(rows, step, run), clock);
    rows + [Row(id, run, key, state, t, Stored(t, p))]
  }

  /** A new session sees the stored stamps. */
  function Refresh<R(==,!new), S(==,!new)>(rows: seq<Row<R, S>>): (r: seq<Row<R, S>>)
    ensures |r| == |rows|
    ensures forall i :: 0 <= i < |rows| ==> r[i] == rows[i].(seen := rows[i].createdAt)
  {
    seq(|rows|, i requires 0 <= i < |rows| => rows[i].(seen := rows[i].createdAt))
  }

  /** Every stored stamp is the stored form of the stamp the session sees. */
  predicate Coherent<R(==,!new), S(==,!new)>(rows: seq<Row<R, S>>, p: int)
    requires p > 0
  {
    forall x <- rows :: x.createdAt == Stored(x.seen, p)
  }

  /** The stamps of a run strictly increase at the column's precision. */
  predicate Ordered<R(==,!new), S(==,!new)>(rows: seq<Row<R, S>>, run: R) {
    forall i, j :: 0 <= i < j < |rows| && rows[i].run == run && rows[j].run == run ==>
        rows[i].createdAt < rows[j].createdAt
  }

  ghost predicate AllOrdered<R(!new), S(!new)>(rows: seq<Row<R, S>>) {
    forall run :: Ordered(rows, run)
  }

  /** The clock readings that keep a run ordered: not later than the latest row by less than one stored unit. */
  predicate Separated<R(==,!new), S(==,!new)>(previous: Option<Row<R, S>>, clock: int, p: int) {
    previous.Some? ==> clock <= previous.value.seen || previous.value.createdAt + p <= clock
  }

  lemma StoredFacts(t: int, p: int)
    requires Precision(p)
    ensures Stored(t, p) % p == 0
    ensures Stored(t, p) <= t < Stored(t, p) + p
    ensures Stored(t + SECOND, p) == Stored(t, p) + SECOND
    ensures Stored(Stored(t, p), p) == Stored(t, p)
  {
    var q := t / p;
    var u := SECOND / p;
    assert t == q * p + t % p;
    assert SECOND == u * p;
    assert t + SECOND == (q + u) * p + t % p;
    ModOf(q, 0, p);
    ModOf(q + u, t % p, p);
    assert Stored(t, p) == q * p + 0;
  }

  lemma ProductAtLeast(k: int, p: int)
    requires k >= 1 && p > 0
    ensures k * p >= p
  {
  }

  /** Quotient and remainder are unique. */
  lemma Unique(q: int, r: int, d: int, m: int, p: int)
    requires p > 0 && 0 <= r < p && 0 <= m < p && q * p + r == d * p + m
    ensures q == d && r == m
  {
    assert (d - q) * p == d * p - q * p;
    assert (q - d) * p == q * p - d * p;
    if d > q { ProductAtLeast(d - q, p); } else if d < q { ProductAtLeast(q - d, p); }
  }

  lemma ModOf(q: int, r: int, p: int)
    requires p > 0 && 0 <= r < p
    ensures (q * p + r) % p == r
  {
    var x := q * p + r;
    var d, m := x / p, x % p;
    assert x == d * p + m;
    Unique(q, r, d, m, p);
  }

  /** A stored stamp is past a multiple of the precision exactly when it is a whole unit past it. */
  lemma StoredPast(t: int, base: int, p: int)
    requires Precision(p) && base % p == 0
    ensures Stored(t, p) > base <==> t >= base + p
  {
    StoredFacts(t, p);
    var q, d := t / p, base / p;
    assert t == q * p + t % p && base == d * p;
    assert (q - d) * p == q * p - d * p && (d - q) * p == d * p - q * p;
    if q > d { ProductAtLeast(q - d, p); } else if q < d { ProductAtLeast(d - q, p); }
  }

  lemma RefreshKeepsCoherent<R(!new), S(!new)>(rows: seq<Row<R, S>>, p: int)
    requires Precision(p) && Coherent(rows, p)
    ensures Coherent(Refresh(rows), p)
  {
    forall x | x in Refresh(rows) ensures x.createdAt == Stored(x.seen, p) {
      var i :| 0 <= i < |rows| && Refresh(rows)[i] == x;
      assert rows[i] in rows;
      StoredFacts(rows[i].seen, p);
    }
  }

  lemma OfRunIndex<R(!new), S(!new)>(rows: seq<Row<R, S>>, run: R, x: Row<R, S>) returns (i: nat)
    requires x in rows && x.run == run
    ensures i < |rows| && rows[i] == x
  {
    i :| 0 <= i < |rows| && rows[i] == x;
  }

  lemma AppendKeepsCoherent<R(!new), S(!new)>(rows: seq<Row<R, S>>, row: Row<R, S>, p: int)
    requires Precision(p) && Coherent(rows, p) && row.createdAt == Stored(row.seen, p)
    ensures Coherent(rows + [row], p)
  {
  }

  /** A row extends an ordered run exactly when it is past every row of the run. */
  lemma AppendOrders<R(!new), S(!new)>(rows: seq<Row<R, S>>, row: Row<R, S>, run: R)
    requires Ordered(rows, run) && row.run == run
    ensures Ordered(rows + [row], run) <==> forall x :: x in rows && x.run == run ==> x.createdAt < row.createdAt
  {
    var after := rows + [row];
    assert after[|rows|] == row;
    if Ordered(after, run) {
      forall x | x in rows && x.run == run ensures x.createdAt < row.createdAt {
        var i := OfRunIndex(rows, run, x);
        assert after[i] == x;
      }
    } else {
      var i, j :| 0 <= i < j < |after| && after[i].run == run && after[j].run == run &&
        !(after[i].createdAt < after[j].createdAt);
      assert j == |rows| && rows[i] in rows;
    }
  }

  /** Saving keeps a run ordered exactly when the clock reading is separated from the latest row. */
  lemma SaveOrders<R(!new), S(!new)>(rows: seq<Row<R, S>>, step: string, run: R, key: string, state: S, id: int,
                                     clock: int, p: int)
    requires Precision(p) && Coherent(rows, p) && Ordered(rows, run)
    ensures Coherent(Save(rows, step, run, key, state, id, clock, p), p)
    ensures Ordered(Save(rows, step, run, key, state, id, clock, p), run) <==>
            Separated(Latest(rows, step, run), clock, p)
  {
    hide Latest, Ordered;
    var previous := Latest(rows, step, run);
    var row := Save(rows, step, run, key, state, id, clock, p)[|rows|];
    assert Save(rows, step, run, key, state, id, clock, p) == rows + [row];
    AppendKeepsCoherent(rows, row, p);
    AppendOrders(rows, row, run);
    LatestIsNewest(rows, step, run);
    if previous.Some? {
      var last := previous.value;
      StoredFacts(last.seen, p);
      StoredPast(clock, last.createdAt, p);
      assert last.createdAt < row.createdAt <==> Separated(previous, clock, p);
    }
  }

  /** In an ordered table a run resumes from its last inserted row, whatever its current step. */
  lemma OrderedResumesLast<R(!new), S(!new)>(rows: seq<Row<R, S>>, run: R, k: nat, step: string)
    requires Ordered(rows, run)
    requires k < |rows| && rows[k].run == run && forall j :: k < j < |rows| ==> rows[j].run != run
    ensures Latest(rows, step, run) == Some(rows[k])
  {
    LatestIsNewest(rows, step, run);
    assert rows[k] in rows;
    var r := Latest(rows, step, run).value;
    var i := OfRunIndex(rows, run, r);
  }

  /** Rows of other runs change neither a run's order nor what it resumes from. */
  lemma OtherRunsUntouched<R(!new), S(!new)>(rows: seq<Row<R, S>>, row: Row<R, S>, run: R, step: string)
    requires row.run != run
    ensures OfRun(rows + [row], run) == OfRun(rows, run)
    ensures Latest(rows + [row], step, run) == Latest(rows, step, run)
    ensures Ordered(rows + [row], run) <==> Ordered(rows, run)
  {
    hide At, WithKey, TopById, NewestStamp, Ordered;
    assert (rows + [row])[..|rows|] == rows;
    OtherRunsOrder(rows, row, run);
  }

  lemma OtherRunsOrder<R(!new), S(!new)>(rows: seq<Row<R, S>>, row: Row<R, S>, run: R)
    requires row.run != run
    ensures Ordered(rows + [row], run) <==> Ordered(rows, run)
  {
    var after := rows + [row];
    assert after[|rows|] == row && forall i :: 0 <= i < |rows| ==> after[i] == rows[i];
    if Ordered(after, run) {
      forall i, j | 0 <= i < j < |rows| && rows[i].run == run && rows[j].run == run
        ensures rows[i].createdAt < rows[j].createdAt
      {
        assert after[i] == rows[i] && after[j] == rows[j];
      }
    }
  }

  // ----- what holds under any clock -----

  /** The stamps of a run never fall, though they may tie. */
  predicate Rising<R(==,!new), S(==,!new)>(rows: seq<Row<R, S>>, run: R) {
    forall i, j :: 0 <= i < j < |rows| && rows[i].run == run && rows[j].run == run ==>
        rows[i].createdAt <= rows[j].createdAt
  }

  /** Whatever the clock reads, a save is stored no earlier than any row of its run. */
  lemma SaveKeepsRising<R(!new), S(!new)>(rows: seq<Row<R, S>>, step: string, run: R, key: string, state: S, id: int,
                                          clock: int, p: int)
    requires Precision(p) && Coherent(rows, p) && Rising(rows, run)
    ensures Rising(Save(rows, step, run, key, state, id, clock, p), run)
    ensures Coherent(Save(rows, step, run, key, state, id, clock, p), p)
  {
    hide Latest, Stored;
    var after := Save(rows, step, run, key, state, id, clock, p);
    var row := after[|rows|];
    assert after == rows + [row];
    AppendKeepsCoherent(rows, row, p);
    LatestIsNewest(rows, step, run);
    var previous := Latest(rows, step, run);
    if previous.Some? {
      StoredIsMonotone(row.seen, previous.value.seen, p);
    }
    forall i | 0 <= i < |rows| && rows[i].run == run ensures rows[i].createdAt <= row.createdAt {
      assert rows[i] in rows;
    }
  }

  lemma OtherRunsRise<R(!new), S(!new)>(rows: seq<Row<R, S>>, row: Row<R, S>, run: R)
    requires row.run != run && Rising(rows, run)
    ensures Rising(rows + [row], run)
  {
  }

  lemma RefreshKeepsRising<R(!new), S(!new)>(rows: seq<Row<R, S>>, run: R)
    requires Rising(rows, run)
    ensures Rising(Refresh(rows), run)
  {
    hide Refresh;
  }

  /** So a run's last row is resumed, ties or not, when it alone has the workflow's current step as its key. */
  lemma OnlyStepRowIsResumed<R(!new), S(!new)>(rows: seq<Row<R, S>>, run: R, k: nat, step: string)
    requires Rising(rows, run) && k < |rows| && rows[k].run == run && rows[k].key == step && step != ""
    requires forall j :: 0 <= j < |rows| && j != k && rows[j].run == run ==> j < k && rows[j].key != step
    ensures Latest(rows, step, run) == Some(rows[k])
  {
    hide Latest;
    LatestIsNewest(rows, step, run);
    assert rows[k] in rows;
    var r := Latest(rows, step, run).value;
    var i := OfRunIndex(rows, run, r);
    assert i <= k;
    assert rows[k].createdAt == r.createdAt;
    assert r.key == step;
  }

  // ----- histories -----

  /** A row of the store: runs are named by their ids and states are kept as dictionaries. */
  type SavedRow = Row<string, Checkpoint>

  /** What happens to one database: saves of any run under any clock, moves of a workflow's step, and new sessions. */
  datatype Event =
    | Saved(run: string, key: string, state: AgentState, id: int, clock: int)
    | StepMoved(run: string, step: string)
    | Refreshed

  datatype Store = Store(rows: seq<SavedRow>, steps: map<string, string>)
  {
    function StepOf(run: string): string {
      if run in steps then steps[run] else ""
    }

    function LatestOf(run: string): Option<SavedRow> {
      Latest(rows, StepOf(run), run)
    }
  }

  function Apply(s: Store, e: Event, p: int): Store
    requires p > 0
  {
    match e
    case Saved(run, key, state, id, clock) =>
      s.(rows := Save(s.rows, s.StepOf(run), run, key, ToCheckpoint(state), id, clock, p))
    case StepMoved(run, step) => s.(steps := s.steps[run := step])
    case Refreshed => s.(rows := Refresh(s.rows))
  }

  /** The store after a history of an empty database. */
  function Replay(history: seq<Event>, p: int): Store
    requires p > 0
  {
    if history == [] then Store([], map[])
    else Apply(Replay(history[..|history| - 1], p), history[|history| - 1], p)
  }

  /** The state most recently saved for a run. */
  function LastSaved(history: seq<Event>, run: string): Option<AgentState> {
    if history == [] then None
    else
      var e := history[|history| - 1];
      if e.Saved? && e.run == run then Some(e.state) else LastSaved(history[..|history| - 1], run)
  }

  /** Every save of the history read a clock separated from the latest row of its run. */
  predicate AllSeparated(history: seq<Event>, p: int)
    requires p > 0
  {
    history == [] ||
    var before := history[..|history| - 1];
    var e := history[|history| - 1];
    AllSeparated(before, p) &&
    (e.Saved? ==> Separated(Replay(before, p).LatestOf(e.run), e.clock, p))
  }

  /** The last row of a run, by insertion. */
  ghost predicate LastRowHolds(rows: seq<SavedRow>, run: string, state: Option<AgentState>) {
    if state.None? then forall i :: 0 <= i < |rows| ==> rows[i].run != run
    else exists k: nat :: k < |rows| && rows[k].run == run && rows[k].state == ToCheckpoint(state.value) &&
                          forall j :: k < j < |rows| ==> rows[j].run != run
  }

  lemma AppendKeepsLastRow(rows: seq<SavedRow>, row: SavedRow, run: string, last: Option<AgentState>, state: AgentState)
    requires LastRowHolds(rows, run, last) && row.state == ToCheckpoint(state)
    ensures LastRowHolds(rows + [row], run, if row.run == run then Some(state) else last)
  {
    hide ToCheckpoint;
    var after := rows + [row];
    assert after[|rows|] == row && forall i :: 0 <= i < |rows| ==> after[i] == rows[i];
    if row.run != run && last.Some? {
      var k: nat :| k < |rows| && rows[k].run == run && rows[k].state == ToCheckpoint(last.value) &&
                    forall j :: k < j < |rows| ==> rows[j].run != run;
      assert after[k] == rows[k];
    }
  }

  lemma RefreshKeepsLastRow(rows: seq<SavedRow>, run: string, last: Option<AgentState>)
    requires LastRowHolds(rows, run, last)
    ensures LastRowHolds(Refresh(rows), run, last)
  {
    hide ToCheckpoint;
    if last.Some? {
      var k: nat :| k < |rows| && rows[k].run == run && rows[k].state == ToCheckpoint(last.value) &&
                    forall j :: k < j < |rows| ==> rows[j].run != run;
      assert Refresh(rows)[k].run == run;
    }
  }

  lemma {:induction false} ReplayKeepsRows(history: seq<Event>, p: int, run: string)
    requires Precision(p)
    ensures Coherent(Replay(history, p).rows, p)
    ensures LastRowHolds(Replay(history, p).rows, run, LastSaved(history, run))
  {
    hide ToCheckpoint, Latest, Stored, Stamp;
    if history == [] {
    } else {
      hide Coherent, LastRowHolds, Refresh;
      var before, e := history[..|history| - 1], history[|history| - 1];
      var s := Replay(before, p);
      ReplayKeepsRows(before, p, run);
      match e
      case Saved(r, key, state, id, clock) =>
        var t := Stamp(s.LatestOf(r), clock);
        var row := Row(id, r, key, ToCheckpoint(state), t, Stored(t, p));
        assert Apply(s, e, p).rows == s.rows + [row];
        AppendKeepsCoherent(s.rows, row, p);
        AppendKeepsLastRow(s.rows, row, run, LastSaved(before, run), state);
      case StepMoved(_, _) =>
      case Refreshed =>
        RefreshKeepsCoherent(s.rows, p);
        RefreshKeepsLastRow(s.rows, run, LastSaved(before, run));
    }
  }

  lemma OrderSurvivesAppend(rows: seq<SavedRow>, row: SavedRow, run: string)
    requires Ordered(rows + [row], run)
    ensures Ordered(rows, run)
  {
    forall i, j | 0 <= i < j < |rows| && rows[i].run == run && rows[j].run == run
      ensures rows[i].createdAt < rows[j].createdAt
    {
      assert (rows + [row])[i] == rows[i] && (rows + [row])[j] == rows[j];
    }
  }

  /** One event keeps every run ordered exactly when, if it saves, its clock reading is separated. */
  lemma EventOrders(s: Store, e: Event, p: int)
    requires Precision(p) && Coherent(s.rows, p)
    ensures AllOrdered(Apply(s, e, p).rows) <==>
            AllOrdered(s.rows) && (e.Saved? ==> Separated(s.LatestOf(e.run), e.clock, p))
  {
    var after := Apply(s, e, p).rows;
    match e
    case Saved(r, key, state, id, clock) =>
      var row := after[|s.rows|];
      if AllOrdered(after) {
        forall run ensures Ordered(s.rows, run) { OrderSurvivesAppend(s.rows, row, run); }
        SaveOrders(s.rows, s.StepOf(r), r, key, ToCheckpoint(state), id, clock, p);
      }
      if AllOrdered(s.rows) && Separated(s.LatestOf(r), clock, p) {
        forall run ensures Ordered(after, run) {
          if run == r { SaveOrders(s.rows, s.StepOf(r), r, key, ToCheckpoint(state), id, clock, p); }
          else { OtherRunsUntouched(s.rows, row, run, ""); }
        }
      }
    case StepMoved(_, _) =>
    case Refreshed =>
      forall run ensures Ordered(after, run) <==> Ordered(s.rows, run) {
        RefreshKeepsOrder(s.rows, run);
      }
  }

  lemma RefreshKeepsOrder<R(!new), S(!new)>(rows: seq<Row<R, S>>, run: R)
    ensures Ordered(Refresh(rows), run) <==> Ordered(rows, run)
  {
    var after := Refresh(rows);
    if Ordered(after, run) {
      forall i, j | 0 <= i < j < |rows| && rows[i].run == run && rows[j].run == run
        ensures rows[i].createdAt < rows[j].createdAt
      {
        assert after[i].run == run && after[j].run == run;
      }
    }
  }

  /**
   Over every interleaving of saves of many runs and every clock: the stored stamps of all runs strictly
   increase if and only if each save read a clock separated from its run's latest row.
   */
  lemma {:induction false} HistoryOrderedIffSeparated(history: seq<Event>, p: int)
    requires Precision(p)
    ensures AllOrdered(Replay(history, p).rows) <==> AllSeparated(history, p)
  {
    if history == [] {
    } else {
      var before, e := history[..|history| - 1], history[|history| - 1];
      HistoryOrderedIffSeparated(before, p);
      ReplayKeepsRows(before, p, "");
      EventOrders(Replay(before, p), e, p);
    }
  }

  /** After a history of separated saves, a run resumes exactly the state it saved last. */
  lemma ResumesLastSaved(c: Coercions, history: seq<Event>, p: int, run: string)
    requires Precision(p) && AllSeparated(history, p)
    ensures var s := Replay(history, p); var last := LastSaved(history, run);
            if last.None? then s.LatestOf(run).None?
            else s.LatestOf(run).Some? && s.LatestOf(run).value.state == ToCheckpoint(last.value)
                 && FromCheckpoint(c, s.LatestOf(run).value.state) == Ok(Normalise(last.value))
  {
    var s, last := Replay(history, p), LastSaved(history, run);
    HistoryOrderedIffSeparated(history, p);
    ReplayKeepsRows(history, p, run);
    if last.None? {
      LatestIsNewest(s.rows, s.StepOf(run), run);
      forall x | x in s.rows ensures x.run != run { var i :| 0 <= i < |s.rows| && s.rows[i] == x; }
    } else {
      var k: nat :| k < |s.rows| && s.rows[k].run == run && s.rows[k].state == ToCheckpoint(last.value) &&
                    forall j :: k < j < |s.rows| ==> s.rows[j].run != run;
      OrderedResumesLast(s.rows, run, k, s.StepOf(run));
      RoundTrip(c, last.value);
    }
  }

  lemma ExactIsSeparated<R(!new), S(!new)>(rows: seq<Row<R, S>>, step: string, run: R, clock: int, p: int)
    requires Precision(p) && Coherent(rows, p) && clock % p == 0
    ensures Separated(Latest(rows, step, run), clock, p)
  {
    LatestIsNewest(rows, step, run);
    var latest := Latest(rows, step, run);
    if latest.Some? && clock > latest.value.seen {
      ExactPast(clock, latest.value.seen, p);
    }
  }

  /** A clock read at the column's own precision is always separated, even when it repeats or goes back. */
  lemma {:induction false} ExactClockSeparates(history: seq<Event>, p: int)
    requires Precision(p) && forall e <- history :: e.Saved? ==> e.clock % p == 0
    ensures AllSeparated(history, p)
  {
    if history == [] {
    } else {
      var before, e := history[..|history| - 1], history[|history| - 1];
      ExactClockSeparates(before, p);
      assert e in history;
      if e.Saved? {
        var s := Replay(before, p);
        ReplayKeepsRows(before, p, e.run);
        ExactIsSeparated(s.rows, s.StepOf(e.run), e.run, e.clock, p);
      }
    }
  }

  lemma ExactPast(clock: int, seen: int, p: int)
    requires Precision(p) && clock % p == 0 && clock > seen
    ensures clock >= Stored(seen, p) + p
  {
    StoredFacts(seen, p);
    var q, d := clock / p, seen / p;
    assert clock == q * p && seen == d * p + seen % p;
    assert (q - d) * p == q * p - d * p;
    if q > d { ProductAtLeast(q - d, p); } else if q < d { ProductAtLeast(d - q, p); }
  }

  lemma AtAppend<R(!new), S(!new)>(rows: seq<Row<R, S>>, row: Row<R, S>, t: int)
    ensures At(rows + [row], t) == At(rows, t) + (if row.createdAt == t then [row] else [])
  {
    if rows != [] { assert (rows + [row])[1..] == rows[1..] + [row]; }
  }

  lemma WithKeyAppend<R(!new), S(!new)>(rows: seq<Row<R, S>>, row: Row<R, S>, key: string)
    ensures WithKey(rows + [row], key) == WithKey(rows, key) + (if row.key == key then [row] else [])
  {
    if rows != [] { assert (rows + [row])[1..] == rows[1..] + [row]; }
  }

  lemma TopAppend<R(!new), S(!new)>(rows: seq<Row<R, S>>, row: Row<R, S>)
    requires rows != []
    ensures TopById(rows + [row]) == if TopById(rows).id <= row.id then row else TopById(rows)
  {
    assert (rows + [row])[1..] == rows[1..] + [row];
    if |rows| > 1 { TopAppend(rows[1..], row); }
  }

  /** A new row that ties with the latest one replaces it exactly when the older row has another key or a smaller id. */
  lemma TieBreak<R(!new), S(!new)>(rows: seq<Row<R, S>>, step: string, run: R, row: Row<R, S>)
    requires step != "" && row.run == run && row.key == step
    requires Latest(rows, step, run).Some?
    requires Latest(rows, step, run).value.createdAt == row.createdAt && Latest(rows, step, run).value.id != row.id
    ensures var older := Latest(rows, step, run).value;
            Latest(rows + [row], step, run) == Some(if older.key != step || older.id < row.id then row else older)
  {
    hide At, WithKey, TopById;
    var older := Latest(rows, step, run).value;
    LatestIsNewest(rows, step, run);
    var own, t := OfRun(rows, run), row.createdAt;
    assert (rows + [row])[..|rows|] == rows;
    assert OfRun(rows + [row], run) == own + [row];
    assert NewestStamp(own) == t && NewestStamp(own + [row]) == t;
    var newest := At(own, t);
    AtAppend(own, row, t);
    var matching := WithKey(newest, step);
    WithKeyAppend(newest, row, step);
    assert Latest(rows + [row], step, run) == Some(TopById(matching + [row]));
    if matching != [] { TopAppend(matching, row); }
  }

  /**
   A save that is not separated ties with the latest row, and then the tie-break decides: a save under the workflow's
   current step resumes from the new row exactly when the older row has another key or a smaller id.
   */
  lemma UnseparatedSaveTies<R(!new), S(!new)>(rows: seq<Row<R, S>>, step: string, run: R, state: S, id: int, clock: int,
                                              p: int)
    requires Precision(p) && Coherent(rows, p) && step != ""
    requires Latest(rows, step, run).Some? && !Separated(Latest(rows, step, run), clock, p)
    requires Latest(rows, step, run).value.id != id
    ensures var older := Latest(rows, step, run).value;
            var after := Save(rows, step, run, step, state, id, clock, p);
            && after[|rows|].createdAt == older.createdAt
            && Latest(after, step, run) == Some(if older.key != step || older.id < id then after[|rows|] else older)
  {
    var older := Latest(rows, step, run).value;
    LatestIsNewest(rows, step, run);
    UnseparatedStamp(older.seen, clock, p);
    TieBreak(rows, step, run, Row(id, run, step, state, clock, Stored(clock, p)));
  }

  lemma UnseparatedStamp(seen: int, clock: int, p: int)
    requires Precision(p) && seen < clock < Stored(seen, p) + p
    ensures Stored(clock, p) == Stored(seen, p)
  {
    StoredFacts(seen, p);
    StoredPast(clock, Stored(seen, p), p);
    StoredIsMonotone(clock, seen, p);
  }

  /** Of two readings, the later one is not stored as an earlier stamp. */
  lemma StoredIsMonotone(later: int, earlier: int, p: int)
    requires Precision(p) && later > earlier
    ensures Stored(later, p) >= Stored(earlier, p)
  {
    StoredFacts(later, p);
    StoredFacts(earlier, p);
    var q, d := later / p, earlier / p;
    assert later == q * p + later % p && earlier == d * p + earlier % p;
    assert (d - q) * p == d * p - q * p;
    if d > q { ProductAtLeast(d - q, p); }
  }

  /**
   On a column of whole seconds, readings of 10.9 s and, in a new session, 10.95 s tie, and the older state is resumed.
   */
  lemma SameSecondResumesOlder<R(!new), S(!new)>(run: R, older: S, newer: S)
    ensures var rows := [Row(2, run, "plan", older, 10_000_000, 10_000_000)];
            Precision(SECOND) && Coherent(rows, SECOND) &&
            Latest(Save(rows, "plan", run, "plan", newer, 1, 10_950_000, SECOND), "plan", run) == Some(rows[0])
  {
    var rows := [Row(2, run, "plan", older, 10_000_000, 10_000_000)];
    assert rows[0] in rows;
    LatestIsNewest(rows, "plan", run);
    UnseparatedSaveTies(rows, "plan", run, newer, 1, 10_950_000, SECOND);
  }

  // ----- the store, updated in place -----

  datatype Snapshot = Snapshot(run: string, key: string, state: AgentState, createdAt: int)

  datatype StoreError = CheckpointNotFound | Unreadable

  /** The checkpoint table and the workflow steps it consults, shared by every run. */
  class CheckpointStore {
    var rows: seq<SavedRow>
    var steps: map<string, string>
    const precision: int
    const coercions: Coercions

    ghost predicate Valid()
      reads this
    {
      Precision(precision) && Coherent(rows, precision)
    }

    function StepOf(run: string): string
      reads this
    {
      if run in steps then steps[run] else ""
    }

    constructor (p: int, c: Coercions)
      requires Precision(p)
      ensures Valid() && rows == [] && steps == map[] && precision == p
    {
      rows, steps, precision, coercions := [], map[], p, c;
    }

    method LatestCheckpoint(run: string) returns (r: Option<SavedRow>)
      requires Valid()
      ensures r == Latest(rows, StepOf(run), run)
      ensures r.Some? ==> ResumesNewest(rows, StepOf(run), run, r.value)
    {
      LatestIsNewest(rows, StepOf(run), run);
      var own := OfRun(rows, run);
      if own == [] {
        return None;
      }
      var candidates := At(own, NewestStamp(own));
      var currentStep := StepOf(run);
      if currentStep != "" {
        var matching := WithKey(candidates, currentStep);
        if matching != [] {
          return Some(TopById(matching));
        }
      }
      return Some(TopById(candidates));
    }

    /** Inserts the row, then moves its stamp when the clock did not advance. */
    method SaveState(run: string, key: string, state: AgentState, id: int, clock: int) returns (snapshot: Snapshot)
      requires Valid()
      modifies this
      ensures Valid() && steps == old(steps)
      ensures rows == old(Save(rows, StepOf(run), run, key, ToCheckpoint(state), id, clock, precision))
      ensures snapshot.run == run && snapshot.key == key && snapshot.state == Normalise(state)
    {
      hide ToCheckpoint, FromCheckpoint, Normalise, Latest, Stored;
      ghost var before := rows;
      var latestBeforeSave := LatestCheckpoint(run);
      var checkpoint := ToCheckpoint(state);
      var row := Row(id, run, key, checkpoint, clock, Stored(clock, precision));
      rows := rows + [row];
      if latestBeforeSave.Some? && row.seen <= latestBeforeSave.value.seen {
        var moved := latestBeforeSave.value.seen + SECOND;
        row := row.(seen := moved, createdAt := Stored(moved, precision));
        rows := rows[|rows| - 1 := row];
      }
      assert rows == before + [row];
      AppendKeepsCoherent(before, row, precision);
      var loaded := FromCheckpoint(coercions, checkpoint);
      assert loaded == Ok(Normalise(state)) by { RoundTrip(coercions, state); }
      snapshot := Snapshot(run, key, loaded.value, row.seen);
    }

    method LoadLatest(run: string) returns (r: Result<Snapshot, StoreError>)
      requires Valid()
      ensures r.Err? && r.error.CheckpointNotFound? <==> forall x :: x in rows ==> x.run != run
      ensures r.Ok? ==> exists x :: ResumesNewest(rows, StepOf(run), run, x) &&
                                    FromCheckpoint(coercions, x.state) == Ok(r.value.state) && r.value.key == x.key &&
                                      r.value.run == run
      ensures (forall x :: x in rows ==> FromCheckpoint(coercions, x.state).Ok?) ==>
              r.Ok? || r.error.CheckpointNotFound?
    {
      LatestIsNewest(rows, StepOf(run), run);
      var latest := LatestCheckpoint(run);
      if latest.None? {
        return Err(CheckpointNotFound);
      }
      var state := FromCheckpoint(coercions, latest.value.state);
      if state.Err? {
        return Err(Unreadable);
      }
      r := Ok(Snapshot(latest.value.run, latest.value.key, state.value, latest.value.seen));
      assert ResumesNewest(rows, StepOf(run), run, latest.value);
    }
  }
}
