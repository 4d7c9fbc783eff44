/**
 * Runs of the collection scheduler: passes, any number of them on a source at once, step by step,
 * interleaved with each other and with every other store operation, under a clock that never goes back.
 */
module Passes {
  import opened Basics
  import opened Model
  import opened Tables
  import opened Collection

  /** Where a pass stands, with the source it is on and the row that was listed. */
  datatype Pass =
    | Listed(id: string, row: CostSource)
    | Started(id: string, row: CostSource, start: Time)
    | Windowed(id: string, row: CostSource, window: Window)
    | Collected(id: string, row: CostSource, window: Window, batch: seq<CostRecord>)
    | Stored(id: string, row: CostSource, window: Window, batch: seq<CostRecord>)

  /** A finished pass: its window and when its watermark was written. */
  datatype Entry = Entry(window: Window, written: Time)

  /** The ids handed out, the finished passes and the pass that stored a record are bookkeeping. */
  datatype System = System(
    db: Tables,
    clock: Time,
    issued: set<string>,
    passes: map<nat, Pass>,
    next: nat,
    log: map<string, seq<Entry>>,
    origin: map<string, nat>)

  datatype Action =
    | Tick(step: nat)
    | Operate(op: Op)
    | List(id: string)
    | SampleStart(p: nat)
    | SampleEnd(p: nat)
    | CollectFails(p: nat)
    | CollectReturns(p: nat, batch: seq<CostRecord>)
    | InsertFails(p: nat)
    | Insert(p: nat)
    | WriteWatermark(p: nat)
    | LoseWatermark(p: nat)

  function LogOf(s: System, id: string): seq<Entry> {
    if id in s.log then s.log[id] else []
  }

  function Initial(clock: Time): System {
    System(EMPTY, clock, {}, map[], 0, map[], map[])
  }

  /** Other callers of the store: they insert no records, move no watermark, and create sources under new ids. */
  predicate Allowed(s: System, op: Op) {
    match op
    case InsertCostRecords(_) => false
    case UpdateCollectedAt(_, _) => false
    case CreateCostSource(id, _) => id !in s.issued
    case _ => true
  }

  predicate Enabled(s: System, a: Action) {
    match a
    case Tick(_) => true
    case Operate(op) => Allowed(s, op)
    case List(id) => id in s.db.sources && s.db.sources[id].enabled
    case SampleStart(p) => p in s.passes && s.passes[p].Listed?
    case SampleEnd(p) => p in s.passes && s.passes[p].Started?
    case CollectFails(p) => p in s.passes && s.passes[p].Windowed?
    case CollectReturns(p, batch) =>
      && p in s.passes && s.passes[p].Windowed?
      && Normalised(batch, s.passes[p].id, s.passes[p].row, s.passes[p].window)
    case InsertFails(p) => p in s.passes && s.passes[p].Collected?
    case Insert(p) => p in s.passes && s.passes[p].Collected?
    case WriteWatermark(p) => p in s.passes && s.passes[p].Stored?
    case LoseWatermark(p) => p in s.passes && s.passes[p].Stored?
  }

  function At(s: System, p: nat, pass: Pass): System {
    s.(passes := s.passes[p := pass])
  }

  function Done(s: System, p: nat): System {
    s.(passes := s.passes - {p})
  }

  function NewIds(op: Op): set<string> {
    match op
    case CreateCostSource(id, _) => {id}
    case _ => {}
  }

  function WithOrigin(origin: map<string, nat>, ids: set<string>, p: nat): map<string, nat> {
    map r | r in origin.Keys + ids :: if r in ids then p else origin[r]
  }

  /** The batch of a pass goes in as a whole, or the pass ends. */
  function Inserted(s: System, p: nat): System
    requires p in s.passes && s.passes[p].Collected?
  {
    var Collected(id, row, window, batch) := s.passes[p];
    match InsertAll(s.db, batch)
    case None => Done(s, p)
    case Some(d) =>
      At(s.(db := d, origin := WithOrigin(s.origin, Ids(batch), p)), p, Stored(id, row, window, batch))
  }

  /** The watermark is written with a fresh reading of the clock, and the pass ends. */
  function Written(s: System, p: nat): System
    requires p in s.passes && s.passes[p].Stored?
  {
    var id := s.passes[p].id;
    Done(s, p).(db := WithCollectedAt(s.db, id, s.clock),
                log := s.log[id := LogOf(s, id) + [Entry(s.passes[p].window, s.clock)]])
  }

  function Apply(s: System, a: Action): System
    requires Enabled(s, a)
  {
    match a
    case Tick(step) => s.(clock := s.clock + step)
    case Operate(op) => s.(db := Exec(s.db, op).0, issued := s.issued + NewIds(op))
    case List(id) => At(s, s.next, Listed(id, s.db.sources[id])).(next := s.next + 1)
    case SampleStart(p) =>
      var Listed(id, row) := s.passes[p];
      At(s, p, Started(id, row, StartOf(row.lastCollectedAt, s.clock)))
    case SampleEnd(p) =>
      var Started(id, row, start) := s.passes[p];
      At(s, p, Windowed(id, row, Window(start, s.clock)))
    case CollectFails(p) => Done(s, p)
    case CollectReturns(p, batch) =>
      var Windowed(id, row, window) := s.passes[p];
      At(s, p, if batch == [] then Stored(id, row, window, []) else Collected(id, row, window, batch))
    case InsertFails(p) => Done(s, p)
    case Insert(p) => Inserted(s, p)
    case WriteWatermark(p) => Written(s, p)
    case LoseWatermark(p) => Done(s, p)
  }

  predicate Possible(s: System, run: seq<Action>)
    decreases |run|
  {
    run == [] || (Enabled(s, run[0]) && Possible(Apply(s, run[0]), run[1..]))
  }

  function After(s: System, run: seq<Action>): System
    requires Possible(s, run)
    decreases |run|
  {
    if run == [] then s else After(Apply(s, run[0]), run[1..])
  }

  /** One more action before a run. */
  lemma OneBefore(s: System, a: Action, rest: seq<Action>)
    requires Enabled(s, a) && Possible(Apply(s, a), rest)
    ensures Possible(s, [a] + rest) && After(s, [a] + rest) == After(Apply(s, a), rest)
  {
    assert ([a] + rest)[1..] == rest;
  }

  /** One more action at the end of a run. */
  lemma {:induction false} OneMore(s: System, run: seq<Action>, a: Action)
    requires Possible(s, run) && Enabled(After(s, run), a)
    ensures Possible(s, run + [a]) && After(s, run + [a]) == Apply(After(s, run), a)
    decreases |run|
  {
    if run == [] {
      assert run + [a] == [a] && [a][1..] == [];
    } else {
      assert (run + [a])[1..] == run[1..] + [a];
      OneMore(Apply(s, run[0]), run[1..], a);
    }
  }

  function Operations(ops: seq<Op>): seq<Action> {
    if ops == [] then [] else Operations(ops[..|ops| - 1]) + [Operate(ops[|ops| - 1])]
  }

  function SourcesMade(ops: seq<Op>): set<string> {
    set op | op in ops && op.CreateCostSource? :: op.id
  }

  /** No records, no watermarks, and every source under an id of its own. */
  predicate ByOthers(ops: seq<Op>) {
    && (forall op | op in ops :: !op.InsertCostRecords? && !op.UpdateCollectedAt?)
    && (forall i, j | 0 <= i < j < |ops| && ops[i].CreateCostSource? && ops[j].CreateCostSource? ::
          ops[i].id != ops[j].id)
  }

  lemma LastIsByOthers(ops: seq<Op>)
    requires ByOthers(ops) && ops != []
    ensures var front, last := ops[..|ops| - 1], ops[|ops| - 1];
            && ByOthers(front) && !last.InsertCostRecords? && !last.UpdateCollectedAt?
            && SourcesMade(ops) == SourcesMade(front) + NewIds(last) && SourcesMade(front) !! NewIds(last)
  {
    assert ops == ops[..|ops| - 1] + [ops[|ops| - 1]];
  }

  lemma OneMoreOperation(s: System, run: seq<Action>, op: Op)
    requires Possible(s, run) && !op.InsertCostRecords? && !op.UpdateCollectedAt?
    requires NewIds(op) !! After(s, run).issued
    ensures var e := After(s, run);
            && Possible(s, run + [Operate(op)])
            && After(s, run + [Operate(op)]) == e.(db := Exec(e.db, op).0, issued := e.issued + NewIds(op))
  {
    OneMore(s, run, Operate(op));
  }

  /**
   * Before and between the steps of passes, the store takes any sequence of operations that insert no
   * records, move no watermarks and create sources under new ids.
   */
  lemma {:induction false} StoreHistoriesHappen(s: System, ops: seq<Op>)
    requires ByOthers(ops) && SourcesMade(ops) !! s.issued
    ensures Possible(s, Operations(ops))
    ensures var e := After(s, Operations(ops)); e == s.(db := e.db, issued := s.issued + SourcesMade(ops))
    ensures s.db == EMPTY ==> After(s, Operations(ops)).db == ExecAll(EMPTY, ops)
  {
    if ops != [] {
      LastIsByOthers(ops);
      StoreHistoriesHappen(s, ops[..|ops| - 1]);
      OneMoreOperation(s, Operations(ops[..|ops| - 1]), ops[|ops| - 1]);
    }
  }

  // ---------------------------------------------------------------- records and their source's project

  /** Source ids are never reused, so that sources keep their project; records follow their source. */
  ghost predicate Charged(s: System) {
    && Consistent(s.db)
    && s.db.sources.Keys <= s.issued
    && (forall p | p in s.passes :: ChargedPass(s.passes[p], s.db, s.issued))
    && (forall r | r in s.db.records ::
          s.db.records[r].projectId == s.db.sources[s.db.records[r].costSourceId].projectId)
  }

  ghost predicate ChargedPass(pass: Pass, db: Tables, issued: set<string>) {
    && pass.id in issued
    && (pass.id in db.sources ==> pass.row.projectId == db.sources[pass.id].projectId)
    && (pass.Collected? ==> pass.batch != [])
    && (pass.Collected? || pass.Stored? ==> Normalised(pass.batch, pass.id, pass.row, pass.window))
  }

  /** What other store operations leave of sources and records. */
  ghost predicate SourcesKept(db: Tables, d: Tables, created: set<string>) {
    && (forall id | id in d.sources ::
          if id in db.sources then
            && d.sources[id].projectId == db.sources[id].projectId
            && d.sources[id].lastCollectedAt == db.sources[id].lastCollectedAt
          else id in created && d.sources[id].lastCollectedAt == None)
    && (forall r | r in d.records :: r in db.records && d.records[r] == db.records[r])
  }

  lemma OperationKeepsSources(s: System, op: Op)
    requires Allowed(s, op)
    ensures SourcesKept(s.db, Exec(s.db, op).0, NewIds(op))
  {
  }

  lemma NewIdsAreNew(s: System, op: Op)
    requires Allowed(s, op)
    ensures NewIds(op) !! s.issued
  {
  }

  lemma OperateKeepsCharged(s: System, op: Op)
    requires Charged(s) && Allowed(s, op)
    ensures Charged(Apply(s, Operate(op)))
  {
    OperationKeepsSources(s, op);
    NewIdsAreNew(s, op);
    ExecKeepsConsistent(s.db, op);
    StillCharged(s, Apply(s, Operate(op)), NewIds(op));
  }

  lemma StillCharged(s: System, s': System, created: set<string>)
    requires Charged(s) && Consistent(s'.db) && SourcesKept(s.db, s'.db, created)
    requires s'.passes == s.passes && s'.issued == s.issued + created && created !! s.issued
    ensures Charged(s')
  {
  }

  /** What a batch that went in did to the tables. */
  ghost predicate BatchAdded(db: Tables, d: Tables, pass: Pass)
    requires pass.Collected?
  {
    && d.sources == db.sources
    && (forall r | r in db.records :: r in d.records && d.records[r] == db.records[r] && r !in Ids(pass.batch))
    && (forall r | r in d.records && r !in db.records ::
          r in Ids(pass.batch) && BelongsTo(d.records[r], pass.id, pass.row, pass.window))
  }

  lemma BatchIsAdded(db: Tables, d: Tables, pass: Pass)
    requires pass.Collected? && Normalised(pass.batch, pass.id, pass.row, pass.window)
    requires InsertAll(db, pass.batch) == Some(d)
    ensures BatchAdded(db, d, pass)
  {
    BatchIsAllOrNothing(db, pass.batch);
    forall r | r in d.records && r !in db.records ensures BelongsTo(d.records[r], pass.id, pass.row, pass.window) {
      var x :| x in pass.batch && x.id == r;
      assert d.records[r] == x;
    }
    forall r | r in db.records ensures r !in Ids(pass.batch) {
      if x :| x in pass.batch && x.id == r {
        assert false;
      }
    }
  }

  lemma InsertKeepsCharged(s: System, p: nat)
    requires Charged(s) && p in s.passes && s.passes[p].Collected?
    ensures Charged(Inserted(s, p))
  {
    var pass := s.passes[p];
    InsertAllKeepsConsistent(s.db, pass.batch);
    match InsertAll(s.db, pass.batch)
    case None =>
    case Some(d) =>
      BatchIsAdded(s.db, d, pass);
      GrownIsCharged(s, Inserted(s, p), pass);
  }

  lemma GrownIsCharged(s: System, s': System, pass: Pass)
    requires Charged(s) && pass.Collected? && ChargedPass(pass, s.db, s.issued)
    requires BatchAdded(s.db, s'.db, pass) && Consistent(s'.db) && s'.issued == s.issued
    requires forall p | p in s'.passes :: ChargedPass(s'.passes[p], s.db, s.issued)
    ensures Charged(s')
  {
    forall r | r in s'.db.records
      ensures s'.db.records[r].projectId == s'.db.sources[s'.db.records[r].costSourceId].projectId
    {
      if r !in s.db.records {
        assert BelongsTo(s'.db.records[r], pass.id, pass.row, pass.window);
      }
    }
  }

  lemma CollectedAtKeepsConsistent(db: Tables, id: string, at: Time)
    requires Consistent(db)
    ensures Consistent(WithCollectedAt(db, id, at))
  {
  }

  lemma WriteKeepsCharged(s: System, p: nat)
    requires Charged(s) && p in s.passes && s.passes[p].Stored?
    ensures Charged(Written(s, p))
  {
    CollectedAtKeepsConsistent(s.db, s.passes[p].id, s.clock);
  }

  /** The steps of a pass that leave the store alone. */
  predicate MovesPassOnly(a: Action) {
    a.SampleStart? || a.SampleEnd? || a.CollectFails? || a.CollectReturns? || a.InsertFails? || a.LoseWatermark?
  }

  /** A pass moves on, or ends; it stays on its source, with its row. */
  ghost predicate OnlyPassMoves(s: System, s': System, p: nat) {
    && p in s.passes && s'.passes.Keys <= s.passes.Keys
    && s' == s.(passes := s'.passes)
    && (forall q | q in s.passes && q != p :: q in s'.passes && s'.passes[q] == s.passes[q])
    && (p in s'.passes ==>
          && s'.passes[p].id == s.passes[p].id && s'.passes[p].row == s.passes[p].row
          && (s'.passes[p].Collected? ==> s'.passes[p].batch != [])
          && (s'.passes[p].Collected? || s'.passes[p].Stored? ==>
                Normalised(s'.passes[p].batch, s'.passes[p].id, s'.passes[p].row, s'.passes[p].window)))
  }

  lemma PassStepMoves(s: System, a: Action)
    requires Enabled(s, a) && MovesPassOnly(a)
    ensures OnlyPassMoves(s, Apply(s, a), a.p)
  {
  }

  lemma MovedIsCharged(s: System, s': System, p: nat)
    requires Charged(s) && OnlyPassMoves(s, s', p)
    ensures Charged(s')
  {
    forall q | q in s'.passes ensures ChargedPass(s'.passes[q], s'.db, s'.issued) {
      assert ChargedPass(s.passes[q], s.db, s.issued);
    }
  }

  lemma ActionKeepsCharged(s: System, a: Action)
    requires Charged(s) && Enabled(s, a)
    ensures Charged(Apply(s, a))
  {
    match a
    case Tick(_) =>
    case List(_) =>
    case Operate(op) => OperateKeepsCharged(s, op);
    case Insert(p) => InsertKeepsCharged(s, p);
    case WriteWatermark(p) => WriteKeepsCharged(s, p);
    case _ =>
      PassStepMoves(s, a);
      MovedIsCharged(s, Apply(s, a), a.p);
  }

  lemma {:induction false} RunKeepsCharged(s: System, run: seq<Action>)
    requires Charged(s) && Possible(s, run)
    ensures Charged(After(s, run))
    decreases |run|
  {
    if run != [] {
      ActionKeepsCharged(s, run[0]);
      RunKeepsCharged(Apply(s, run[0]), run[1..]);
    }
  }

  /**
   * In every interleaving, passes on the same source included, every stored record refers to an
   * existing source and is charged to that source's project, whatever was deleted under way.
   */
  lemma RecordsFollowTheirSource(clock: Time, run: seq<Action>)
    requires Possible(Initial(clock), run)
    ensures var db := After(Initial(clock), run).db;
            && Consistent(db)
            && forall r | r in db.records ::
                 && db.records[r].costSourceId in db.sources
                 && db.records[r].projectId == db.sources[db.records[r].costSourceId].projectId
  {
    RunKeepsCharged(Initial(clock), run);
  }

  /** In every reachable state: a batch whose source or project is gone by its insert is rejected as a whole. */
  lemma OrphanedBatchIsRejected(clock: Time, run: seq<Action>, p: nat)
    requires Possible(Initial(clock), run)
    requires var s := After(Initial(clock), run);
             && p in s.passes && s.passes[p].Collected? && s.passes[p].batch != []
             && (s.passes[p].id !in s.db.sources || s.passes[p].row.projectId !in s.db.projects)
    ensures var s := After(Initial(clock), run);
            Inserted(s, p).db == s.db && p !in Inserted(s, p).passes
  {
    var s := After(Initial(clock), run);
    var pass := s.passes[p];
    RunKeepsCharged(Initial(clock), run);
    BatchIsAllOrNothing(s.db, pass.batch);
    assert ChargedPass(pass, s.db, s.issued);
    assert pass.batch[0] in pass.batch && BelongsTo(pass.batch[0], pass.id, pass.row, pass.window);
  }

  // ---------------------------------------------------------------- the watermark never goes back

  /** How one step may change the watermark of a source that stays. */
  ghost predicate WatermarkMoves(s: System, a: Action, id: string)
    requires Enabled(s, a) && id in s.db.sources && id in Apply(s, a).db.sources
  {
    var before, after := s.db.sources[id].lastCollectedAt, Apply(s, a).db.sources[id].lastCollectedAt;
    && (after != before ==>
          a.WriteWatermark? && s.passes[a.p].id == id && s.passes[a.p].Stored? && after == Some(s.clock))
    && (before.Some? ==> after.Some? && before.value <= after.value)
  }

  ghost predicate NotAhead(s: System) {
    forall id | id in s.db.sources && s.db.sources[id].lastCollectedAt.Some? ::
      s.db.sources[id].lastCollectedAt.value <= s.clock
  }

  ghost predicate WatermarksStay(db: Tables, d: Tables) {
    forall id | id in d.sources ::
      d.sources[id].lastCollectedAt == if id in db.sources then db.sources[id].lastCollectedAt else None
  }

  lemma OthersLeaveWatermarks(s: System, a: Action)
    requires Enabled(s, a) && !a.WriteWatermark?
    ensures WatermarksStay(s.db, Apply(s, a).db)
  {
    match a
    case Tick(_) =>
    case List(_) =>
    case Operate(op) => OperationKeepsSources(s, op);
    case Insert(p) => BatchIsAllOrNothing(s.db, s.passes[p].batch);
    case _ => PassStepMoves(s, a);
  }

  lemma WriteMovesOneWatermark(s: System, p: nat)
    requires p in s.passes && s.passes[p].Stored?
    ensures Written(s, p).db == WithCollectedAt(s.db, s.passes[p].id, s.clock)
    ensures Written(s, p).clock == s.clock
  {
  }

  lemma StepMovesWatermark(s: System, a: Action, id: string)
    requires NotAhead(s) && Enabled(s, a) && id in s.db.sources && id in Apply(s, a).db.sources
    ensures WatermarkMoves(s, a, id)
  {
    if a.WriteWatermark? {
      WriteMovesOneWatermark(s, a.p);
    } else {
      OthersLeaveWatermarks(s, a);
    }
  }

  lemma StepKeepsNotAhead(s: System, a: Action)
    requires NotAhead(s) && Enabled(s, a)
    ensures NotAhead(Apply(s, a))
  {
    if a.WriteWatermark? {
      WriteMovesOneWatermark(s, a.p);
    } else {
      OthersLeaveWatermarks(s, a);
    }
  }

  lemma {:induction false} RunKeepsNotAhead(s: System, run: seq<Action>)
    requires NotAhead(s) && Possible(s, run)
    ensures NotAhead(After(s, run))
    decreases |run|
  {
    if run != [] {
      StepKeepsNotAhead(s, run[0]);
      RunKeepsNotAhead(Apply(s, run[0]), run[1..]);
    }
  }

  /**
   * In every history, lost writes and simultaneous passes included: a step changes the watermark of a
   * source that stays only by writing it after a pass stored its whole batch, and never moves it back.
   */
  lemma WatermarkMovesOnlyAfterStoring(clock: Time, run: seq<Action>, a: Action, id: string)
    requires Possible(Initial(clock), run)
    requires var s := After(Initial(clock), run);
             Enabled(s, a) && id in s.db.sources && id in Apply(s, a).db.sources
    ensures WatermarkMoves(After(Initial(clock), run), a, id)
  {
    RunKeepsNotAhead(Initial(clock), run);
    StepMovesWatermark(After(Initial(clock), run), a, id);
  }
}
