/**
 * When passes will store overlapping intervals: after any history, exactly when a stored interval
 * reaches beyond the start of the next window; a watermark write lost after a batch brings that about.
 */
module Overlaps {
  import opened Basics
  import opened Model
  import opened Tables
  import opened Collection
  import opened Passes
  import opened Windows

  /** An orderly continuation stores a record that overlaps with one that another pass stored. */
  ghost predicate WillOverlap(s: System, more: seq<Action>, id: string) {
    && Possible(s, more) && Orderly(s, more, id)
    && exists x, y :: OverlapIn(After(s, more), x, y, id, s.next)
  }

  ghost predicate OverlapIn(s: System, x: string, y: string, id: string, since: nat) {
    && RecordOf(s, x, id) && RecordOf(s, y, id) && Later(s, x, y, since)
    && !Apart(WindowOfRecord(s.db.records[x]), WindowOfRecord(s.db.records[y]))
  }

  ghost predicate ReachesBeyond(s: System, r: string, id: string)
    requires id in s.db.sources
  {
    RecordOf(s, r, id) && s.db.records[r].endTime > NextStart(s, id)
  }

  // ---------------------------------------------------------------- a continuation that overlaps

  lemma {:induction false} Longer(used: set<string>) returns (n: nat)
    ensures forall u | u in used :: |u| < n
  {
    if used == {} {
      n := 0;
    } else {
      var u :| u in used;
      n := Longer(used - {u});
      n := if n <= |u| then |u| + 1 else n;
    }
  }

  lemma UnusedId(used: set<string>) returns (id: string)
    ensures id !in used
  {
    var n := Longer(used);
    id := seq(n, _ => 'x');
  }

  lemma FirstStep(s: System, a: Action, rest: seq<Action>, id: string)
    requires Enabled(s, a) && OrderlyStep(s, a, id)
    requires Possible(Apply(s, a), rest) && Orderly(Apply(s, a), rest, id)
    ensures Possible(s, [a] + rest) && Orderly(s, [a] + rest, id) && After(s, [a] + rest) == After(Apply(s, a), rest)
  {
    OneBefore(s, a, rest);
    assert ([a] + rest)[1..] == rest;
  }

  function InsertActions(p: nat, rec: CostRecord): seq<Action> {
    [CollectReturns(p, [rec])] + ([Insert(p)] + [])
  }

  function SampleActions(p: nat, t: nat, rec: CostRecord): seq<Action> {
    [Tick(t)] + ([SampleEnd(p)] + InsertActions(p, rec))
  }

  /** The pass of one record: from listing to the insert, with time passing while it samples the clock. */
  function StoringActions(p: nat, id: string, t: nat, rec: CostRecord): seq<Action> {
    [List(id)] + ([SampleStart(p)] + SampleActions(p, t, rec))
  }

  predicate Storable(s: System, id: string, t: nat, rec: CostRecord) {
    && id in s.db.sources && s.db.sources[id].enabled && s.db.sources[id].projectId in s.db.projects
    && rec.id !in s.db.records
    && BelongsTo(rec, id, s.db.sources[id], Window(NextStart(s, id), s.clock + t))
  }

  /** The state after the pass. */
  ghost predicate StoredOne(s: System, s': System, id: string, t: nat, rec: CostRecord)
    requires id in s.db.sources
  {
    && s'.db == s.db.(records := s.db.records[rec.id := rec]) && s'.clock == s.clock + t
    && s'.origin == WithOrigin(s.origin, {rec.id}, s.next) && s'.next == s.next + 1 && s'.log == s.log
    && s'.passes == s.passes[s.next := Stored(id, s.db.sources[id], Window(NextStart(s, id), s.clock + t), [rec])]
  }

  lemma OneRecordGoesIn(db: Tables, rec: CostRecord)
    requires rec.id !in db.records && rec.projectId in db.projects && rec.costSourceId in db.sources
    ensures InsertAll(db, [rec]) == Some(db.(records := db.records[rec.id := rec])) && Ids([rec]) == {rec.id}
  {
    assert [rec][..0] == [];
    assert InsertAll(db, []) == Some(db);
  }

  lemma CollectAndInsert(s: System, p: nat, id: string, rec: CostRecord)
    requires p in s.passes && s.passes[p].Windowed? && s.passes[p].id == id
    requires BelongsTo(rec, id, s.passes[p].row, s.passes[p].window)
    requires rec.id !in s.db.records && rec.projectId in s.db.projects && id in s.db.sources
    ensures var rest := InsertActions(p, rec);
            && Possible(s, rest) && Orderly(s, rest, id)
            && After(s, rest) == s.(
                 db := s.db.(records := s.db.records[rec.id := rec]), origin := WithOrigin(s.origin, {rec.id}, p),
                 passes := s.passes[p := Stored(id, s.passes[p].row, s.passes[p].window, [rec])])
  {
    var s1 := Apply(s, CollectReturns(p, [rec]));
    assert s1.passes[p] == Collected(id, s.passes[p].row, s.passes[p].window, [rec]);
    OneRecordGoesIn(s.db, rec);
    FirstStep(s1, Insert(p), [], id);
    FirstStep(s, CollectReturns(p, [rec]), [Insert(p)] + [], id);
  }

  /** A started pass lets time pass, and takes the end of its window. */
  lemma SampleLater(s: System, p: nat, id: string, t: nat, rest: seq<Action>)
    requires p in s.passes && s.passes[p].Started? && s.passes[p].id == id
    requires var next := s.(clock := s.clock + t,
                            passes := s.passes[p := Windowed(id, s.passes[p].row,
                              Window(s.passes[p].start, s.clock + t))]);
             Possible(next, rest) && Orderly(next, rest, id)
    ensures var next := s.(clock := s.clock + t,
                           passes := s.passes[p := Windowed(id, s.passes[p].row,
                             Window(s.passes[p].start, s.clock + t))]);
            var all := [Tick(t)] + ([SampleEnd(p)] + rest);
            Possible(s, all) && Orderly(s, all, id) && After(s, all) == After(next, rest)
  {
    var s1 := Apply(s, Tick(t));
    FirstStep(s1, SampleEnd(p), rest, id);
    FirstStep(s, Tick(t), [SampleEnd(p)] + rest, id);
  }

  lemma ListAndStart(s: System, id: string, rest: seq<Action>)
    requires id in s.db.sources && s.db.sources[id].enabled
    requires var next := s.(next := s.next + 1,
                            passes := s.passes[s.next := Started(id, s.db.sources[id], NextStart(s, id))]);
             Possible(next, rest) && Orderly(next, rest, id)
    ensures var next := s.(next := s.next + 1,
                           passes := s.passes[s.next := Started(id, s.db.sources[id], NextStart(s, id))]);
            var all := [List(id)] + ([SampleStart(s.next)] + rest);
            && Possible(s, all) && After(s, all) == After(next, rest)
            && (!Underway(s, id) ==> Orderly(s, all, id))
  {
    var s1 := Apply(s, List(id));
    assert Apply(s1, SampleStart(s.next)).passes == s.passes[s.next := Started(id, s.db.sources[id], NextStart(s, id))];
    FirstStep(s1, SampleStart(s.next), rest, id);
    OneBefore(s, List(id), [SampleStart(s.next)] + rest);
    if !Underway(s, id) {
      FirstStep(s, List(id), [SampleStart(s.next)] + rest, id);
    }
  }

  lemma SampleAndInsert(s: System, p: nat, id: string, t: nat, rec: CostRecord)
    requires p in s.passes && s.passes[p].Started? && s.passes[p].id == id
    requires BelongsTo(rec, id, s.passes[p].row, Window(s.passes[p].start, s.clock + t))
    requires rec.id !in s.db.records && rec.projectId in s.db.projects && id in s.db.sources
    ensures var rest := SampleActions(p, t, rec);
            && Possible(s, rest) && Orderly(s, rest, id)
            && After(s, rest) == s.(
                 clock := s.clock + t,
                 db := s.db.(records := s.db.records[rec.id := rec]), origin := WithOrigin(s.origin, {rec.id}, p),
                 passes := s.passes[p := Stored(id, s.passes[p].row, Window(s.passes[p].start, s.clock + t), [rec])])
  {
    var w := Window(s.passes[p].start, s.clock + t);
    var windowed := s.(clock := s.clock + t, passes := s.passes[p := Windowed(id, s.passes[p].row, w)]);
    CollectAndInsert(windowed, p, id, rec);
    SampleLater(s, p, id, t, InsertActions(p, rec));
    Twice(s.passes, p, Windowed(id, s.passes[p].row, w), Stored(id, s.passes[p].row, w, [rec]));
  }

  lemma Twice<K, V>(m: map<K, V>, k: K, u: V, v: V)
    ensures m[k := u][k := v] == m[k := v]
  {
  }

  lemma StoringSteps(s: System, id: string, t: nat, rec: CostRecord)
    requires Storable(s, id, t, rec)
    ensures Possible(s, StoringActions(s.next, id, t, rec))
    ensures !Underway(s, id) ==> Orderly(s, StoringActions(s.next, id, t, rec), id)
    ensures StoredOne(s, After(s, StoringActions(s.next, id, t, rec)), id, t, rec)
  {
    var p, row, w := s.next, s.db.sources[id], Window(NextStart(s, id), s.clock + t);
    var started := s.(next := p + 1, passes := s.passes[p := Started(id, row, w.start)]);
    SampleAndInsert(started, p, id, t, rec);
    ListAndStart(s, id, SampleActions(p, t, rec));
    Twice(s.passes, p, Started(id, row, w.start), Stored(id, row, w, [rec]));
  }

  /** Enabling a source changes nothing else that matters. */
  lemma EnablingKeeps(s: System, id: string) returns (enable: Action)
    requires id in s.db.sources && !Underway(s, id)
    ensures Enabled(s, enable) && OrderlyStep(s, enable, id)
    ensures var s' := Apply(s, enable);
            && s' == s.(db := s'.db) && s'.db == s.db.(sources := s'.db.sources)
            && id in s'.db.sources && s'.db.sources[id] == s.db.sources[id].(enabled := true)
            && !Underway(s', id)
  {
    enable := Operate(UpdateCostSource(id, s.db.sources[id].name, true));
    assert forall p :: PassOn(Apply(s, enable), p, id) ==> PassOn(s, p, id);
  }

  /** A record that the next pass may store, and that overlaps with a record that reaches beyond its start. */
  lemma OverlappingRecord(s: System, id: string, r: string) returns (t: nat, rec: CostRecord)
    requires Consistent(s.db) && id in s.db.sources && ReachesBeyond(s, r, id)
    ensures rec.id !in s.db.records && rec.costSourceId == id
    ensures BelongsTo(rec, id, s.db.sources[id], Window(NextStart(s, id), s.clock + t))
    ensures !Apart(WindowOfRecord(rec), WindowOfRecord(s.db.records[r]))
  {
    var known := s.db.records[r];
    t := if known.startTime < s.clock then 0 else known.startTime - s.clock + 1;
    var x := UnusedId(s.db.records.Keys);
    rec := known.(id := x, projectId := s.db.sources[id].projectId,
                  startTime := NextStart(s, id), endTime := s.clock + t);
  }

  lemma OverlapIsReached(s: System, id: string, r: string) returns (more: seq<Action>)
    requires Consistent(s.db) && Numbered(s) && id in s.db.sources && !Underway(s, id) && ReachesBeyond(s, r, id)
    ensures WillOverlap(s, more, id)
  {
    var t, rec := OverlappingRecord(s, id, r);
    var enable := EnablingKeeps(s, id);
    var s1 := Apply(s, enable);
    StoringSteps(s1, id, t, rec);
    var storing := StoringActions(s1.next, id, t, rec);
    FirstStep(s, enable, storing, id);
    more := [enable] + storing;
    NewOverlapsOld(s, After(s1, storing), id, r, rec);
  }

  lemma NewOverlapsOld(s: System, end: System, id: string, r: string, rec: CostRecord)
    requires Numbered(s) && RecordOf(s, r, id) && rec.id !in s.db.records && rec.costSourceId == id
    requires end.db.records == s.db.records[rec.id := rec] && end.origin == WithOrigin(s.origin, {rec.id}, s.next)
    requires !Apart(WindowOfRecord(rec), WindowOfRecord(s.db.records[r]))
    ensures OverlapIn(end, rec.id, r, id, s.next)
  {
  }

  // ---------------------------------------------------------------- the exact condition

  lemma ReachableIsGood(clock: Time, run: seq<Action>)
    requires Possible(Initial(clock), run)
    ensures var s := After(Initial(clock), run); Charged(s) && NotAhead(s) && Numbered(s)
  {
    RunKeepsCharged(Initial(clock), run);
    RunKeepsNotAhead(Initial(clock), run);
    RunKeepsNumbered(Initial(clock), run);
  }

  lemma NothingBeyondIsGood(s: System, id: string)
    requires Charged(s) && NotAhead(s) && Numbered(s) && id in s.db.sources && !Underway(s, id)
    requires forall r :: !ReachesBeyond(s, r, id)
    ensures Good(s, id, s.next)
  {
    assert forall p :: !PassOn(s, p, id);
    forall r | RecordOf(s, r, id) ensures s.db.records[r].endTime <= NextStart(s, id) {
      assert !ReachesBeyond(s, r, id);
    }
  }

  /**
   * In every reachable state, lost writes and simultaneous passes in the past included, of a source that
   * has no pass under way: an orderly continuation can store an overlapping record if and only if some
   * stored record of the source ends after the start of the next window.
   */
  lemma WillOverlapIff(clock: Time, run: seq<Action>, id: string)
    requires Possible(Initial(clock), run)
    requires id in After(Initial(clock), run).db.sources && !Underway(After(Initial(clock), run), id)
    ensures var s := After(Initial(clock), run);
            (exists more :: WillOverlap(s, more, id)) <==> (exists r :: ReachesBeyond(s, r, id))
  {
    var s := After(Initial(clock), run);
    ReachableIsGood(clock, run);
    if r :| ReachesBeyond(s, r, id) {
      var more := OverlapIsReached(s, id, r);
    } else {
      NothingBeyondIsGood(s, id);
      forall more | Possible(s, more) && Orderly(s, more, id) ensures !WillOverlap(s, more, id) {
        RunKeepsGood(s, more, id, s.next);
        forall x, y ensures !OverlapIn(After(s, more), x, y, id, s.next) {
        }
      }
    }
  }

  // ---------------------------------------------------------------- a lost write

  /** What a pass stored is in the store as long as its source is. */
  ghost predicate BatchKept(s: System, pass: Pass) {
    HasStored(pass) && pass.id in s.db.sources ==>
      forall x | x in pass.batch :: x.id in s.db.records && s.db.records[x.id] == x
  }

  ghost predicate BatchesKept(s: System) {
    forall p | p in s.passes :: BatchKept(s, s.passes[p])
  }

  /** Records stay as long as their source does. */
  ghost predicate RecordsStay(db: Tables, d: Tables) {
    && (forall r | r in db.records && db.records[r].costSourceId in d.sources ::
          r in d.records && d.records[r] == db.records[r])
  }

  lemma OperationKeepsRecords(s: System, op: Op)
    requires Charged(s) && Allowed(s, op)
    ensures RecordsStay(s.db, Exec(s.db, op).0)
  {
    if op.DeleteProject? {
      ProjectKeepsRecords(s, op.id);
    } else if op.DeleteCostSource? {
      SourceKeepsRecords(s.db, op.id);
    } else {
      OthersLeaveRecords(s.db, op);
    }
  }

  lemma ProjectKeepsRecords(s: System, project: string)
    requires Charged(s)
    ensures Exec(s.db, DeleteProject(project)).0 == WithoutProject(s.db, project)
    ensures RecordsStay(s.db, WithoutProject(s.db, project))
  {
  }

  lemma SourceKeepsRecords(db: Tables, id: string)
    ensures Exec(db, DeleteCostSource(id)).0 == WithoutSources(db, {id})
    ensures RecordsStay(db, WithoutSources(db, {id}))
  {
  }

  lemma OthersLeaveRecords(db: Tables, op: Op)
    requires !op.DeleteProject? && !op.DeleteCostSource? && !op.InsertCostRecords?
    ensures Exec(db, op).0.records == db.records
  {
  }

  lemma StayingKeepsBatch(s: System, s': System, pass: Pass)
    requires BatchKept(s, pass) && ChargedPass(pass, s.db, s.issued) && RecordsStay(s.db, s'.db)
    requires pass.id in s'.db.sources ==> pass.id in s.db.sources
    ensures BatchKept(s', pass)
  {
    if HasStored(pass) && pass.id in s'.db.sources {
      forall x | x in pass.batch ensures x.id in s'.db.records && s'.db.records[x.id] == x {
        assert BelongsTo(x, pass.id, pass.row, pass.window);
        assert s.db.records[x.id] == x;
      }
    }
  }

  lemma OperateKeepsBatches(s: System, op: Op)
    requires Charged(s) && BatchesKept(s) && Allowed(s, op)
    ensures BatchesKept(Apply(s, Operate(op)))
  {
    var s' := Apply(s, Operate(op));
    OperationKeepsRecords(s, op);
    OperationKeepsSources(s, op);
    forall p | p in s'.passes ensures BatchKept(s', s'.passes[p]) {
      assert ChargedPass(s.passes[p], s.db, s.issued);
      StayingKeepsBatch(s, s', s.passes[p]);
    }
  }

  lemma InsertKeepsBatches(s: System, p: nat)
    requires Charged(s) && BatchesKept(s) && p in s.passes && s.passes[p].Collected?
    ensures BatchesKept(Inserted(s, p))
  {
    var pass, s' := s.passes[p], Inserted(s, p);
    assert ChargedPass(pass, s.db, s.issued);
    match InsertAll(s.db, pass.batch)
    case None =>
    case Some(d) =>
      BatchIsAdded(s.db, d, pass);
      BatchIsAllOrNothing(s.db, pass.batch);
      forall q | q in s'.passes ensures BatchKept(s', s'.passes[q]) {
        if q != p {
          assert ChargedPass(s.passes[q], s.db, s.issued);
          StayingKeepsBatch(s, s', s.passes[q]);
        }
      }
  }

  lemma WriteKeepsBatches(s: System, p: nat)
    requires BatchesKept(s) && p in s.passes && s.passes[p].Stored?
    ensures BatchesKept(Written(s, p))
  {
    var s' := Written(s, p);
    forall q | q in s'.passes ensures BatchKept(s', s'.passes[q]) {
      assert BatchKept(s, s.passes[q]);
    }
  }

  lemma MoveKeepsBatches(s: System, a: Action)
    requires BatchesKept(s) && Enabled(s, a) && MovesPassOnly(a)
    ensures BatchesKept(Apply(s, a))
  {
    var s' := Apply(s, a);
    PassStepMoves(s, a);
    forall q | q in s'.passes ensures BatchKept(s', s'.passes[q]) {
      assert BatchKept(s, s.passes[q]);
    }
  }

  lemma ActionKeepsBatches(s: System, a: Action)
    requires Charged(s) && BatchesKept(s) && Enabled(s, a)
    ensures BatchesKept(Apply(s, a))
  {
    if a.Operate? {
      OperateKeepsBatches(s, a.op);
    } else if a.Insert? {
      InsertKeepsBatches(s, a.p);
    } else if a.WriteWatermark? {
      WriteKeepsBatches(s, a.p);
    } else if MovesPassOnly(a) {
      MoveKeepsBatches(s, a);
    }
  }

  lemma {:induction false} RunKeepsBatches(s: System, run: seq<Action>)
    requires Charged(s) && BatchesKept(s) && Possible(s, run)
    ensures BatchesKept(After(s, run))
    decreases |run|
  {
    if run != [] {
      ActionKeepsCharged(s, run[0]);
      ActionKeepsBatches(s, run[0]);
      RunKeepsBatches(Apply(s, run[0]), run[1..]);
    }
  }

  /** What losing the write leaves: a source without a pass, whose records end by the end of the lost window. */
  lemma LossLeaves(s: System, p: nat, id: string)
    requires Good(s, id, 0) && BatchesKept(s)
    requires PassOn(s, p, id) && HasStored(s.passes[p]) && id in s.db.sources
    ensures var lost := Done(s, p);
            && !Underway(lost, id)
            && ((exists r :: ReachesBeyond(lost, r, id)) <==> s.passes[p].window.end > NextStart(lost, id))
  {
    var lost, pass := Done(s, p), s.passes[p];
    assert PassFits(s, pass) && BatchKept(s, pass) && ChargedPass(pass, s.db, s.issued);
    forall q ensures !PassOn(lost, q, id) {
      assert PassOn(lost, q, id) ==> PassOn(s, q, id);
    }
    var x := pass.batch[0];
    assert x in pass.batch && BelongsTo(x, id, pass.row, pass.window);
    assert RecordOf(lost, x.id, id) && lost.db.records[x.id].endTime == pass.window.end;
    assert pass.window.end > NextStart(lost, id) ==> ReachesBeyond(lost, x.id, id);
    forall r | ReachesBeyond(lost, r, id) ensures pass.window.end > NextStart(lost, id) {
      assert RecordOf(s, r, id);
    }
  }

  /**
   * When, in an orderly history, the watermark write after a batch is lost: an orderly continuation can
   * store an overlapping record if and only if the lost window ends after the start of the next one,
   * which is where the lost one started unless there is no watermark yet.
   */
  lemma LostWriteOverlapsIff(clock: Time, run: seq<Action>, p: nat)
    requires Possible(Initial(clock), run)
    requires var s := After(Initial(clock), run);
             && p in s.passes && HasStored(s.passes[p]) && s.passes[p].id in s.db.sources
             && Orderly(Initial(clock), run, s.passes[p].id)
    ensures var s := After(Initial(clock), run);
            var id, lost := s.passes[p].id, Apply(s, LoseWatermark(p));
            (exists more :: WillOverlap(lost, more, id)) <==> s.passes[p].window.end > NextStart(lost, id)
  {
    var s := After(Initial(clock), run);
    var id := s.passes[p].id;
    RunKeepsGood(Initial(clock), run, id, 0);
    RunKeepsBatches(Initial(clock), run);
    assert PassOn(s, p, id);
    LossLeaves(s, p, id);
    OneMore(Initial(clock), run, LoseWatermark(p));
    WillOverlapIff(clock, run + [LoseWatermark(p)], id);
  }

  // ---------------------------------------------------------------- a history with an overlap

  lemma {:induction false} InParts(s: System, a: seq<Action>, b: seq<Action>)
    requires Possible(s, a) && Possible(After(s, a), b)
    ensures Possible(s, a + b) && After(s, a + b) == After(After(s, a), b)
    decreases |a|
  {
    if a == [] {
      assert a + b == b;
    } else {
      assert (a + b)[1..] == a[1..] + b;
      InParts(Apply(s, a[0]), a[1..], b);
    }
  }

  const SOURCE := CostSource("p", "kubernetes", "cluster", true, None)

  predicate LosesNoWatermark(run: seq<Action>) {
    forall a | a in run :: !a.LoseWatermark?
  }

  /** A project with one source, none of whose records are stored. */
  lemma OneSource(clock: Time) returns (run: seq<Action>)
    ensures Possible(Initial(clock), run) && LosesNoWatermark(run)
    ensures var s := After(Initial(clock), run);
            && s.db == EMPTY.(projects := map["p" := "p"], sources := map["s" := SOURCE])
            && s.clock == clock && s.passes == map[] && s.next == 0 && s.origin == map[] && s.log == map[]
  {
    var project, source := Operate(CreateProject("p", "p")), Operate(CreateCostSource("s", SOURCE));
    var s0 := Initial(clock);
    var s1 := Apply(s0, project);
    assert s1.db.projects == map["p" := "p"];
    var s2 := Apply(s1, source);
    assert s2.db.sources == map["s" := SOURCE];
    assert Possible(s0, []);
    OneMore(s0, [], project);
    OneMore(s0, [project], source);
    run := [project] + [source];
  }

  function RecordFor(id: string, start: Time, end: Time): CostRecord {
    CostRecord(id, "p", "s", "kubernetes", "", "", "", "", "", start, end, 0.0, 0.0, 0.0, 0.0, "USD", map[], 1.0)
  }

  /** Some history stores two overlapping records: a pass loses its watermark write, and the next one collects again. */
  lemma OverlapsHappen(clock: Time) returns (run: seq<Action>, x: string, y: string)
    ensures Possible(Initial(clock), run) && OverlapIn(After(Initial(clock), run), x, y, "s", 0)
  {
    var made := OneSource(clock);
    var s := After(Initial(clock), made);
    var rec := RecordFor("r", clock - DAY, clock);
    StoringSteps(s, "s", 0, rec);
    var storing := StoringActions(0, "s", 0, rec);
    InParts(Initial(clock), made, storing);
    var stored := After(Initial(clock), made + storing);
    OneMore(Initial(clock), made + storing, LoseWatermark(0));
    var losing := made + storing + [LoseWatermark(0)];
    var lost := After(Initial(clock), losing);
    assert lost.passes == map[] && RecordOf(lost, "r", "s");
    ReachableIsGood(clock, losing);
    var more := OverlapIsReached(lost, "s", "r");
    InParts(Initial(clock), losing, more);
    run := losing + more;
    x, y :| OverlapIn(After(Initial(clock), run), x, y, "s", lost.next);
  }
}
