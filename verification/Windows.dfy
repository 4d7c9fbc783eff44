/**
 * The intervals of stored records. As long as a source has one pass at a time, and no watermark write
 * is lost after records were stored, passes never store overlapping intervals; and after any history
 * whatever they will exactly when a stored interval reaches beyond the start of the next window.
 */
module Windows {
  import opened Basics
  import opened Model
  import opened Tables
  import opened Collection
  import opened Passes

  function WindowOfRecord(r: CostRecord): Window {
    Window(r.startTime, r.endTime)
  }

  predicate Apart(v: Window, w: Window) {
    v.end <= w.start || w.end <= v.start
  }

  predicate RecordOf(s: System, r: string, id: string) {
    r in s.db.records && s.db.records[r].costSourceId == id
  }

  predicate PassOn(s: System, p: nat, id: string) {
    p in s.passes && s.passes[p].id == id
  }

  ghost predicate Underway(s: System, id: string) {
    exists p :: PassOn(s, p, id)
  }

  /** A pass on the source starts only when none is under way. */
  ghost predicate AloneStep(s: System, a: Action, id: string) {
    a == List(id) ==> !Underway(s, id)
  }

  ghost predicate OneAtATime(s: System, run: seq<Action>, id: string)
    requires Possible(s, run)
    decreases |run|
  {
    run == [] || (AloneStep(s, run[0], id) && OneAtATime(Apply(s, run[0]), run[1..], id))
  }

  /** What the overlap theorems assume of a step: no second pass, and no lost write after records were stored. */
  ghost predicate OrderlyStep(s: System, a: Action, id: string)
    requires Enabled(s, a)
  {
    AloneStep(s, a, id) && (a.LoseWatermark? && s.passes[a.p].id == id ==> s.passes[a.p].batch == [])
  }

  ghost predicate Orderly(s: System, run: seq<Action>, id: string)
    requires Possible(s, run)
    decreases |run|
  {
    run == [] || (OrderlyStep(s, run[0], id) && Orderly(Apply(s, run[0]), run[1..], id))
  }

  /** Where the next window of a source would start. */
  function NextStart(s: System, id: string): Time
    requires id in s.db.sources
  {
    StartOf(s.db.sources[id].lastCollectedAt, s.clock)
  }

  /** No stored record of the source reaches beyond an instant. */
  ghost predicate Before(s: System, id: string, t: Time) {
    forall r | RecordOf(s, r, id) :: s.db.records[r].endTime <= t
  }

  predicate HasStored(pass: Pass) {
    pass.Stored? && pass.batch != []
  }

  /** A pass whose records are not stored starts after every stored record. */
  ghost predicate PassFits(s: System, pass: Pass) {
    && (pass.row.lastCollectedAt.Some? ==> pass.row.lastCollectedAt.value <= s.clock)
    && (pass.id in s.db.sources ==> pass.row.lastCollectedAt == s.db.sources[pass.id].lastCollectedAt)
    && match pass
       case Listed(_, _) => true
       case Started(id, _, start) => start <= s.clock && Before(s, id, start)
       case _ =>
         && pass.window.start <= pass.window.end <= s.clock
         && Before(s, pass.id, if HasStored(pass) then pass.window.end else pass.window.start)
  }

  ghost predicate OnePass(s: System, id: string) {
    forall p, q | PassOn(s, p, id) && PassOn(s, q, id) :: p == q
  }

  ghost predicate Settled(s: System, id: string) {
    && OnePass(s, id)
    && (forall p | PassOn(s, p, id) :: PassFits(s, s.passes[p]))
    && (id in s.db.sources && (forall p | PassOn(s, p, id) :: !HasStored(s.passes[p])) ==>
          Before(s, id, NextStart(s, id)))
  }

  /** Passes are numbered, and every record names the pass that stored it. */
  ghost predicate Numbered(s: System) {
    && (forall p | p in s.passes :: p < s.next)
    && (forall r | r in s.db.records :: r in s.origin && s.origin[r] < s.next)
  }

  predicate Later(s: System, x: string, y: string, since: nat) {
    x in s.origin && y in s.origin && s.origin[x] != s.origin[y] && since <= s.origin[x]
  }

  /** Records stored by passes numbered from `since` on overlap with those of no other pass. */
  ghost predicate Disjoint(s: System, id: string, since: nat) {
    forall x, y | RecordOf(s, x, id) && RecordOf(s, y, id) && Later(s, x, y, since) ::
      Apart(WindowOfRecord(s.db.records[x]), WindowOfRecord(s.db.records[y]))
  }

  /** Everything the invariants look at. */
  ghost predicate Good(s: System, id: string, since: nat) {
    Charged(s) && NotAhead(s) && Numbered(s) && Settled(s, id) && Disjoint(s, id, since)
  }

  // ---------------------------------------------------------------- numbering

  lemma ActionKeepsNumbered(s: System, a: Action)
    requires Charged(s) && Numbered(s) && Enabled(s, a)
    ensures Numbered(Apply(s, a))
  {
    match a
    case Tick(_) =>
    case List(_) =>
    case WriteWatermark(_) =>
    case Operate(op) => OperationKeepsSources(s, op);
    case Insert(p) =>
      if InsertAll(s.db, s.passes[p].batch).Some? {
        assert ChargedPass(s.passes[p], s.db, s.issued);
        BatchIsAdded(s.db, InsertAll(s.db, s.passes[p].batch).value, s.passes[p]);
      }
    case _ => PassStepMoves(s, a);
  }

  lemma {:induction false} RunKeepsNumbered(s: System, run: seq<Action>)
    requires Charged(s) && Numbered(s) && Possible(s, run)
    ensures Numbered(After(s, run))
    decreases |run|
  {
    if run != [] {
      ActionKeepsCharged(s, run[0]);
      ActionKeepsNumbered(s, run[0]);
      RunKeepsNumbered(Apply(s, run[0]), run[1..]);
    }
  }

  // ---------------------------------------------------------------- steps that do not concern the source

  /** A step after which the source, its records and its passes are as they were, and the clock no earlier. */
  ghost predicate Elsewhere(s: System, s': System, id: string) {
    && s.clock <= s'.clock
    && (id in s'.db.sources ==>
          id in s.db.sources && s'.db.sources[id].lastCollectedAt == s.db.sources[id].lastCollectedAt)
    && (forall r | RecordOf(s', r, id) ::
          RecordOf(s, r, id) && s'.db.records[r] == s.db.records[r]
          && r in s.origin && r in s'.origin && s'.origin[r] == s.origin[r])
    && (forall p :: PassOn(s', p, id) <==> PassOn(s, p, id))
    && (forall p | PassOn(s, p, id) :: s'.passes[p] == s.passes[p])
  }

  lemma ElsewhereKeepsFits(s: System, s': System, id: string, pass: Pass)
    requires Elsewhere(s, s', id) && PassFits(s, pass) && pass.id == id
    ensures PassFits(s', pass)
  {
  }

  lemma ElsewhereKeepsSettled(s: System, s': System, id: string)
    requires Elsewhere(s, s', id) && Settled(s, id)
    ensures Settled(s', id)
  {
    forall p | PassOn(s', p, id) ensures PassFits(s', s'.passes[p]) {
      ElsewhereKeepsFits(s, s', id, s.passes[p]);
    }
  }

  lemma ElsewhereKeepsDisjoint(s: System, s': System, id: string, since: nat)
    requires Elsewhere(s, s', id) && Disjoint(s, id, since)
    ensures Disjoint(s', id, since)
  {
    forall x, y | RecordOf(s', x, id) && RecordOf(s', y, id) && Later(s', x, y, since)
      ensures Apart(WindowOfRecord(s'.db.records[x]), WindowOfRecord(s'.db.records[y]))
    {
      assert RecordOf(s, x, id) && RecordOf(s, y, id) && Later(s, x, y, since);
    }
  }

  predicate Concerns(s: System, a: Action, id: string)
    requires Enabled(s, a)
  {
    match a
    case Tick(_) | Operate(_) => false
    case List(i) => i == id
    case _ => s.passes[a.p].id == id
  }

  lemma TickIsElsewhere(s: System, step: nat, id: string)
    requires Numbered(s)
    ensures Elsewhere(s, Apply(s, Tick(step)), id)
  {
  }

  lemma OperateIsElsewhere(s: System, op: Op, id: string)
    requires Numbered(s) && Allowed(s, op)
    requires id in Exec(s.db, op).0.sources ==> id in s.db.sources
    ensures Elsewhere(s, Apply(s, Operate(op)), id)
  {
    OperationKeepsSources(s, op);
  }

  /** A batch of another source went in. */
  lemma GrownElsewhere(s: System, s': System, p: nat, pass: Pass, id: string)
    requires Numbered(s) && p in s.passes && s.passes[p] == pass && pass.Collected? && pass.id != id
    requires BatchAdded(s.db, s'.db, pass) && s'.clock == s.clock
             && s'.origin == WithOrigin(s.origin, Ids(pass.batch), p)
    requires s'.passes == s.passes[p := Stored(pass.id, pass.row, pass.window, pass.batch)]
    ensures Elsewhere(s, s', id)
  {
    assert forall r | r in s'.db.records && r !in s.db.records ::
        BelongsTo(s'.db.records[r], pass.id, pass.row, pass.window);
  }

  lemma OtherInsertIsElsewhere(s: System, p: nat, id: string)
    requires Charged(s) && Numbered(s) && p in s.passes && s.passes[p].Collected? && s.passes[p].id != id
    ensures Elsewhere(s, Inserted(s, p), id)
  {
    var pass := s.passes[p];
    assert ChargedPass(pass, s.db, s.issued);
    match InsertAll(s.db, pass.batch)
    case None =>
    case Some(d) =>
      BatchIsAdded(s.db, d, pass);
      GrownElsewhere(s, Inserted(s, p), p, pass, id);
  }

  lemma OtherStepIsElsewhere(s: System, a: Action, id: string)
    requires Charged(s) && Numbered(s) && Enabled(s, a) && !a.Operate? && !Concerns(s, a, id)
    ensures Elsewhere(s, Apply(s, a), id)
  {
    if a.Tick? {
      TickIsElsewhere(s, a.step, id);
    } else if a.Insert? {
      OtherInsertIsElsewhere(s, a.p, id);
    } else if a.WriteWatermark? {
      OtherWriteIsElsewhere(s, a.p, id);
    } else if MovesPassOnly(a) {
      PassStepMoves(s, a);
      MovedElsewhere(s, Apply(s, a), a.p, id);
    }
  }

  lemma OtherWriteIsElsewhere(s: System, p: nat, id: string)
    requires Numbered(s) && p in s.passes && s.passes[p].Stored? && s.passes[p].id != id
    ensures Elsewhere(s, Written(s, p), id)
  {
  }

  lemma MovedElsewhere(s: System, s': System, p: nat, id: string)
    requires Numbered(s) && OnlyPassMoves(s, s', p) && s.passes[p].id != id
    ensures Elsewhere(s, s', id)
  {
  }

  /** A source has no records and no passes before it is created. */
  lemma BornIsSettled(s: System, op: Op, id: string, since: nat)
    requires Charged(s) && Allowed(s, op) && id !in s.db.sources && id in Exec(s.db, op).0.sources
    ensures Settled(Apply(s, Operate(op)), id) && Disjoint(Apply(s, Operate(op)), id, since)
  {
    var s' := Apply(s, Operate(op));
    OperationKeepsSources(s, op);
    assert forall p | p in s.passes :: ChargedPass(s.passes[p], s.db, s.issued) && s.passes[p].id in s.issued;
    assert forall p :: !PassOn(s', p, id);
    assert forall r :: !RecordOf(s', r, id);
  }

  lemma OtherStepKeeps(s: System, a: Action, id: string, since: nat)
    requires Charged(s) && Numbered(s) && Settled(s, id) && Disjoint(s, id, since)
    requires Enabled(s, a) && !Concerns(s, a, id)
    ensures Settled(Apply(s, a), id) && Disjoint(Apply(s, a), id, since)
  {
    if a.Operate? && id in Exec(s.db, a.op).0.sources && id !in s.db.sources {
      BornIsSettled(s, a.op, id, since);
    } else {
      if a.Operate? {
        OperateIsElsewhere(s, a.op, id);
      } else {
        OtherStepIsElsewhere(s, a, id);
      }
      ElsewhereKeepsSettled(s, Apply(s, a), id);
      ElsewhereKeepsDisjoint(s, Apply(s, a), id, since);
    }
  }

  // ---------------------------------------------------------------- steps on the source

  lemma NoSourceNoRecords(s: System, id: string, t: Time)
    requires Charged(s) && id !in s.db.sources
    ensures Before(s, id, t)
  {
  }

  lemma ListIsSettled(s: System, id: string)
    requires Numbered(s) && NotAhead(s) && Settled(s, id) && Enabled(s, List(id)) && !Underway(s, id)
    ensures Settled(Apply(s, List(id)), id)
  {
    var s' := Apply(s, List(id));
    forall p | PassOn(s', p, id) ensures p == s.next {
      assert !PassOn(s, p, id);
    }
  }

  /** The window of a pass fits where its start is taken, and goes on to fit. */
  lemma MovedFits(s: System, a: Action, id: string)
    requires Charged(s) && Settled(s, id) && Enabled(s, a) && MovesPassOnly(a) && s.passes[a.p].id == id
    requires !HasStored(s.passes[a.p])
    ensures var s' := Apply(s, a);
            a.p in s'.passes ==> PassFits(s', s'.passes[a.p]) && !HasStored(s'.passes[a.p])
  {
    assert PassOn(s, a.p, id);
    if a.SampleStart? {
      StartFits(s, a.p, id);
    }
  }

  lemma StartFits(s: System, p: nat, id: string)
    requires Charged(s) && Settled(s, id) && PassOn(s, p, id) && s.passes[p].Listed?
    ensures Before(s, id, StartOf(s.passes[p].row.lastCollectedAt, s.clock))
  {
    if id in s.db.sources {
      assert forall q | PassOn(s, q, id) :: q == p;
    } else {
      NoSourceNoRecords(s, id, StartOf(s.passes[p].row.lastCollectedAt, s.clock));
    }
  }

  lemma MovedIsSettled(s: System, s': System, p: nat, id: string)
    requires Settled(s, id) && OnlyPassMoves(s, s', p) && PassOn(s, p, id) && !HasStored(s.passes[p])
    requires p in s'.passes ==> PassFits(s', s'.passes[p]) && !HasStored(s'.passes[p])
    ensures Settled(s', id)
  {
    forall q | PassOn(s', q, id) ensures q == p {
      assert q != p ==> PassOn(s, q, id);
    }
    assert p !in s'.passes ==> forall q :: !PassOn(s', q, id);
    assert forall q | PassOn(s, q, id) :: q == p;
  }

  /** The batch of the pass went in: its records start where every other record of the source has ended. */
  ghost predicate WentIn(s: System, s': System, p: nat, id: string) {
    && PassOn(s, p, id) && s.passes[p].Collected? && s.passes[p].batch != []
    && s'.clock == s.clock && s'.db.sources == s.db.sources
    && s'.passes == s.passes[p := Stored(id, s.passes[p].row, s.passes[p].window, s.passes[p].batch)]
    && (forall r | RecordOf(s', r, id) ::
          if r in s.db.records then
            RecordOf(s, r, id) && s'.db.records[r] == s.db.records[r]
            && r in s.origin && r in s'.origin && s'.origin[r] == s.origin[r]
          else WindowOfRecord(s'.db.records[r]) == s.passes[p].window && r in s'.origin && s'.origin[r] == p)
  }

  lemma InsertWentIn(s: System, p: nat, id: string)
    requires Charged(s) && Numbered(s) && PassOn(s, p, id) && s.passes[p].Collected? && s.passes[p].batch != []
    requires InsertAll(s.db, s.passes[p].batch).Some?
    ensures WentIn(s, Inserted(s, p), p, id)
  {
    var pass, s' := s.passes[p], Inserted(s, p);
    assert ChargedPass(pass, s.db, s.issued);
    BatchIsAdded(s.db, s'.db, pass);
    forall r | RecordOf(s', r, id) && r !in s.db.records
      ensures WindowOfRecord(s'.db.records[r]) == pass.window && r in s'.origin && s'.origin[r] == p
    {
      assert BelongsTo(s'.db.records[r], pass.id, pass.row, pass.window);
    }
  }

  lemma WentInIsSettled(s: System, s': System, p: nat, id: string)
    requires Settled(s, id) && WentIn(s, s', p, id)
    ensures Settled(s', id)
  {
    assert PassFits(s, s.passes[p]);
    assert forall q | PassOn(s', q, id) :: PassOn(s, q, id) && q == p;
    assert HasStored(s'.passes[p]) && PassOn(s', p, id);
    assert Before(s', id, s.passes[p].window.end);
  }

  lemma WentInIsDisjoint(s: System, s': System, p: nat, id: string, since: nat)
    requires Settled(s, id) && Disjoint(s, id, since) && WentIn(s, s', p, id)
    ensures Disjoint(s', id, since)
  {
    assert PassFits(s, s.passes[p]);
    forall x, y | RecordOf(s', x, id) && RecordOf(s', y, id) && Later(s', x, y, since)
      ensures Apart(WindowOfRecord(s'.db.records[x]), WindowOfRecord(s'.db.records[y]))
    {
      if x in s.db.records && y in s.db.records {
        assert Later(s, x, y, since);
      }
    }
  }

  lemma InsertKeeps(s: System, p: nat, id: string, since: nat)
    requires Good(s, id, since) && PassOn(s, p, id) && s.passes[p].Collected?
    ensures Settled(Inserted(s, p), id) && Disjoint(Inserted(s, p), id, since)
  {
    var s' := Inserted(s, p);
    if InsertAll(s.db, s.passes[p].batch) == None {
      MovedIsSettled(s, s', p, id);
      SameRecordsDisjoint(s, s', id, since);
    } else {
      InsertWentIn(s, p, id);
      WentInIsSettled(s, s', p, id);
      WentInIsDisjoint(s, s', p, id, since);
    }
  }

  lemma SameRecordsDisjoint(s: System, s': System, id: string, since: nat)
    requires Disjoint(s, id, since) && s'.db.records == s.db.records && s'.origin == s.origin
    ensures Disjoint(s', id, since)
  {
    forall x, y | RecordOf(s', x, id) && RecordOf(s', y, id) && Later(s', x, y, since)
      ensures Apart(WindowOfRecord(s'.db.records[x]), WindowOfRecord(s'.db.records[y]))
    {
      assert RecordOf(s, x, id) && RecordOf(s, y, id) && Later(s, x, y, since);
    }
  }

  lemma WriteIsSettled(s: System, p: nat, id: string)
    requires Settled(s, id) && PassOn(s, p, id) && s.passes[p].Stored?
    ensures Settled(Written(s, p), id)
  {
    var s' := Written(s, p);
    assert PassFits(s, s.passes[p]);
    forall q ensures !PassOn(s', q, id) {
      assert PassOn(s', q, id) ==> PassOn(s, q, id);
    }
    assert forall r :: RecordOf(s', r, id) ==> RecordOf(s, r, id);
    assert Before(s', id, s.clock);
  }

  lemma OwnStepKeeps(s: System, a: Action, id: string, since: nat)
    requires Good(s, id, since) && Enabled(s, a) && OrderlyStep(s, a, id) && Concerns(s, a, id)
    ensures Settled(Apply(s, a), id) && Disjoint(Apply(s, a), id, since)
  {
    if a.List? {
      ListIsSettled(s, id);
      SameRecordsDisjoint(s, Apply(s, a), id, since);
    } else if a.Insert? {
      InsertKeeps(s, a.p, id, since);
    } else if a.WriteWatermark? {
      WriteIsSettled(s, a.p, id);
      SameRecordsDisjoint(s, Apply(s, a), id, since);
    } else if MovesPassOnly(a) {
      PassStepMoves(s, a);
      MovedFits(s, a, id);
      MovedIsSettled(s, Apply(s, a), a.p, id);
      SameRecordsDisjoint(s, Apply(s, a), id, since);
    }
  }

  lemma StepKeepsGood(s: System, a: Action, id: string, since: nat)
    requires Good(s, id, since) && Enabled(s, a) && OrderlyStep(s, a, id)
    ensures Good(Apply(s, a), id, since)
  {
    ActionKeepsCharged(s, a);
    StepKeepsNotAhead(s, a);
    ActionKeepsNumbered(s, a);
    if Concerns(s, a, id) {
      OwnStepKeeps(s, a, id, since);
    } else {
      OtherStepKeeps(s, a, id, since);
    }
  }

  lemma {:induction false} RunKeepsGood(s: System, run: seq<Action>, id: string, since: nat)
    requires Good(s, id, since) && Possible(s, run) && Orderly(s, run, id)
    ensures Good(After(s, run), id, since)
    decreases |run|
  {
    if run != [] {
      StepKeepsGood(s, run[0], id, since);
      RunKeepsGood(Apply(s, run[0]), run[1..], id, since);
    }
  }

  // ---------------------------------------------------------------- intervals do not overlap

  /**
   * In every history in which a source has one pass at a time and loses no watermark write after
   * records were stored: records of the source that different passes stored do not overlap.
   */
  lemma IntervalsNeverOverlap(clock: Time, run: seq<Action>, id: string, x: string, y: string)
    requires Possible(Initial(clock), run) && Orderly(Initial(clock), run, id)
    requires var s := After(Initial(clock), run);
             RecordOf(s, x, id) && RecordOf(s, y, id) && Later(s, x, y, 0)
    ensures var records := After(Initial(clock), run).db.records;
            Apart(WindowOfRecord(records[x]), WindowOfRecord(records[y]))
  {
    RunKeepsGood(Initial(clock), run, id, 0);
    assert Later(After(Initial(clock), run), x, y, 0);
  }
}
