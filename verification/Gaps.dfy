/**
 * What consecutive windows leave out. The end of a window is read before the collection and the
 * watermark after it, and the next window starts at the watermark: nothing ever covers the time between.
 */
module Gaps {
  import opened Basics
  import opened Model
  import opened Tables
  import opened Collection
  import opened Passes
  import opened Windows
  import opened Overlaps

  /** Finished passes in order: windows that do not run backwards, each starting at the last watermark. */
  ghost predicate Chain(entries: seq<Entry>, clock: Time) {
    && (forall i | 0 <= i < |entries| ::
          entries[i].window.start <= entries[i].window.end <= entries[i].written <= clock)
    && (forall i | 0 < i < |entries| :: entries[i].window.start == entries[i - 1].written)
  }

  function Watermark(entries: seq<Entry>): Option<Time> {
    if entries == [] then None else Some(entries[|entries| - 1].written)
  }

  ghost predicate WatermarkAgrees(s: System, id: string) {
    id in s.db.sources ==> s.db.sources[id].lastCollectedAt == Watermark(LogOf(s, id))
  }

  /** A pass goes by the last watermark. */
  predicate Follows(pass: Pass, entries: seq<Entry>) {
    && pass.row.lastCollectedAt == Watermark(entries)
    && (entries != [] ==>
          match pass
          case Listed(_, _) => true
          case Started(_, _, start) => Watermark(entries) == Some(start)
          case _ => Watermark(entries) == Some(pass.window.start))
  }

  /** No record of the source meets the time from the end of a window to its watermark write. */
  ghost predicate GapsFree(s: System, id: string, entries: seq<Entry>) {
    forall i, r | 0 <= i < |entries| && RecordOf(s, r, id) ::
      Apart(WindowOfRecord(s.db.records[r]), Window(entries[i].window.end, entries[i].written))
  }

  ghost predicate Gapped(s: System, id: string) {
    && (id in s.log ==> id in s.issued)
    && Chain(LogOf(s, id), s.clock)
    && WatermarkAgrees(s, id)
    && (forall p | PassOn(s, p, id) :: Follows(s.passes[p], LogOf(s, id)))
    && GapsFree(s, id, LogOf(s, id))
  }

  /** A window is not ahead of the clock, and no record of the source reaches beyond one that has its end. */
  ghost predicate EndsWithin(s: System, pass: Pass) {
    match pass
    case Listed(_, _) => true
    case Started(_, _, start) => start <= s.clock
    case _ => pass.window.start <= pass.window.end <= s.clock && Before(s, pass.id, pass.window.end)
  }

  ghost predicate Bounded(s: System, id: string) {
    && OnePass(s, id)
    && Before(s, id, s.clock)
    && (forall p | PassOn(s, p, id) :: EndsWithin(s, s.passes[p]))
  }

  lemma {:induction false} WrittenInOrder(entries: seq<Entry>, clock: Time, i: nat, j: nat)
    requires Chain(entries, clock) && i <= j < |entries|
    ensures entries[i].written <= entries[j].written
    decreases j
  {
    if i < j {
      WrittenInOrder(entries, clock, i, j - 1);
      assert entries[j].window.start == entries[j - 1].written;
    }
  }

  // ---------------------------------------------------------------- steps that do not concern the source

  lemma OthersLeaveLog(s: System, a: Action, id: string)
    requires Enabled(s, a) && !Concerns(s, a, id)
    ensures LogOf(Apply(s, a), id) == LogOf(s, id) && (id in Apply(s, a).log <==> id in s.log)
    ensures s.issued <= Apply(s, a).issued
  {
    if a.WriteWatermark? {
      WriteLogs(s, a.p, id);
    } else {
      OthersLogNothing(s, a);
    }
  }

  lemma WriteLogs(s: System, p: nat, id: string)
    requires p in s.passes && s.passes[p].Stored?
    ensures Written(s, p).issued == s.issued
    ensures id != s.passes[p].id ==>
              LogOf(Written(s, p), id) == LogOf(s, id) && (id in Written(s, p).log <==> id in s.log)
    ensures id == s.passes[p].id ==>
              LogOf(Written(s, p), id) == LogOf(s, id) + [Entry(s.passes[p].window, s.clock)]
  {
  }

  lemma OthersLogNothing(s: System, a: Action)
    requires Enabled(s, a) && !a.WriteWatermark?
    ensures Apply(s, a).log == s.log && s.issued <= Apply(s, a).issued
  {
  }

  lemma BornIsGapped(s: System, op: Op, id: string)
    requires Charged(s) && Gapped(s, id) && Allowed(s, op)
    requires id !in s.db.sources && id in Exec(s.db, op).0.sources
    ensures Gapped(Apply(s, Operate(op)), id)
  {
    var s' := Apply(s, Operate(op));
    OperationKeepsSources(s, op);
    assert forall p | p in s.passes :: ChargedPass(s.passes[p], s.db, s.issued) && s.passes[p].id in s.issued;
    assert forall p :: !PassOn(s', p, id);
    assert forall r :: !RecordOf(s', r, id);
  }

  lemma OtherStepKeepsGapped(s: System, a: Action, id: string)
    requires Charged(s) && Numbered(s) && Gapped(s, id) && Enabled(s, a) && !Concerns(s, a, id)
    ensures Gapped(Apply(s, a), id)
  {
    if a.Operate? && id in Exec(s.db, a.op).0.sources && id !in s.db.sources {
      BornIsGapped(s, a.op, id);
    } else {
      if a.Operate? {
        OperateIsElsewhere(s, a.op, id);
      } else {
        OtherStepIsElsewhere(s, a, id);
      }
      OthersLeaveLog(s, a, id);
    }
  }

  // ---------------------------------------------------------------- steps on the source

  lemma ListKeepsGapped(s: System, id: string)
    requires Numbered(s) && Gapped(s, id) && Enabled(s, List(id))
    ensures Gapped(Apply(s, List(id)), id)
  {
    var s' := Apply(s, List(id));
    assert LogOf(s', id) == LogOf(s, id);
    forall p | PassOn(s', p, id) ensures Follows(s'.passes[p], LogOf(s, id)) {
      assert p == s.next || PassOn(s, p, id);
    }
  }

  lemma MoveKeepsGapped(s: System, a: Action, id: string)
    requires Gapped(s, id) && Enabled(s, a) && MovesPassOnly(a) && s.passes[a.p].id == id
    ensures Gapped(Apply(s, a), id)
  {
    var s' := Apply(s, a);
    PassStepMoves(s, a);
    assert PassOn(s, a.p, id);
    forall p | PassOn(s', p, id) ensures Follows(s'.passes[p], LogOf(s, id)) {
      assert PassOn(s, p, id);
    }
  }

  lemma EndedIsGapped(s: System, p: nat, id: string)
    requires Gapped(s, id) && PassOn(s, p, id)
    ensures Gapped(Done(s, p), id)
  {
    forall q | PassOn(Done(s, p), q, id) ensures Follows(s.passes[q], LogOf(s, id)) {
      assert PassOn(s, q, id);
    }
  }

  /** New records start at the last watermark, which no earlier write is after. */
  lemma WentInIsGapped(s: System, s': System, p: nat, id: string)
    requires Gapped(s, id) && WentIn(s, s', p, id) && s'.log == s.log && s'.issued == s.issued
    ensures Gapped(s', id)
  {
    var entries := LogOf(s, id);
    assert Follows(s.passes[p], entries);
    forall q | PassOn(s', q, id) ensures Follows(s'.passes[q], entries) {
      assert PassOn(s, q, id);
    }
    forall i, r | 0 <= i < |entries| && RecordOf(s', r, id)
      ensures Apart(WindowOfRecord(s'.db.records[r]), Window(entries[i].window.end, entries[i].written))
    {
      if r !in s.db.records {
        WrittenInOrder(entries, s.clock, i, |entries| - 1);
      }
    }
  }

  lemma InsertKeepsGapped(s: System, p: nat, id: string)
    requires Charged(s) && Numbered(s) && Gapped(s, id) && PassOn(s, p, id) && s.passes[p].Collected?
    ensures Gapped(Inserted(s, p), id)
  {
    assert ChargedPass(s.passes[p], s.db, s.issued);
    if InsertAll(s.db, s.passes[p].batch) == None {
      EndedIsGapped(s, p, id);
    } else {
      InsertWentIn(s, p, id);
      WentInIsGapped(s, Inserted(s, p), p, id);
    }
  }

  lemma WriteKeepsGapped(s: System, p: nat, id: string)
    requires Charged(s) && Bounded(s, id) && Gapped(s, id) && PassOn(s, p, id) && s.passes[p].Stored?
    ensures Gapped(Written(s, p), id)
  {
    var s', entries, e := Written(s, p), LogOf(s, id), Entry(s.passes[p].window, s.clock);
    assert EndsWithin(s, s.passes[p]) && Follows(s.passes[p], entries) && ChargedPass(s.passes[p], s.db, s.issued);
    WriteLogs(s, p, id);
    WriteMovesOneWatermark(s, p);
    forall q ensures !PassOn(s', q, id) {
      assert PassOn(s', q, id) ==> PassOn(s, q, id);
    }
    WrittenGapsFree(s, s', p, id);
  }

  /** All records of the source end by the end of the window that is finished now. */
  lemma WrittenGapsFree(s: System, s': System, p: nat, id: string)
    requires GapsFree(s, id, LogOf(s, id)) && s'.db.records == s.db.records
    requires PassOn(s, p, id) && s.passes[p].Stored? && EndsWithin(s, s.passes[p])
    ensures GapsFree(s', id, LogOf(s, id) + [Entry(s.passes[p].window, s.clock)])
  {
    var entries, e := LogOf(s, id), Entry(s.passes[p].window, s.clock);
    var more := entries + [e];
    forall i, r | 0 <= i < |more| && RecordOf(s', r, id)
      ensures Apart(WindowOfRecord(s'.db.records[r]), Window(more[i].window.end, more[i].written))
    {
      assert RecordOf(s, r, id);
      if i < |entries| {
        assert more[i] == entries[i];
      }
    }
  }

  lemma StepKeepsGapped(s: System, a: Action, id: string)
    requires Charged(s) && Numbered(s) && Bounded(s, id) && Gapped(s, id) && Enabled(s, a)
    ensures Gapped(Apply(s, a), id)
  {
    if !Concerns(s, a, id) {
      OtherStepKeepsGapped(s, a, id);
    } else if a.List? {
      ListKeepsGapped(s, id);
    } else if a.Insert? {
      InsertKeepsGapped(s, a.p, id);
    } else if a.WriteWatermark? {
      WriteKeepsGapped(s, a.p, id);
    } else if MovesPassOnly(a) {
      MoveKeepsGapped(s, a, id);
    }
  }

  // ---------------------------------------------------------------- records end by the window under way

  lemma ElsewhereKeepsBounded(s: System, s': System, id: string)
    requires Elsewhere(s, s', id) && Bounded(s, id)
    ensures Bounded(s', id)
  {
    forall p | PassOn(s', p, id) ensures EndsWithin(s', s'.passes[p]) {
      assert EndsWithin(s, s.passes[p]);
    }
  }

  lemma BornIsBounded(s: System, op: Op, id: string)
    requires Charged(s) && Allowed(s, op) && id !in s.db.sources && id in Exec(s.db, op).0.sources
    ensures Bounded(Apply(s, Operate(op)), id)
  {
    var s' := Apply(s, Operate(op));
    OperationKeepsSources(s, op);
    assert forall p | p in s.passes :: ChargedPass(s.passes[p], s.db, s.issued) && s.passes[p].id in s.issued;
    assert forall p :: !PassOn(s', p, id);
    assert forall r :: !RecordOf(s', r, id);
  }

  lemma OtherStepKeepsBounded(s: System, a: Action, id: string)
    requires Charged(s) && Numbered(s) && Bounded(s, id) && Enabled(s, a) && !Concerns(s, a, id)
    ensures Bounded(Apply(s, a), id)
  {
    if a.Operate? && id in Exec(s.db, a.op).0.sources && id !in s.db.sources {
      BornIsBounded(s, a.op, id);
    } else {
      if a.Operate? {
        OperateIsElsewhere(s, a.op, id);
      } else {
        OtherStepIsElsewhere(s, a, id);
      }
      ElsewhereKeepsBounded(s, Apply(s, a), id);
    }
  }

  lemma ListIsBounded(s: System, id: string)
    requires Numbered(s) && Bounded(s, id) && Enabled(s, List(id)) && !Underway(s, id)
    ensures Bounded(Apply(s, List(id)), id)
  {
    var s' := Apply(s, List(id));
    forall p | PassOn(s', p, id) ensures p == s.next {
      assert !PassOn(s, p, id);
    }
  }

  /** The start of a window is the last watermark, or a day before now; the end is now. */
  lemma MovedEndsWithin(s: System, a: Action, id: string)
    requires Bounded(s, id) && Gapped(s, id) && Enabled(s, a) && MovesPassOnly(a) && s.passes[a.p].id == id
    ensures a.p in Apply(s, a).passes ==> EndsWithin(Apply(s, a), Apply(s, a).passes[a.p])
  {
    assert PassOn(s, a.p, id) && EndsWithin(s, s.passes[a.p]);
    assert Follows(s.passes[a.p], LogOf(s, id));
  }

  lemma MovedIsBounded(s: System, s': System, p: nat, id: string)
    requires Bounded(s, id) && OnlyPassMoves(s, s', p) && PassOn(s, p, id)
    requires p in s'.passes ==> EndsWithin(s', s'.passes[p])
    ensures Bounded(s', id)
  {
    forall q | PassOn(s', q, id) ensures q == p {
      assert PassOn(s, q, id);
    }
  }

  lemma EndedIsBounded(s: System, s': System, p: nat, id: string)
    requires Bounded(s, id) && PassOn(s, p, id)
    requires s'.passes == s.passes - {p} && s'.clock == s.clock && s'.db.records == s.db.records
    ensures Bounded(s', id)
  {
    forall q ensures !PassOn(s', q, id) {
      assert PassOn(s', q, id) ==> PassOn(s, q, id);
    }
    assert forall r :: RecordOf(s', r, id) ==> RecordOf(s, r, id);
  }

  lemma WentInIsBounded(s: System, s': System, p: nat, id: string)
    requires Bounded(s, id) && WentIn(s, s', p, id)
    ensures Bounded(s', id)
  {
    assert EndsWithin(s, s.passes[p]);
    forall q | PassOn(s', q, id) ensures q == p {
      assert PassOn(s, q, id);
    }
    assert Before(s', id, s.passes[p].window.end);
  }

  lemma InsertKeepsBounded(s: System, p: nat, id: string)
    requires Charged(s) && Numbered(s) && Bounded(s, id) && PassOn(s, p, id) && s.passes[p].Collected?
    ensures Bounded(Inserted(s, p), id)
  {
    assert ChargedPass(s.passes[p], s.db, s.issued);
    if InsertAll(s.db, s.passes[p].batch) == None {
      EndedIsBounded(s, Inserted(s, p), p, id);
    } else {
      InsertWentIn(s, p, id);
      WentInIsBounded(s, Inserted(s, p), p, id);
    }
  }

  lemma StepKeepsBounded(s: System, a: Action, id: string)
    requires Charged(s) && Numbered(s) && Bounded(s, id) && Gapped(s, id) && Enabled(s, a) && AloneStep(s, a, id)
    ensures Bounded(Apply(s, a), id)
  {
    if !Concerns(s, a, id) {
      OtherStepKeepsBounded(s, a, id);
    } else if a.List? {
      ListIsBounded(s, id);
    } else if a.Insert? {
      InsertKeepsBounded(s, a.p, id);
    } else if a.WriteWatermark? {
      WriteMovesOneWatermark(s, a.p);
      EndedIsBounded(s, Apply(s, a), a.p, id);
    } else if MovesPassOnly(a) {
      PassStepMoves(s, a);
      MovedEndsWithin(s, a, id);
      MovedIsBounded(s, Apply(s, a), a.p, id);
    }
  }

  lemma {:induction false} RunKeepsGapped(s: System, run: seq<Action>, id: string)
    requires Charged(s) && Numbered(s) && Bounded(s, id) && Gapped(s, id)
    requires Possible(s, run) && OneAtATime(s, run, id)
    ensures Gapped(After(s, run), id)
    decreases |run|
  {
    if run != [] {
      StepKeepsGapped(s, run[0], id);
      StepKeepsBounded(s, run[0], id);
      ActionKeepsCharged(s, run[0]);
      ActionKeepsNumbered(s, run[0]);
      RunKeepsGapped(Apply(s, run[0]), run[1..], id);
    }
  }

  /**
   * In every history in which the source has one pass at a time, lost watermark writes included: each
   * window whose watermark was written starts where the watermark was written before, the stored
   * watermark is the last write, and no stored record of the source, then or later, meets the time from
   * the end of such a window to its watermark write.
   */
  lemma UncoveredGap(clock: Time, run: seq<Action>, id: string)
    requires Possible(Initial(clock), run) && OneAtATime(Initial(clock), run, id)
    ensures var s := After(Initial(clock), run);
            var entries := LogOf(s, id);
            && (id in s.db.sources ==> s.db.sources[id].lastCollectedAt == Watermark(entries))
            && Chain(entries, s.clock)
            && GapsFree(s, id, entries)
  {
    RunKeepsGapped(Initial(clock), run, id);
  }

  // ---------------------------------------------------------------- two passes at a time

  lemma StoringLosesNothing(p: nat, id: string, t: nat, rec: CostRecord)
    ensures LosesNoWatermark(StoringActions(p, id, t, rec))
  {
  }

  /** One more pass of one record, up to its insert. */
  lemma StoringGoesOn(s: System, run: seq<Action>, id: string, t: nat, rec: CostRecord) returns (more: seq<Action>)
    requires Possible(s, run) && LosesNoWatermark(run) && Storable(After(s, run), id, t, rec)
    ensures Possible(s, more) && LosesNoWatermark(more)
    ensures StoredOne(After(s, run), After(s, more), id, t, rec)
  {
    var end := After(s, run);
    StoringSteps(end, id, t, rec);
    InParts(s, run, StoringActions(end.next, id, t, rec));
    StoringLosesNothing(end.next, id, t, rec);
    more := run + StoringActions(end.next, id, t, rec);
  }

  /** What two passes of one record each leave, both started without a watermark. */
  lemma TwoStored(s: System, s1: System, s2: System, x: CostRecord, y: CostRecord)
    requires s.db == EMPTY.(projects := map["p" := "p"], sources := map["s" := SOURCE])
    requires s.passes == map[] && s.next == 0 && s.origin == map[] && s.log == map[]
    requires x.id == "x" && y.id == "y" && StoredOne(s, s1, "s", 0, x)
    requires "s" in s1.db.sources && StoredOne(s1, s2, "s", 1, y)
    ensures s2.db.records == map["x" := x, "y" := y] && s2.origin == map["x" := 0, "y" := 1]
    ensures 0 in s2.passes && s2.passes[0] == Stored("s", SOURCE, Window(s.clock - DAY, s.clock), [x])
    ensures LogOf(s2, "s") == [] && s2.clock == s.clock + 1
  {
    assert s1.db.records == map["x" := x] && s1.origin == map["x" := 0];
  }

  /** The first of two passes stores its record, and the second one as well. */
  lemma TwoPassesStore(clock: Time, x: CostRecord, y: CostRecord) returns (run: seq<Action>)
    requires x == RecordFor("x", clock - DAY, clock) && y == RecordFor("y", clock - DAY, clock + 1)
    ensures Possible(Initial(clock), run) && LosesNoWatermark(run)
    ensures var s := After(Initial(clock), run);
            && s.db.records == map["x" := x, "y" := y] && s.origin == map["x" := 0, "y" := 1]
            && 0 in s.passes && s.passes[0] == Stored("s", SOURCE, Window(clock - DAY, clock), [x])
            && LogOf(s, "s") == [] && s.clock == clock + 1
  {
    var made := OneSource(clock);
    var s := After(Initial(clock), made);
    var first := StoringGoesOn(Initial(clock), made, "s", 0, x);
    var s1 := After(Initial(clock), first);
    assert s1.db == s.db.(records := map["x" := x]);
    run := StoringGoesOn(Initial(clock), first, "s", 1, y);
    TwoStored(s, s1, After(Initial(clock), run), x, y);
  }

  /**
   * Without a lost write, and without failures at all: two passes on a source at once store overlapping
   * records, and one of them covers the gap that the other leaves.
   */
  lemma TwoPassesAtOnce(clock: Time) returns (run: seq<Action>)
    ensures Possible(Initial(clock), run) && LosesNoWatermark(run)
    ensures var s := After(Initial(clock), run);
            OverlapIn(s, "y", "x", "s", 0) && !GapsFree(s, "s", LogOf(s, "s"))
  {
    var both := TwoPassesStore(clock, RecordFor("x", clock - DAY, clock), RecordFor("y", clock - DAY, clock + 1));
    var stored := After(Initial(clock), both);
    OneMore(Initial(clock), both, WriteWatermark(0));
    run := both + [WriteWatermark(0)];
    WriteLogs(stored, 0, "s");
    WriteMovesOneWatermark(stored, 0);
    var s := After(Initial(clock), run);
    assert RecordOf(s, "y", "s") && LogOf(s, "s")[0] == Entry(Window(clock - DAY, clock), clock + 1);
  }
}
