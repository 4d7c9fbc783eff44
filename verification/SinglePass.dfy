/** A pass of the step machine that nothing disturbs has the outcome that collectSource is specified by. */
module SinglePass {
  import opened Basics
  import opened Model
  import opened Tables
  import opened Collection
  import opened Passes

  function WriteActions(p: nat, input: PassInput): seq<Action>
    requires input.endSample <= input.writeSample
  {
    [Tick(input.writeSample - input.endSample)]
      + ([if input.writeFails then LoseWatermark(p) else WriteWatermark(p)] + [])
  }

  function StoreActions(db: Tables, p: nat, batch: seq<CostRecord>, input: PassInput): seq<Action>
    requires input.endSample <= input.writeSample
  {
    if batch == [] then WriteActions(p, input)
    else if input.insertFails then [InsertFails(p)] + []
    else [Insert(p)] + if InsertAll(db, batch) == None then [] else WriteActions(p, input)
  }

  function CollectActions(db: Tables, p: nat, collected: Option<seq<CostRecord>>, input: PassInput): seq<Action>
    requires input.endSample <= input.writeSample
  {
    match collected
    case None => [CollectFails(p)] + []
    case Some(batch) => [CollectReturns(p, batch)] + StoreActions(db, p, batch, input)
  }

  /** The steps of a pass, with these readings of the clock. */
  function PassActions(db: Tables, p: nat, collected: Option<seq<CostRecord>>, input: PassInput): seq<Action>
    requires input.startSample <= input.endSample <= input.writeSample
  {
    [SampleStart(p)]
      + ([Tick(input.endSample - input.startSample)] + ([SampleEnd(p)] + CollectActions(db, p, collected, input)))
  }

  /** The pass is over and the tables are these; the other passes are where they were. */
  predicate Over(s: System, end: System, p: nat, db: Tables) {
    end.db == db && end.passes == s.passes - {p}
  }

  /** What ends a pass that has moved ends the pass. */
  lemma OverAsMoved(s: System, moved: System, end: System, p: nat, pass: Pass, db: Tables)
    requires moved.passes == s.passes[p := pass] && Over(moved, end, p, db)
    ensures Over(s, end, p, db)
  {
    assert moved.passes - {p} == s.passes - {p};
  }

  lemma WriteAlone(s: System, p: nat, input: PassInput)
    requires p in s.passes && s.passes[p].Stored? && s.clock == input.endSample <= input.writeSample
    ensures var d := if input.writeFails then s.db else WithCollectedAt(s.db, s.passes[p].id, input.writeSample);
            Possible(s, WriteActions(p, input)) && Over(s, After(s, WriteActions(p, input)), p, d)
  {
    var last := if input.writeFails then LoseWatermark(p) else WriteWatermark(p);
    var s1 := Apply(s, Tick(input.writeSample - input.endSample));
    OneBefore(s1, last, []);
    OneBefore(s, Tick(input.writeSample - input.endSample), [last] + []);
  }

  lemma InsertAlone(s: System, p: nat, input: PassInput)
    requires p in s.passes && s.passes[p].Collected? && s.clock == input.endSample <= input.writeSample
    requires s.passes[p].batch != [] && !input.insertFails
    ensures var pass, actions := s.passes[p], StoreActions(s.db, p, s.passes[p].batch, input);
            && Possible(s, actions)
            && Over(s, After(s, actions), p, AfterPass(s.db, pass.id, Some(pass.batch), input).0)
  {
    var pass := s.passes[p];
    var s1 := Inserted(s, p);
    BatchIsExecuted(s.db, pass.batch);
    match InsertAll(s.db, pass.batch)
    case None => OneBefore(s, Insert(p), []);
    case Some(d) =>
      WriteAlone(s1, p, input);
      OneBefore(s, Insert(p), WriteActions(p, input));
      assert s1.passes - {p} == s.passes - {p};
  }

  lemma CollectAlone(s: System, p: nat, collected: Option<seq<CostRecord>>, input: PassInput)
    requires p in s.passes && s.passes[p].Windowed? && s.clock == input.endSample <= input.writeSample
    requires collected.Some? ==> Normalised(collected.value, s.passes[p].id, s.passes[p].row, s.passes[p].window)
    ensures var pass, actions := s.passes[p], CollectActions(s.db, p, collected, input);
            && Possible(s, actions)
            && Over(s, After(s, actions), p, AfterPass(s.db, pass.id, collected, input).0)
  {
    match collected
    case None => OneBefore(s, CollectFails(p), []);
    case Some(batch) =>
      var s1 := Apply(s, CollectReturns(p, batch));
      assert s1.passes - {p} == s.passes - {p};
      if batch == [] {
        WriteAlone(s1, p, input);
      } else if input.insertFails {
        OneBefore(s1, InsertFails(p), []);
      } else {
        InsertAlone(s1, p, input);
      }
      OneBefore(s, CollectReturns(p, batch), StoreActions(s.db, p, batch, input));
  }

  /** Where a listed pass stands once the clock has been read. */
  function Sampled(s: System, p: nat, input: PassInput): System
    requires p in s.passes && s.passes[p].Listed?
  {
    var pass, w := s.passes[p], WindowOf(s.passes[p].row, input);
    s.(clock := w.end, passes := s.passes[p := Windowed(pass.id, pass.row, w)])
  }

  /** The clock readings of a listed pass. */
  lemma SampleAlone(s: System, p: nat, input: PassInput, rest: seq<Action>)
    requires p in s.passes && s.passes[p].Listed? && s.clock == input.startSample <= input.endSample
    requires Possible(Sampled(s, p, input), rest)
    ensures var all := [SampleStart(p)] + ([Tick(input.endSample - input.startSample)] + ([SampleEnd(p)] + rest));
            Possible(s, all) && After(s, all) == After(Sampled(s, p, input), rest)
  {
    var wait := input.endSample - input.startSample;
    var s1 := Apply(s, SampleStart(p));
    var s2 := Apply(s1, Tick(wait));
    assert Apply(s2, SampleEnd(p)).passes == Sampled(s, p, input).passes;
    OneBefore(s2, SampleEnd(p), rest);
    OneBefore(s1, Tick(wait), [SampleEnd(p)] + rest);
    OneBefore(s, SampleStart(p), [Tick(wait)] + ([SampleEnd(p)] + rest));
  }

  /** What is left of the pass once its window is sampled. */
  lemma SampledAlone(s: System, p: nat, collected: Option<seq<CostRecord>>, input: PassInput)
    requires p in s.passes && s.passes[p].Listed? && input.endSample <= input.writeSample
    requires collected.Some? ==>
               Normalised(collected.value, s.passes[p].id, s.passes[p].row, WindowOf(s.passes[p].row, input))
    ensures var sampled, actions := Sampled(s, p, input), CollectActions(s.db, p, collected, input);
            && Possible(sampled, actions)
            && Over(s, After(sampled, actions), p, AfterPass(s.db, s.passes[p].id, collected, input).0)
  {
    var sampled := Sampled(s, p, input);
    CollectAlone(sampled, p, collected, input);
    OverAsMoved(s, sampled, After(sampled, CollectActions(s.db, p, collected, input)), p, sampled.passes[p],
                AfterPass(s.db, s.passes[p].id, collected, input).0);
  }

  /**
   * From every state with a listed pass: its steps, with any clock readings, answer and faults, are
   * possible in a row, and end the pass with the store that collectSource leaves.
   */
  lemma PassAlone(s: System, p: nat, collected: Option<seq<CostRecord>>, input: PassInput)
    requires p in s.passes && s.passes[p].Listed?
    requires s.clock == input.startSample <= input.endSample <= input.writeSample
    requires collected.Some? ==>
               Normalised(collected.value, s.passes[p].id, s.passes[p].row, WindowOf(s.passes[p].row, input))
    ensures var pass, actions := s.passes[p], PassActions(s.db, p, collected, input);
            && Possible(s, actions)
            && Over(s, After(s, actions), p, AfterPass(s.db, pass.id, collected, input).0)
  {
    SampledAlone(s, p, collected, input);
    SampleAlone(s, p, input, CollectActions(s.db, p, collected, input));
  }
}
