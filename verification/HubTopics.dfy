/** What a client's topics keep out: the filter test and the send are separate steps, and topics may grow between. */
module HubTopics {
  import opened HubMachine
  import opened HubDelivery

  /** A filtered publication about to reach the client has a topic of the client, or stands where it stood before. */
  ghost predicate Wanted(s0: State, s: State, t: Tid, c: ClientId) {
    var pc := PC(s, t);
    pc.PublishSending? && pc.c == c && pc.p.filter ==>
      (c in s.objects && pc.p.event.topic in s.objects[c].topics) || PC(s0, t) == pc
  }

  /** The client has topics, and what is about to reach it is wanted. */
  ghost predicate Narrowed(s0: State, s: State, c: ClientId) {
    c in s.objects && s.objects[c].topics != {} && forall t: Tid :: Wanted(s0, s, t, c)
  }

  /** A goroutine gets to a send by the filter test only. */
  ghost predicate CameByTest(s: State, s': State, u: Tid) {
    PC(s', u).PublishSending? ==>
      || PC(s, u) == PC(s', u)
      || (&& PC(s, u).PublishChosen? && PC(s, u).c == PC(s', u).c && PC(s, u).p == PC(s', u).p
          && PC(s', u).c in s.objects && PassesFilter(s, PC(s, u)))
  }

  lemma StepCameByTest(s: State, t: Tid, u: Tid)
    requires StepEnabled(s, t)
    ensures CameByTest(s, ApplyStep(s, t), u)
  {
    var pc := PC(s, t);
    if !Offering(s, t) {
      OtherStepsKeepPending(s, t);
      if pc.PublishWaiting? {
        assert PC(ApplyStep(s, t), t).PublishLooping?;
      } else if !pc.PublishChosen? && !pc.PublishSending? {
        NotPublishing(s, t);
      }
    } else if pc.PublishChosen? {
      FilterOffers(s, t);
    } else {
      SendOffers(s, t);
    }
  }

  lemma StartCameByTest(s: State, a: Action, u: Tid)
    requires Enabled(s, a)
    requires a.StartRegister? || a.StartUnregister? || a.StartPublish? || a.StartBridge? || a.BridgeStop?
    ensures CameByTest(s, Apply(s, a), u)
  {
  }

  lemma OtherCameByTest(s: State, a: Action, u: Tid)
    requires Enabled(s, a)
    requires a.Choose? || a.Subscribe? || a.Consume? || a.Emit? || a.BridgeTake?
    ensures CameByTest(s, Apply(s, a), u)
  {
  }

  lemma ActionKeepsNarrowed(s0: State, s: State, a: Action, c: ClientId)
    requires Narrowed(s0, s, c) && Enabled(s, a)
    ensures Narrowed(s0, Apply(s, a), c)
  {
    var s' := Apply(s, a);
    ActionKeepsTopics(s, a, c);
    forall t: Tid ensures Wanted(s0, s', t, c) {
      assert Wanted(s0, s, t, c);
      if a.Step? {
        StepCameByTest(s, a.t, t);
      } else if a.Choose? || a.Subscribe? || a.Consume? || a.Emit? || a.BridgeTake? {
        OtherCameByTest(s, a, t);
      } else {
        StartCameByTest(s, a, t);
      }
    }
  }

  lemma {:induction false} RunKeepsNarrowed(s0: State, s: State, run: seq<Action>, c: ClientId)
    requires Narrowed(s0, s, c) && Possible(s, run)
    ensures Narrowed(s0, After(s, run), c)
    decreases |run|
  {
    if run != [] {
      ActionKeepsNarrowed(s0, s, run[0], c);
      RunKeepsNarrowed(s0, Apply(s, run[0]), run[1..], c);
    }
  }

  /**
   * Once a client has topics, a step of a filtered publication changes the client's queue only if the
   * event's topic is one of them, or if the goroutine has stood at this send since then: it had passed the
   * filter test before.
   */
  lemma OnlyWantedEventsArrive(s0: State, run: seq<Action>, t: Tid, c: ClientId)
    requires c in s0.objects && s0.objects[c].topics != {} && Possible(s0, run)
    requires var s := After(s0, run);
             StepEnabled(s, t) && c in s.objects && ApplyStep(s, t).objects[c].queue != s.objects[c].queue
    ensures var s := After(s0, run);
            && PC(s, t).PublishSending? && PC(s, t).c == c
            && (PC(s, t).p.filter ==> PC(s, t).p.event.topic in s.objects[c].topics || PC(s0, t) == PC(s, t))
  {
    var s := After(s0, run);
    RunKeepsNarrowed(s0, s0, run, c);
    assert Wanted(s0, s, t, c);
    if !Offering(s, t) {
      OtherStepsLeaveBooks(s, t);
    } else if PC(s, t).PublishChosen? {
      FilterOffers(s, t);
    } else {
      SendOffers(s, t);
    }
  }

  /** The test of a filtered publication notes Filtered exactly when the client has topics without the event's. */
  lemma FilteredIffUnwanted(s: State, t: Tid)
    requires StepEnabled(s, t) && PC(s, t).PublishChosen? && PC(s, t).p.filter
    ensures var c, p, o := PC(s, t).c, PC(s, t).p, s.objects[PC(s, t).c];
            var next := PC(ApplyStep(s, t), t);
            if o.topics != {} && p.event.topic !in o.topics
            then next == PublishLooping(p.(outcomes := p.outcomes[c := Filtered]))
            else next == PublishSending(p, c)
  {
    if !PassesFilter(s, PC(s, t)) {
      FilterOffers(s, t);
    }
  }
}
