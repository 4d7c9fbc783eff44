/** What a publishing loop has noted of a client is what the client's history says. */
module HubOutcomes {
  import opened Basics
  import opened HubMachine
  import opened HubDelivery

  /** The last offer of a producer in a client's history. */
  function LastFrom(log: seq<Offer>, t: Tid): Option<Offer> {
    if log == [] then None
    else if log[|log| - 1].message.origin == t then Some(log[|log| - 1])
    else LastFrom(log[..|log| - 1], t)
  }

  ghost predicate Logged(s: State, t: Tid, c: ClientId) {
    var pc := PC(s, t);
    HoldsRead(pc) && c in pc.p.outcomes ==>
      && c in s.objects
      && var last := LastFrom(s.objects[c].log, t);
      last.Some? && last.value.message.event == pc.p.event && last.value.outcome == pc.p.outcomes[c]
  }

  ghost predicate AllLogged(s: State) {
    forall t: Tid, c :: Logged(s, t, c)
  }

  /** Histories stay, and no goroutine notes an outcome. */
  ghost predicate NothingNoted(s: State, s': State) {
    && (forall c | c in s.objects :: c in s'.objects && s'.objects[c].log == s.objects[c].log)
    && (forall t: Tid | HoldsRead(PC(s', t)) ::
          PC(s', t).p.outcomes == map[] || (HoldsRead(PC(s, t)) && PC(s', t).p == PC(s, t).p))
  }

  lemma NothingNotedKeeps(s: State, s': State)
    requires AllLogged(s) && NothingNoted(s, s')
    ensures AllLogged(s')
  {
    forall t: Tid, c ensures Logged(s', t, c) {
      assert Logged(s, t, c);
    }
  }

  lemma OfferKeepsLogged(s: State, s': State, t: Tid, outcome: Outcome, queue: seq<Message>)
    requires AllLogged(s) && Offered(s, s', t, outcome, queue)
    ensures AllLogged(s')
  {
    var c, p := PC(s, t).c, PC(s, t).p;
    var o := s.objects[c];
    var offer := Offer(Message(t, p.event), outcome, |o.queue|);
    assert (o.log + [offer])[..|o.log|] == o.log;
    forall u: Tid, d ensures Logged(s', u, d) {
      assert Logged(s, u, d);
      assert u != t ==> PC(s', u) == PC(s, u);
    }
  }

  lemma OtherStepsNoteNothing(s: State, t: Tid)
    requires StepEnabled(s, t) && !Offering(s, t)
    ensures NothingNoted(s, ApplyStep(s, t))
  {
    var pc := PC(s, t);
    OtherStepsLeaveBooks(s, t);
    OtherStepsKeepPending(s, t);
    if pc.PublishChosen? {
      assert PC(ApplyStep(s, t), t) == PublishSending(pc.p, pc.c);
    } else if pc.PublishWaiting? {
      assert PC(ApplyStep(s, t), t) == PublishLooping(Publication(pc.event, pc.filter, s.clients, map[]));
    } else if !pc.PublishSending? {
      NotPublishing(s, t);
    }
  }

  lemma StepKeepsLogged(s: State, t: Tid)
    requires AllLogged(s) && StepEnabled(s, t)
    ensures AllLogged(ApplyStep(s, t))
  {
    var pc := PC(s, t);
    if !Offering(s, t) {
      OtherStepsNoteNothing(s, t);
      NothingNotedKeeps(s, ApplyStep(s, t));
    } else if pc.PublishChosen? {
      FilterOffers(s, t);
      OfferKeepsLogged(s, ApplyStep(s, t), t, Filtered, s.objects[pc.c].queue);
    } else {
      SendOffers(s, t);
      var (queue, outcome) := TrySend(s.objects[pc.c].queue, Message(t, pc.p.event));
      OfferKeepsLogged(s, ApplyStep(s, t), t, outcome, queue);
    }
  }

  lemma StartsNoteNothing(s: State, a: Action)
    requires Enabled(s, a)
    requires a.StartRegister? || a.StartUnregister? || a.StartPublish? || a.StartBridge?
    ensures NothingNoted(s, Apply(s, a))
  {
  }

  lemma BridgesNoteNothing(s: State, a: Action)
    requires Enabled(s, a) && (a.BridgeTake? || a.BridgeStop? || a.Emit?)
    ensures NothingNoted(s, Apply(s, a))
  {
  }

  lemma ClientsNoteNothing(s: State, a: Action)
    requires Enabled(s, a) && (a.Choose? || a.Subscribe? || a.Consume?)
    ensures NothingNoted(s, Apply(s, a))
  {
  }

  lemma ActionKeepsLogged(s: State, a: Action)
    requires AllLogged(s) && Enabled(s, a)
    ensures AllLogged(Apply(s, a))
  {
    if a.Step? {
      StepKeepsLogged(s, a.t);
    } else {
      if a.Choose? || a.Subscribe? || a.Consume? {
        ClientsNoteNothing(s, a);
      } else if a.BridgeTake? || a.BridgeStop? || a.Emit? {
        BridgesNoteNothing(s, a);
      } else {
        StartsNoteNothing(s, a);
      }
      NothingNotedKeeps(s, Apply(s, a));
    }
  }

  lemma {:induction false} RunKeepsLogged(s: State, run: seq<Action>)
    requires AllLogged(s) && Possible(s, run)
    ensures AllLogged(After(s, run))
    decreases |run|
  {
    if run != [] {
      ActionKeepsLogged(s, run[0]);
      RunKeepsLogged(Apply(s, run[0]), run[1..]);
    }
  }

  /**
   * In every reachable state in which a publishing loop ends: for every client of the hub, the last that
   * its history has of this producer is the event of the loop, with the outcome the loop has noted.
   */
  lemma EndedLoopIsInEveryHistory(run: seq<Action>, t: Tid, c: ClientId)
    requires Possible(INITIAL, run)
    requires PC(After(INITIAL, run), t).PublishLooping? && StepEnabled(After(INITIAL, run), t)
    requires c in After(INITIAL, run).clients
    ensures var s := After(INITIAL, run);
            && c in s.objects && c in PC(s, t).p.outcomes
            && var last := LastFrom(s.objects[c].log, t);
            && last.Some? && last.value.message == Message(t, PC(s, t).p.event)
            && last.value.outcome == PC(s, t).p.outcomes[c]
  {
    var s := After(INITIAL, run);
    LoopVisitsEveryClient(run, t);
    RunKeepsLogged(INITIAL, run);
    assert Logged(s, t, c);
    LastIsFrom(s.objects[c].log, t);
  }

  lemma {:induction false} LastIsFrom(log: seq<Offer>, t: Tid)
    ensures LastFrom(log, t).Some? ==> LastFrom(log, t).value in log && LastFrom(log, t).value.message.origin == t
  {
    if log != [] && log[|log| - 1].message.origin != t {
      LastIsFrom(log[..|log| - 1], t);
    }
  }
}
