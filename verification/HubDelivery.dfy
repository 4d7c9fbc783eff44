/** What the hub's clients receive: the books of every queue, and the order of every producer's events. */
module HubDelivery {
  import opened HubMachine
  import opened Subsequence

  // ---------------------------------------------------------------- the books of a queue

  function DeliveredOf(log: seq<Offer>): seq<Message> {
    if log == [] then []
    else
      var last := log[|log| - 1];
      DeliveredOf(log[..|log| - 1]) + if last.outcome == Delivered then [last.message] else []
  }

  /** What was delivered was consumed or is queued; the queue is bounded; drops met a full queue. */
  ghost predicate Books(o: Client) {
    && DeliveredOf(o.log) == o.consumed + o.queue
    && |o.queue| <= CLIENT_BUFFER
    && (forall i | 0 <= i < |o.log| ::
          && o.log[i].depth <= CLIENT_BUFFER
          && (o.log[i].outcome == Dropped ==> o.log[i].depth == CLIENT_BUFFER)
          && (o.log[i].outcome == Delivered ==> o.log[i].depth < CLIENT_BUFFER))
  }

  ghost predicate AllBooks(s: State) {
    forall c | c in s.objects :: Books(s.objects[c])
  }

  lemma LogGrows(log: seq<Offer>, offer: Offer)
    ensures DeliveredOf(log + [offer]) == DeliveredOf(log) + if offer.outcome == Delivered then [offer.message] else []
  {
    assert (log + [offer])[..|log|] == log;
  }

  lemma OfferKeepsBooks(o: Client, m: Message, outcome: Outcome, queue: seq<Message>)
    requires Books(o)
    requires (outcome == Filtered && queue == o.queue) || (queue, outcome) == TrySend(o.queue, m)
    ensures Books(o.(log := o.log + [Offer(m, outcome, |o.queue|)], queue := queue))
  {
    LogGrows(o.log, Offer(m, outcome, |o.queue|));
  }

  lemma ConsumeKeepsBooks(o: Client)
    requires Books(o) && o.queue != []
    ensures Books(o.(queue := o.queue[1..], consumed := o.consumed + [o.queue[0]]))
  {
    assert o.consumed + [o.queue[0]] + o.queue[1..] == o.consumed + o.queue;
  }

  /** One client of the loop got the message of the running publication, with this outcome. */
  ghost predicate Offered(s: State, s': State, t: Tid, outcome: Outcome, queue: seq<Message>) {
    var pc := PC(s, t);
    && (pc.PublishChosen? || pc.PublishSending?) && pc.c in s.objects
    && var o := s.objects[pc.c];
    && var offer := Offer(Message(t, pc.p.event), outcome, |o.queue|);
    && s'.objects == s.objects[pc.c := o.(log := o.log + [offer], queue := queue)]
    && s'.threads == s.threads[t := PublishLooping(pc.p.(outcomes := pc.p.outcomes[pc.c := outcome]))]
    && s'.published == s.published && s'.plugins == s.plugins && s'.bridges == s.bridges
  }

  lemma SendOffers(s: State, t: Tid)
    requires StepEnabled(s, t) && PC(s, t).PublishSending? && !s.objects[PC(s, t).c].closed
    ensures var (queue, outcome) := TrySend(s.objects[PC(s, t).c].queue, Message(t, PC(s, t).p.event));
            Offered(s, ApplyStep(s, t), t, outcome, queue)
  {
  }

  lemma FilterOffers(s: State, t: Tid)
    requires StepEnabled(s, t) && PC(s, t).PublishChosen? && !PassesFilter(s, PC(s, t))
    ensures Offered(s, ApplyStep(s, t), t, Filtered, s.objects[PC(s, t).c].queue)
  {
  }

  /** The queues and histories stay as they are; a new client starts with empty ones. */
  ghost predicate SameBooks(s: State, s': State) {
    && s.objects.Keys <= s'.objects.Keys
    && (forall c | c in s.objects ::
          && s'.objects[c].queue == s.objects[c].queue
          && s'.objects[c].consumed == s.objects[c].consumed
          && s'.objects[c].log == s.objects[c].log)
    && (forall c | c in s'.objects && c !in s.objects ::
          s'.objects[c].queue == [] && s'.objects[c].consumed == [] && s'.objects[c].log == [])
  }

  predicate Offering(s: State, t: Tid)
    requires StepEnabled(s, t)
  {
    var pc := PC(s, t);
    (pc.PublishSending? && !s.objects[pc.c].closed) || (pc.PublishChosen? && !PassesFilter(s, pc))
  }

  /** Taking and releasing the lock touches no client, no channel and no history. */
  ghost predicate OnlyLocks(s: State, s': State) {
    s'.objects == s.objects && s'.published == s.published && s'.plugins == s.plugins && s'.bridges == s.bridges
  }

  lemma UnlockStepsOnlyLock(s: State, t: Tid)
    requires StepEnabled(s, t)
             && (PC(s, t).RegisterInserted? || PC(s, t).UnregisterDeleted? || PC(s, t).PublishLooping?)
    ensures OnlyLocks(s, ApplyStep(s, t))
  {
  }

  /** Inserting, deleting and closing change the life of one client. */
  ghost predicate OnlyLife(s: State, s': State, c: ClientId) {
    && c in s.objects
    && (exists life, closed, once ::
          s'.objects == s.objects[c := s.objects[c].(life := life, closed := closed, onceDone := once)])
    && s'.published == s.published && s'.plugins == s.plugins && s'.bridges == s.bridges
  }

  lemma InsertIsOnlyLife(s: State, t: Tid)
    requires StepEnabled(s, t) && PC(s, t).RegisterLocked?
    ensures OnlyLife(s, ApplyStep(s, t), PC(s, t).c)
  {
    var o := s.objects[PC(s, t).c];
    assert ApplyStep(s, t).objects
        == s.objects[PC(s, t).c := o.(life := Live, closed := o.closed, onceDone := o.onceDone)];
  }

  lemma DeleteIsOnlyLife(s: State, t: Tid)
    requires StepEnabled(s, t) && PC(s, t).UnregisterLocked?
    ensures OnlyLife(s, ApplyStep(s, t), PC(s, t).c)
  {
    var o := s.objects[PC(s, t).c];
    assert ApplyStep(s, t).objects
        == s.objects[PC(s, t).c := o.(life := if PC(s, t).c in s.clients then Closing(t) else o.life,
                                      closed := o.closed, onceDone := o.onceDone)];
  }

  lemma CloseIsOnlyLife(s: State, t: Tid)
    requires StepEnabled(s, t) && PC(s, t).UnregisterClosing?
    ensures OnlyLife(s, ApplyStep(s, t), PC(s, t).c)
  {
    var o := s.objects[PC(s, t).c];
    assert ApplyStep(s, t).objects
        == s.objects[PC(s, t).c := if o.onceDone then o.(life := o.life, closed := o.closed, onceDone := o.onceDone)
                                   else o.(life := Closed, closed := true, onceDone := true)];
  }

  lemma LifeStepsLeaveBooks(s: State, t: Tid)
    requires StepEnabled(s, t)
             && (PC(s, t).RegisterLocked? || PC(s, t).UnregisterLocked? || PC(s, t).UnregisterClosing?)
    ensures SameBooks(s, ApplyStep(s, t)) && OnlyLife(s, ApplyStep(s, t), PC(s, t).c)
    ensures forall c | c in s.objects :: ApplyStep(s, t).objects[c].topics == s.objects[c].topics
  {
    match PC(s, t)
    case RegisterLocked(_) => InsertIsOnlyLife(s, t);
    case UnregisterLocked(_) => DeleteIsOnlyLife(s, t);
    case UnregisterClosing(_) => CloseIsOnlyLife(s, t);
  }

  lemma PublishStepsLeaveObjects(s: State, t: Tid)
    requires StepEnabled(s, t) && !Offering(s, t) && (PC(s, t).PublishSending? || PC(s, t).PublishChosen?)
    ensures OnlyLocks(s, ApplyStep(s, t))
  {
  }

  lemma OtherStepsLeaveBooks(s: State, t: Tid)
    requires StepEnabled(s, t) && !Offering(s, t)
    ensures SameBooks(s, ApplyStep(s, t)) && ApplyStep(s, t).published == s.published
    ensures ApplyStep(s, t).plugins == s.plugins && ApplyStep(s, t).bridges == s.bridges
    ensures forall c | c in s.objects :: ApplyStep(s, t).objects[c].topics == s.objects[c].topics
  {
    match PC(s, t)
    case RegisterWaiting(_) =>
    case UnregisterWaiting(_) =>
    case PublishWaiting(_, _) =>
    case PublishSending(_, _) => PublishStepsLeaveObjects(s, t);
    case PublishChosen(_, _) => PublishStepsLeaveObjects(s, t);
    case RegisterInserted(_) => UnlockStepsOnlyLock(s, t);
    case UnregisterDeleted(_, _) => UnlockStepsOnlyLock(s, t);
    case PublishLooping(_) => UnlockStepsOnlyLock(s, t);
    case _ => LifeStepsLeaveBooks(s, t);
  }

  lemma OfferedBalance(s: State, s': State, t: Tid, outcome: Outcome, queue: seq<Message>)
    requires AllBooks(s) && Offered(s, s', t, outcome, queue)
    requires var o := s.objects[PC(s, t).c];
             (outcome == Filtered && queue == o.queue)
               || (queue, outcome) == TrySend(o.queue, Message(t, PC(s, t).p.event))
    ensures AllBooks(s')
  {
    OfferKeepsBooks(s.objects[PC(s, t).c], Message(t, PC(s, t).p.event), outcome, queue);
  }

  lemma StepKeepsBooks(s: State, t: Tid)
    requires AllBooks(s) && StepEnabled(s, t)
    ensures AllBooks(ApplyStep(s, t))
  {
    var pc := PC(s, t);
    if !Offering(s, t) {
      OtherStepsLeaveBooks(s, t);
    } else if pc.PublishChosen? {
      FilterOffers(s, t);
      OfferedBalance(s, ApplyStep(s, t), t, Filtered, s.objects[pc.c].queue);
    } else {
      SendOffers(s, t);
      var (queue, outcome) := TrySend(s.objects[pc.c].queue, Message(t, pc.p.event));
      OfferedBalance(s, ApplyStep(s, t), t, outcome, queue);
    }
  }

  lemma ActionKeepsBooks(s: State, a: Action)
    requires AllBooks(s) && Enabled(s, a)
    ensures AllBooks(Apply(s, a))
  {
    if a.Step? {
      StepKeepsBooks(s, a.t);
    } else if a.Consume? {
      ConsumeKeepsBooks(s.objects[a.c]);
    } else {
      OtherActionsLeaveBooks(s, a);
    }
  }

  lemma OtherActionsLeaveBooks(s: State, a: Action)
    requires Enabled(s, a) && !a.Step? && !a.Consume?
    ensures SameBooks(s, Apply(s, a))
  {
    if a.StartRegister? || a.Subscribe? {
    } else {
      assert Apply(s, a).objects == s.objects;
    }
  }

  lemma {:induction false} RunKeepsBooks(s: State, run: seq<Action>)
    requires AllBooks(s) && Possible(s, run)
    ensures AllBooks(After(s, run))
    decreases |run|
  {
    if run != [] {
      ActionKeepsBooks(s, run[0]);
      RunKeepsBooks(Apply(s, run[0]), run[1..]);
    }
  }

  /** In every reachable state the books of every client balance. */
  lemma HubAccounting(run: seq<Action>, c: ClientId)
    requires Possible(INITIAL, run) && c in After(INITIAL, run).objects
    ensures var o := After(INITIAL, run).objects[c];
            && DeliveredOf(o.log) == o.consumed + o.queue
            && |o.queue| <= 256
            && (forall i | 0 <= i < |o.log| ::
                  && (o.log[i].outcome == Dropped ==> o.log[i].depth == 256)
                  && (o.log[i].outcome == Delivered ==> o.log[i].depth < 256))
  {
    RunKeepsBooks(INITIAL, run);
  }

  /**
   * When a publishing loop ends, every client that was in the hub when the loop took the read lock
   * (and these are still the clients) has exactly one outcome.
   */
  lemma LoopVisitsEveryClient(run: seq<Action>, t: Tid)
    requires Possible(INITIAL, run)
    requires PC(After(INITIAL, run), t).PublishLooping? && StepEnabled(After(INITIAL, run), t)
    ensures var s := After(INITIAL, run);
            PC(s, t).p.outcomes.Keys == PC(s, t).p.snapshot == s.clients
  {
    RunKeepsSafe(INITIAL, run);
    assert Relies(After(INITIAL, run), t);
  }

  lemma StepKeepsTopics(s: State, t: Tid, c: ClientId)
    requires StepEnabled(s, t) && c in s.objects
    ensures c in ApplyStep(s, t).objects && ApplyStep(s, t).objects[c].topics == s.objects[c].topics
  {
    if !Offering(s, t) {
      OtherStepsLeaveBooks(s, t);
    } else if PC(s, t).PublishChosen? {
      FilterOffers(s, t);
    } else {
      SendOffers(s, t);
    }
  }

  lemma ActionKeepsTopics(s: State, a: Action, c: ClientId)
    requires Enabled(s, a) && c in s.objects
    ensures c in Apply(s, a).objects && s.objects[c].topics <= Apply(s, a).objects[c].topics
  {
    if a.Step? {
      StepKeepsTopics(s, a.t, c);
    }
  }

  /** A client's topics are never taken away. */
  lemma {:induction false} TopicsOnlyGrow(s: State, run: seq<Action>, c: ClientId)
    requires Possible(s, run) && c in s.objects
    ensures c in After(s, run).objects && s.objects[c].topics <= After(s, run).objects[c].topics
    decreases |run|
  {
    if run != [] {
      ActionKeepsTopics(s, run[0], c);
      TopicsOnlyGrow(Apply(s, run[0]), run[1..], c);
    }
  }

  // ---------------------------------------------------------------- order

  /** The events that one producer offered to a client, whatever became of them. */
  function OffersFrom(log: seq<Offer>, t: Tid): seq<Event> {
    if log == [] then []
    else
      var last := log[|log| - 1];
      OffersFrom(log[..|log| - 1], t) + if last.message.origin == t then [last.message.event] else []
  }

  function EventsFrom(ms: seq<Message>, t: Tid): seq<Event> {
    if ms == [] then []
    else
      var last := ms[|ms| - 1];
      EventsFrom(ms[..|ms| - 1], t) + if last.origin == t then [last.event] else []
  }

  predicate Publishing(pc: Thread) {
    pc.PublishWaiting? || HoldsRead(pc)
  }

  function CurrentEvent(pc: Thread): Event
    requires Publishing(pc)
  {
    if pc.PublishWaiting? then pc.event else pc.p.event
  }

  /** The current publication has not reached this client yet. */
  predicate Pending(pc: Thread, c: ClientId) {
    pc.PublishWaiting? || (HoldsRead(pc) && c !in pc.p.outcomes)
  }

  ghost predicate OrderAt(s: State, t: Tid, c: ClientId)
    requires c in s.objects
  {
    var offers, pub := OffersFrom(s.objects[c].log, t), Published(s, t);
    && IsSub(offers, pub)
    && (Pending(PC(s, t), c) ==> pub != [] && IsSub(offers, pub[..|pub| - 1]))
  }

  ghost predicate InOrder(s: State) {
    && (forall t: Tid | Publishing(PC(s, t)) ::
          Published(s, t) != [] && Published(s, t)[|Published(s, t)| - 1] == CurrentEvent(PC(s, t)))
    && (forall t: Tid, c | c in s.objects :: OrderAt(s, t, c))
  }

  lemma OffersGrow(log: seq<Offer>, offer: Offer, t: Tid)
    ensures OffersFrom(log + [offer], t)
         == OffersFrom(log, t) + if offer.message.origin == t then [offer.message.event] else []
  {
    assert (log + [offer])[..|log|] == log;
  }

  /** Histories and published events stay as they are, and the publication only loses pending clients. */
  ghost predicate KeepsOrder(s: State, s': State) {
    && (forall c | c in s'.objects && c in s.objects :: s'.objects[c].log == s.objects[c].log)
    && (forall c | c in s'.objects && c !in s.objects :: s'.objects[c].log == [])
    && (forall t: Tid :: Published(s', t) == Published(s, t))
    && (forall t: Tid | Publishing(PC(s', t)) ::
          && Publishing(PC(s, t)) && CurrentEvent(PC(s', t)) == CurrentEvent(PC(s, t))
          && forall c :: Pending(PC(s', t), c) ==> Pending(PC(s, t), c))
  }

  lemma KeepingOrder(s: State, s': State)
    requires InOrder(s) && KeepsOrder(s, s')
    ensures InOrder(s')
  {
    forall t: Tid, c | c in s'.objects ensures OrderAt(s', t, c) {
      if c in s.objects {
        assert OrderAt(s, t, c);
      }
    }
  }

  /** A producer publishes one more event. */
  lemma PublishKeepsOrder(s: State, s': State, t: Tid, event: Event)
    requires InOrder(s) && s'.objects == s.objects
    requires !Publishing(PC(s, t)) && PC(s', t).PublishWaiting? && PC(s', t).event == event
    requires forall u: Tid | u != t :: PC(s', u) == PC(s, u) && Published(s', u) == Published(s, u)
    requires Published(s', t) == Published(s, t) + [event]
    ensures InOrder(s')
  {
    forall u: Tid, c | c in s'.objects ensures OrderAt(s', u, c) {
      assert OrderAt(s, u, c);
      if u == t {
        Grow(OffersFrom(s.objects[c].log, t), Published(s, t), event);
        assert Published(s', t)[..|Published(s, t)|] == Published(s, t);
      }
    }
  }

  /** A pending client gets the current event of the producer. */
  lemma OfferKeepsOrder(s: State, s': State, t: Tid, outcome: Outcome, queue: seq<Message>)
    requires InOrder(s) && Offered(s, s', t, outcome, queue) && Pending(PC(s, t), PC(s, t).c)
    ensures InOrder(s')
  {
    assert PC(s', t) == PublishLooping(PC(s, t).p.(outcomes := PC(s, t).p.outcomes[PC(s, t).c := outcome]));
    forall u: Tid ensures Published(s', u) == Published(s, u) && (u != t ==> PC(s', u) == PC(s, u)) {
    }
    forall u: Tid, d | d in s'.objects ensures OrderAt(s', u, d) {
      assert OrderAt(s, u, d);
      if d == PC(s, t).c {
        if u == t {
          OwnOfferInOrder(s, s', t, outcome, queue);
        } else {
          OtherOfferInOrder(s, s', t, u, outcome, queue);
        }
      }
    }
  }

  lemma OwnOfferInOrder(s: State, s': State, t: Tid, outcome: Outcome, queue: seq<Message>)
    requires Offered(s, s', t, outcome, queue) && Pending(PC(s, t), PC(s, t).c)
    requires OrderAt(s, t, PC(s, t).c)
    requires Published(s, t) != [] && Published(s, t)[|Published(s, t)| - 1] == PC(s, t).p.event
    ensures OrderAt(s', t, PC(s, t).c)
  {
    var c, event := PC(s, t).c, PC(s, t).p.event;
    OffersGrow(s.objects[c].log, Offer(Message(t, event), outcome, |s.objects[c].queue|), t);
    OfferIsNext(OffersFrom(s.objects[c].log, t), Published(s, t), event);
  }

  lemma OtherOfferInOrder(s: State, s': State, t: Tid, u: Tid, outcome: Outcome, queue: seq<Message>)
    requires Offered(s, s', t, outcome, queue) && u != t && OrderAt(s, u, PC(s, t).c)
    ensures OrderAt(s', u, PC(s, t).c)
  {
    var c := PC(s, t).c;
    OffersGrow(s.objects[c].log, Offer(Message(t, PC(s, t).p.event), outcome, |s.objects[c].queue|), u);
    assert OffersFrom(s'.objects[c].log, u) == OffersFrom(s.objects[c].log, u);
    assert PC(s', u) == PC(s, u) && Published(s', u) == Published(s, u);
  }

  lemma OfferIsNext(offers: seq<Event>, pub: seq<Event>, event: Event)
    requires pub != [] && pub[|pub| - 1] == event && IsSub(offers, pub[..|pub| - 1])
    ensures IsSub(offers + [event], pub)
  {
    Grow(offers, pub[..|pub| - 1], event);
    assert pub[..|pub| - 1] + [event] == pub;
  }

  lemma OtherStepsKeepPending(s: State, t: Tid)
    requires StepEnabled(s, t) && !Offering(s, t)
    ensures var pc, pc' := PC(s, t), PC(ApplyStep(s, t), t);
            Publishing(pc') ==>
              && Publishing(pc) && CurrentEvent(pc') == CurrentEvent(pc)
              && forall c :: Pending(pc', c) ==> Pending(pc, c)
    ensures forall u: Tid | u != t :: PC(ApplyStep(s, t), u) == PC(s, u)
  {
    var pc := PC(s, t);
    if pc.PublishChosen? {
      assert PC(ApplyStep(s, t), t) == PublishSending(pc.p, pc.c);
    } else if pc.PublishWaiting? {
      assert PC(ApplyStep(s, t), t) == PublishLooping(Publication(pc.event, pc.filter, s.clients, map[]));
    } else if !pc.PublishSending? {
      NotPublishing(s, t);
    }
  }

  lemma NotPublishing(s: State, t: Tid)
    requires StepEnabled(s, t) && !PC(s, t).PublishWaiting? && !PC(s, t).PublishChosen? && !PC(s, t).PublishSending?
    ensures !Publishing(PC(ApplyStep(s, t), t))
    ensures forall u: Tid | u != t :: PC(ApplyStep(s, t), u) == PC(s, u)
  {
    match PC(s, t)
    case RegisterWaiting(_) =>
    case RegisterLocked(_) =>
    case RegisterInserted(_) =>
    case PublishLooping(_) =>
    case _ => UnregisteringIsNotPublishing(s, t);
  }

  lemma UnregisteringIsNotPublishing(s: State, t: Tid)
    requires StepEnabled(s, t)
    requires PC(s, t).UnregisterWaiting? || PC(s, t).UnregisterLocked? || PC(s, t).UnregisterDeleted?
             || PC(s, t).UnregisterClosing?
    ensures !Publishing(PC(ApplyStep(s, t), t))
    ensures forall u: Tid | u != t :: PC(ApplyStep(s, t), u) == PC(s, u)
  {
  }

  lemma StepKeepsOrder(s: State, t: Tid)
    requires InOrder(s) && Safe(s) && StepEnabled(s, t)
    ensures InOrder(ApplyStep(s, t))
  {
    var pc, s' := PC(s, t), ApplyStep(s, t);
    assert Relies(s, t);
    if !Offering(s, t) {
      OtherStepsLeaveBooks(s, t);
      OtherStepsKeepPending(s, t);
      KeepingOrder(s, s');
    } else if pc.PublishChosen? {
      FilterOffers(s, t);
      OfferKeepsOrder(s, s', t, Filtered, s.objects[pc.c].queue);
    } else {
      SendOffers(s, t);
      var (queue, outcome) := TrySend(s.objects[pc.c].queue, Message(t, pc.p.event));
      OfferKeepsOrder(s, s', t, outcome, queue);
    }
  }

  lemma ActionKeepsOrder(s: State, a: Action)
    requires InOrder(s) && Safe(s) && Enabled(s, a)
    ensures InOrder(Apply(s, a))
  {
    var s' := Apply(s, a);
    if a.Step? {
      StepKeepsOrder(s, a.t);
    } else if a.StartPublish? {
      PublishKeepsOrder(s, s', a.t, a.event);
    } else if a.BridgeTake? && a.marshalled {
      var ch := ChannelOf(s, s.bridges[a.t]);
      PublishKeepsOrder(s, s', a.t, ch.emitted[ch.taken]);
    } else {
      OtherActionsKeepOrder(s, a);
      KeepingOrder(s, s');
    }
  }

  lemma OtherActionsKeepOrder(s: State, a: Action)
    requires Enabled(s, a) && !a.Step? && !a.StartPublish? && !(a.BridgeTake? && a.marshalled)
    ensures KeepsOrder(s, Apply(s, a))
  {
    if a.Subscribe? || a.Consume? || a.Emit? {
      ClientActionsKeepOrder(s, a);
    } else {
      ThreadActionsKeepOrder(s, a);
    }
  }

  lemma ClientActionsKeepOrder(s: State, a: Action)
    requires Enabled(s, a) && (a.Subscribe? || a.Consume? || a.Emit?)
    ensures KeepsOrder(s, Apply(s, a))
  {
    assert Apply(s, a).threads == s.threads && Apply(s, a).published == s.published;
  }

  lemma ThreadActionsKeepOrder(s: State, a: Action)
    requires Enabled(s, a) && (a.StartRegister? || a.StartUnregister? || a.Choose? || a.StartBridge? || a.BridgeStop?
                               || (a.BridgeTake? && !a.marshalled))
    ensures KeepsOrder(s, Apply(s, a))
  {
  }

  lemma {:induction false} RunKeepsOrder(s: State, run: seq<Action>)
    requires InOrder(s) && Safe(s) && Possible(s, run)
    ensures InOrder(After(s, run))
    decreases |run|
  {
    if run != [] {
      ActionKeepsOrder(s, run[0]);
      ActionKeepsSafe(s, run[0]);
      RunKeepsOrder(Apply(s, run[0]), run[1..]);
    }
  }

  lemma {:induction false} DeliveredWereOffered(log: seq<Offer>, t: Tid)
    ensures IsSub(EventsFrom(DeliveredOf(log), t), OffersFrom(log, t))
  {
    if log != [] {
      var front, last := log[..|log| - 1], log[|log| - 1];
      DeliveredWereOffered(front, t);
      Grow(EventsFrom(DeliveredOf(front), t), OffersFrom(front, t), last.message.event);
      var d := DeliveredOf(front);
      assert (d + [last.message])[..|d|] == d;
      assert EventsFrom(d + [last.message], t)
          == EventsFrom(d, t) + if last.message.origin == t then [last.message.event] else [];
      assert d + [] == d;
      assert OffersFrom(front, t) + [] == OffersFrom(front, t);
      assert EventsFrom(d, t) + [] == EventsFrom(d, t);
    }
  }

  lemma {:induction false} EventsOfConcat(a: seq<Message>, b: seq<Message>, t: Tid)
    ensures EventsFrom(a + b, t) == EventsFrom(a, t) + EventsFrom(b, t)
    decreases |b|
  {
    if b == [] {
      assert a + b == a;
    } else {
      assert (a + b)[..|a + b| - 1] == a + b[..|b| - 1];
      EventsOfConcat(a, b[..|b| - 1], t);
    }
  }

  /**
   * Whatever else goes on, what a client has taken off its queue from one producer is, in order, a
   * subsequence of what that producer published.
   */
  lemma PerProducerOrder(run: seq<Action>, c: ClientId, t: Tid)
    requires Possible(INITIAL, run) && c in After(INITIAL, run).objects
    ensures var s := After(INITIAL, run); IsSub(EventsFrom(s.objects[c].consumed, t), Published(s, t))
  {
    var s := After(INITIAL, run);
    var o := s.objects[c];
    RunKeepsBooks(INITIAL, run);
    RunKeepsOrder(INITIAL, run);
    assert Books(o) && OrderAt(s, t, c);
    EventsOfConcat(o.consumed, o.queue, t);
    Prefix(EventsFrom(o.consumed, t), EventsFrom(o.queue, t));
    DeliveredWereOffered(o.log, t);
    Transitive(EventsFrom(o.consumed, t), EventsFrom(DeliveredOf(o.log), t), OffersFrom(o.log, t));
    Transitive(EventsFrom(o.consumed, t), OffersFrom(o.log, t), Published(s, t));
  }

  // ---------------------------------------------------------------- from the plugin's channel

  /** A bridge publishes, in order, a subsequence of what it took; each plugin has one bridge. */
  ghost predicate BridgesInOrder(s: State) {
    && (forall p :: ChannelOf(s, p).taken <= |ChannelOf(s, p).emitted| <= ChannelOf(s, p).taken + PLUGIN_BUFFER)
    && (forall t | t in s.bridges ::
          var ch := ChannelOf(s, s.bridges[t]); IsSub(Published(s, t), ch.emitted[..ch.taken]))
    && (forall t, u | t in s.bridges && u in s.bridges && s.bridges[t] == s.bridges[u] :: t == u)
  }

  lemma EmitKeepsBridges(s: State, p: PluginId, event: Event)
    requires BridgesInOrder(s) && Enabled(s, Emit(p, event))
    ensures BridgesInOrder(Apply(s, Emit(p, event)))
  {
    var s', ch := Apply(s, Emit(p, event)), ChannelOf(s, p);
    assert (ch.emitted + [event])[..ch.taken] == ch.emitted[..ch.taken];
    assert ChannelOf(s', p) == ch.(emitted := ch.emitted + [event]);
    assert forall q | q != p :: ChannelOf(s', q) == ChannelOf(s, q);
    assert forall t: Tid :: Published(s', t) == Published(s, t);
  }

  lemma TakeKeepsBridges(s: State, t: Tid, marshalled: bool)
    requires BridgesInOrder(s) && Enabled(s, BridgeTake(t, marshalled))
    ensures BridgesInOrder(Apply(s, BridgeTake(t, marshalled)))
  {
    TakenIsNext(Published(s, t), ChannelOf(s, s.bridges[t]));
    TakeKeeps(s, Apply(s, BridgeTake(t, marshalled)), t);
  }

  lemma TakenIsNext(pub: seq<Event>, ch: Channel)
    requires ch.taken < |ch.emitted| && IsSub(pub, ch.emitted[..ch.taken])
    ensures IsSub(pub, ch.emitted[..ch.taken + 1]) && IsSub(pub + [ch.emitted[ch.taken]], ch.emitted[..ch.taken + 1])
    ensures pub + [] == pub
  {
    TakeOneMore(ch.emitted, ch.taken);
    Grow(pub, ch.emitted[..ch.taken], ch.emitted[ch.taken]);
  }

  lemma TakeOneMore<T>(s: seq<T>, k: nat)
    requires k < |s|
    ensures s[..k + 1] == s[..k] + [s[k]]
  {
  }

  lemma TakeKeeps(s: State, s': State, t: Tid)
    requires BridgesInOrder(s) && t in s.bridges && s'.bridges == s.bridges
    requires var ch := ChannelOf(s, s.bridges[t]);
             && ch.taken < |ch.emitted|
             && ChannelOf(s', s.bridges[t]) == ch.(taken := ch.taken + 1)
             && IsSub(Published(s', t), ch.emitted[..ch.taken + 1])
    requires forall q | q != s.bridges[t] :: ChannelOf(s', q) == ChannelOf(s, q)
    requires forall u: Tid | u != t :: Published(s', u) == Published(s, u)
    ensures BridgesInOrder(s')
  {
  }

  /** Channels and bridges stay, but for a new bridge of a plugin without one; what bridges published stays. */
  ghost predicate BridgesStay(s: State, s': State) {
    && s'.plugins == s.plugins
    && (forall t: Tid | t in s'.bridges :: Published(s', t) == Published(s, t))
    && (s'.bridges == s.bridges ||
        exists t: Tid, p :: s'.bridges == s.bridges[t := p] && t !in s.published && p !in s.bridges.Values)
  }

  lemma StayingBridges(s: State, s': State)
    requires BridgesInOrder(s) && BridgesStay(s, s')
    ensures BridgesInOrder(s')
  {
    assert forall p :: ChannelOf(s', p) == ChannelOf(s, p);
  }

  lemma OtherActionsKeepBridges(s: State, a: Action)
    requires Enabled(s, a) && !a.Emit? && !a.BridgeTake?
    ensures BridgesStay(s, Apply(s, a))
  {
    if a.Step? {
      if !Offering(s, a.t) {
        OtherStepsLeaveBooks(s, a.t);
      } else if PC(s, a.t).PublishChosen? {
        FilterOffers(s, a.t);
      } else {
        SendOffers(s, a.t);
      }
    } else if a.StartBridge? {
      assert Apply(s, a).bridges == s.bridges[a.t := a.plugin];
    }
  }

  lemma ActionKeepsBridges(s: State, a: Action)
    requires BridgesInOrder(s) && Enabled(s, a)
    ensures BridgesInOrder(Apply(s, a))
  {
    match a
    case Emit(p, event) => EmitKeepsBridges(s, p, event);
    case BridgeTake(t, marshalled) => TakeKeepsBridges(s, t, marshalled);
    case _ =>
      OtherActionsKeepBridges(s, a);
      StayingBridges(s, Apply(s, a));
  }

  lemma {:induction false} RunKeepsBridges(s: State, run: seq<Action>)
    requires BridgesInOrder(s) && Possible(s, run)
    ensures BridgesInOrder(After(s, run))
    decreases |run|
  {
    if run != [] {
      ActionKeepsBridges(s, run[0]);
      RunKeepsBridges(Apply(s, run[0]), run[1..]);
    }
  }

  /**
   * End to end, with everybody else interleaving and drops at full buffers: what a client's write
   * pump takes of one plugin's events is an order-preserving subsequence of what the plugin put on
   * its channel.
   */
  lemma PluginEventsStayInOrder(run: seq<Action>, c: ClientId, t: Tid)
    requires Possible(INITIAL, run)
    requires c in After(INITIAL, run).objects && t in After(INITIAL, run).bridges
    ensures var s := After(INITIAL, run);
            IsSub(EventsFrom(s.objects[c].consumed, t), ChannelOf(s, s.bridges[t]).emitted)
  {
    var s := After(INITIAL, run);
    var ch := ChannelOf(s, s.bridges[t]);
    PerProducerOrder(run, c, t);
    RunKeepsBridges(INITIAL, run);
    Prefix(ch.emitted[..ch.taken], ch.emitted[ch.taken..]);
    assert ch.emitted[..ch.taken] + ch.emitted[ch.taken..] == ch.emitted;
    Transitive(EventsFrom(s.objects[c].consumed, t), Published(s, t), ch.emitted[..ch.taken]);
    Transitive(EventsFrom(s.objects[c].consumed, t), ch.emitted[..ch.taken], ch.emitted);
  }
}
