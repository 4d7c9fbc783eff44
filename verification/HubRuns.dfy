/**
 * What whole operations of the hub machine come to: registering and unregistering run alone, membership in
 * every interleaving, a plugin's event on its way through a bridge to the client that takes it off its queue.
 */
module HubRuns {
  import opened Basics
  import opened HubMachine
  import opened HubDelivery
  import opened HubObjects
  import opened HubTopics

  ghost predicate LockFree(s: State) {
    s.writer == None && s.readers == {}
  }

  /** Nothing is left of the operation but what it did: the goroutine is idle, and the lock is free. */
  ghost predicate AtRest(s: State, t: Tid) {
    PC(s, t) == Idle && LockFree(s)
  }

  ghost predicate OthersUntouched(s: State, e: State, c: ClientId) {
    forall d | d != c :: (d in e.objects <==> d in s.objects) && (d in s.objects ==> e.objects[d] == s.objects[d])
  }

  // ---------------------------------------------------------------- registering and unregistering

  lemma {:induction false} OneLast(s: State, run: seq<Action>, a: Action)
    requires Possible(s, run) && Enabled(After(s, run), a)
    ensures Possible(s, run + [a]) && After(s, run + [a]) == Apply(After(s, run), a)
  {
    RunOne(After(s, run), a);
    RunInParts(s, run, [a]);
  }

  function RegisterActions(t: Tid, c: ClientId): seq<Action> {
    [StartRegister(t, c)] + [Step(t)] + [Step(t)] + [Step(t)]
  }

  /** Register run alone: the new client is in the hub, open, with an empty queue and no topics. */
  lemma RegisterAlone(s: State, t: Tid, c: ClientId)
    requires Safe(s) && LockFree(s) && PC(s, t) == Idle && t !in s.bridges && c !in s.objects
    ensures Possible(s, RegisterActions(t, c))
    ensures var e := After(s, RegisterActions(t, c));
            && e.clients == s.clients + {c} && c in e.objects
            && e.objects[c].queue == [] && e.objects[c].topics == {} && !e.objects[c].closed
            && e.objects[c].consumed == [] && e.objects[c].log == []
            && OthersUntouched(s, e, c) && AtRest(e, t)
            && e.bridges == s.bridges && e.plugins == s.plugins && e.published == s.published
  {
    var s1 := Apply(s, StartRegister(t, c));
    assert PC(s1, t) == RegisterWaiting(c);
    var s2 := Apply(s1, Step(t));
    assert PC(s2, t) == RegisterLocked(c);
    var s3 := Apply(s2, Step(t));
    assert PC(s3, t) == RegisterInserted(c);
    RunOne(s, StartRegister(t, c));
    OneLast(s, [StartRegister(t, c)], Step(t));
    OneLast(s, [StartRegister(t, c)] + [Step(t)], Step(t));
    OneLast(s, [StartRegister(t, c)] + [Step(t)] + [Step(t)], Step(t));
  }

  function UnregisterActions(t: Tid, c: ClientId, member: bool): seq<Action> {
    [StartUnregister(t, c)] + [Step(t)] + [Step(t)] + [Step(t)] + if member then [Step(t)] else []
  }

  /** Unregister run alone: a member is taken out of the hub and its channel closed; of anybody else nothing changes. */
  lemma UnregisterAlone(s: State, t: Tid, c: ClientId)
    requires Safe(s) && LockFree(s) && PC(s, t) == Idle && t !in s.bridges
    requires c in s.objects && !s.objects[c].life.Registering?
    ensures Possible(s, UnregisterActions(t, c, c in s.clients))
    ensures var e := After(s, UnregisterActions(t, c, c in s.clients));
            && e.clients == s.clients - {c} && c in e.objects
            && e.objects[c].closed == (s.objects[c].closed || c in s.clients)
            && e.objects[c].queue == s.objects[c].queue && e.objects[c].topics == s.objects[c].topics
            && OthersUntouched(s, e, c) && AtRest(e, t)
  {
    UnregisterDeletes(s, t, c);
    var deleted := After(s, [StartUnregister(t, c)] + [Step(t)] + [Step(t)]);
    var unlocked := Apply(deleted, Step(t));
    var most := [StartUnregister(t, c)] + [Step(t)] + [Step(t)] + [Step(t)];
    OneLast(s, [StartUnregister(t, c)] + [Step(t)] + [Step(t)], Step(t));
    if c in s.clients {
      assert PC(unlocked, t) == UnregisterClosing(c) && unlocked.objects == deleted.objects;
      OneLast(s, most, Step(t));
    } else {
      assert most + [] == most;
    }
  }

  lemma UnregisterDeletes(s: State, t: Tid, c: ClientId)
    requires Safe(s) && LockFree(s) && PC(s, t) == Idle && t !in s.bridges
    requires c in s.objects && !s.objects[c].life.Registering?
    ensures var run := [StartUnregister(t, c)] + [Step(t)] + [Step(t)];
            && Possible(s, run)
            && var e := After(s, run);
            && PC(e, t) == UnregisterDeleted(c, c in s.clients) && e.clients == s.clients - {c}
            && c in e.objects && e.readers == {} && OthersUntouched(s, e, c)
            && (exists life :: e.objects[c] == s.objects[c].(life := life))
  {
    var s1 := Apply(s, StartUnregister(t, c));
    assert PC(s1, t) == UnregisterWaiting(c);
    var s2 := Apply(s1, Step(t));
    assert PC(s2, t) == UnregisterLocked(c) && s2.objects == s.objects && s2.clients == s.clients;
    var s3 := Apply(s2, Step(t));
    assert PC(s3, t) == UnregisterDeleted(c, c in s.clients);
    assert s3.objects[c] == s.objects[c].(life := s3.objects[c].life);
    RunOne(s, StartUnregister(t, c));
    OneLast(s, [StartUnregister(t, c)], Step(t));
    OneLast(s, [StartUnregister(t, c)] + [Step(t)], Step(t));
  }

  // ---------------------------------------------------------------- membership in every interleaving

  predicate Joining(s: State, t: Tid, c: ClientId) {
    PC(s, t) == RegisterWaiting(c) || PC(s, t) == RegisterLocked(c)
  }

  predicate Leaving(pc: Thread, c: ClientId) {
    (pc.UnregisterWaiting? || pc.UnregisterLocked? || pc.UnregisterDeleted? || pc.UnregisterClosing?) && pc.c == c
  }

  /** The client is in the hub, or on its way into it. */
  ghost predicate Present(s: State, c: ClientId) {
    && (c in s.objects ==> c in s.clients || exists t :: Joining(s, t, c))
    && (forall t: Tid :: !Leaving(PC(s, t), c))
  }

  predicate StartsLeaving(a: Action, c: ClientId) {
    a.StartUnregister? && a.c == c
  }

  /** Nobody else moves; this goroutine neither leaves with the client nor gives up joining it. */
  lemma MovedStaysPresent(s: State, s': State, t: Tid, c: ClientId)
    requires Present(s, c) && (forall u: Tid | u != t :: PC(s', u) == PC(s, u)) && !Leaving(PC(s', t), c)
    requires c in s.clients ==> c in s'.clients
    requires c in s'.objects && c !in s.objects ==> Joining(s', t, c)
    requires Joining(s, t, c) ==> Joining(s', t, c) || c in s'.clients
    ensures Present(s', c)
  {
    if c in s'.objects && c !in s'.clients {
      if c in s.objects {
        var u :| Joining(s, u, c);
        assert Joining(s', u, c);
      }
    }
  }

  lemma StillStaysPresent(s: State, s': State, c: ClientId)
    requires Present(s, c) && s'.threads == s.threads && s'.clients == s.clients && s'.objects.Keys == s.objects.Keys
    ensures Present(s', c)
  {
    assert forall u: Tid :: PC(s', u) == PC(s, u);
    MovedStaysPresent(s, s', 0, c);
  }

  lemma StepStaysPresent(s: State, t: Tid, c: ClientId)
    requires Present(s, c) && StepEnabled(s, t)
    ensures Present(ApplyStep(s, t), c)
  {
    var pc, s' := PC(s, t), ApplyStep(s, t);
    assert !Leaving(pc, c);
    OnlyOneMoves(s, t);
    if pc.RegisterWaiting? || pc.RegisterLocked? || pc.RegisterInserted? {
      RegisterStepStays(s, t, c);
    } else if pc.UnregisterWaiting? || pc.UnregisterLocked? || pc.UnregisterDeleted? || pc.UnregisterClosing? {
      UnregisterStepStays(s, t, c);
    } else {
      PublishStepStays(s, t, c);
    }
    MovedStaysPresent(s, s', t, c);
  }

  lemma OnlyOneMoves(s: State, t: Tid)
    requires StepEnabled(s, t)
    ensures forall u: Tid | u != t :: PC(ApplyStep(s, t), u) == PC(s, u)
  {
    if !Offering(s, t) {
      OtherStepsKeepPending(s, t);
    } else if PC(s, t).PublishChosen? {
      FilterOffers(s, t);
    } else {
      SendOffers(s, t);
    }
  }

  lemma RegisterStepStays(s: State, t: Tid, c: ClientId)
    requires StepEnabled(s, t) && (PC(s, t).RegisterWaiting? || PC(s, t).RegisterLocked? || PC(s, t).RegisterInserted?)
    ensures var s' := ApplyStep(s, t);
            && !Leaving(PC(s', t), c) && s.clients <= s'.clients && s'.objects.Keys == s.objects.Keys
            && (Joining(s, t, c) ==> Joining(s', t, c) || c in s'.clients)
  {
  }

  lemma UnregisterStepStays(s: State, t: Tid, c: ClientId)
    requires StepEnabled(s, t) && !Leaving(PC(s, t), c)
    requires PC(s, t).UnregisterWaiting? || PC(s, t).UnregisterLocked? || PC(s, t).UnregisterDeleted?
             || PC(s, t).UnregisterClosing?
    ensures var s' := ApplyStep(s, t);
            && !Leaving(PC(s', t), c) && (c in s.clients ==> c in s'.clients) && s'.objects.Keys == s.objects.Keys
  {
  }

  lemma PublishStepStays(s: State, t: Tid, c: ClientId)
    requires StepEnabled(s, t)
    requires PC(s, t).PublishWaiting? || HoldsRead(PC(s, t))
    ensures var s' := ApplyStep(s, t);
            !Leaving(PC(s', t), c) && s'.clients == s.clients && s'.objects.Keys == s.objects.Keys
  {
    if PC(s, t).PublishSending? {
      SendStays(s, t, c);
    } else if PC(s, t).PublishChosen? {
      TestStays(s, t, c);
    }
  }

  lemma SendStays(s: State, t: Tid, c: ClientId)
    requires StepEnabled(s, t) && PC(s, t).PublishSending?
    ensures var s' := ApplyStep(s, t);
            !Leaving(PC(s', t), c) && s'.clients == s.clients && s'.objects.Keys == s.objects.Keys
  {
  }

  lemma TestStays(s: State, t: Tid, c: ClientId)
    requires StepEnabled(s, t) && PC(s, t).PublishChosen?
    ensures var s' := ApplyStep(s, t);
            !Leaving(PC(s', t), c) && s'.clients == s.clients && s'.objects.Keys == s.objects.Keys
  {
  }

  lemma ActionStaysPresent(s: State, a: Action, c: ClientId)
    requires Present(s, c) && Enabled(s, a) && !StartsLeaving(a, c)
    ensures Present(Apply(s, a), c)
  {
    var s' := Apply(s, a);
    match a
    case Step(t) => StepStaysPresent(s, t, c);
    case StartRegister(t, d) =>
      assert d == c ==> PC(s', t) == RegisterWaiting(c);
      MovedStaysPresent(s, s', t, c);
    case StartUnregister(t, _) => MovedStaysPresent(s, s', t, c);
    case StartPublish(t, _, _) => MovedStaysPresent(s, s', t, c);
    case Choose(t, _) => MovedStaysPresent(s, s', t, c);
    case StartBridge(t, _) => MovedStaysPresent(s, s', t, c);
    case BridgeTake(t, _) => MovedStaysPresent(s, s', t, c);
    case BridgeStop(t) => MovedStaysPresent(s, s', t, c);
    case _ => StillStaysPresent(s, s', c);
  }

  lemma {:induction false} RunStaysPresent(s: State, run: seq<Action>, c: ClientId)
    requires Present(s, c) && Possible(s, run) && forall a | a in run :: !StartsLeaving(a, c)
    ensures Present(After(s, run), c)
    decreases |run|
  {
    if run != [] {
      ActionStaysPresent(s, run[0], c);
      RunStaysPresent(Apply(s, run[0]), run[1..], c);
    }
  }

  /**
   * In every interleaving: a client is in the hub from the time its Register has come past the insertion
   * for as long as nobody calls Unregister for it.
   */
  lemma RegisteredIsMember(run: seq<Action>, c: ClientId)
    requires Possible(INITIAL, run) && forall a | a in run :: !StartsLeaving(a, c)
    requires c in After(INITIAL, run).objects && forall t: Tid :: !Joining(After(INITIAL, run), t, c)
    ensures c in After(INITIAL, run).clients
  {
    RunStaysPresent(INITIAL, run, c);
  }

  // ---------------------------------------------------------------- bridges publish through the filter

  predicate FiltersIfPublishing(pc: Thread) {
    (pc.PublishWaiting? ==> pc.filter) && (HoldsRead(pc) ==> pc.p.filter)
  }

  ghost predicate BridgesFilter(s: State) {
    forall t | t in s.bridges :: FiltersIfPublishing(PC(s, t))
  }

  lemma StepKeepsFilter(s: State, t: Tid)
    requires StepEnabled(s, t) && FiltersIfPublishing(PC(s, t))
    ensures FiltersIfPublishing(PC(ApplyStep(s, t), t))
  {
    var pc := PC(s, t);
    if !Offering(s, t) {
      if pc.PublishChosen? {
        assert PC(ApplyStep(s, t), t) == PublishSending(pc.p, pc.c);
      } else if pc.PublishWaiting? {
        assert PC(ApplyStep(s, t), t) == PublishLooping(Publication(pc.event, pc.filter, s.clients, map[]));
      } else if !pc.PublishSending? {
        NotPublishing(s, t);
      }
    } else if pc.PublishChosen? {
      FilterOffers(s, t);
    } else {
      SendOffers(s, t);
    }
  }

  lemma StepKeepsBridgesFilter(s: State, t: Tid)
    requires BridgesFilter(s) && StepEnabled(s, t)
    ensures BridgesFilter(ApplyStep(s, t))
  {
    OnlyOneMoves(s, t);
    if !Offering(s, t) {
      OtherStepsLeaveBooks(s, t);
    } else if PC(s, t).PublishChosen? {
      FilterOffers(s, t);
    } else {
      SendOffers(s, t);
    }
    if t in s.bridges {
      StepKeepsFilter(s, t);
    }
  }

  lemma ActionKeepsBridgesFilter(s: State, a: Action)
    requires BridgesFilter(s) && Enabled(s, a)
    ensures BridgesFilter(Apply(s, a))
  {
    if a.Step? {
      StepKeepsBridgesFilter(s, a.t);
    } else if a.BridgeTake? {
      TakenFilters(s, a.t, a.marshalled);
    } else {
      OthersKeepBridgesFilter(s, a);
    }
  }

  lemma TakenFilters(s: State, t: Tid, marshalled: bool)
    requires BridgesFilter(s) && Enabled(s, BridgeTake(t, marshalled))
    ensures BridgesFilter(Apply(s, BridgeTake(t, marshalled)))
  {
    var s' := Apply(s, BridgeTake(t, marshalled));
    assert forall u: Tid | u != t :: PC(s', u) == PC(s, u);
  }

  lemma OthersKeepBridgesFilter(s: State, a: Action)
    requires BridgesFilter(s) && Enabled(s, a) && !a.Step? && !a.BridgeTake?
    ensures BridgesFilter(Apply(s, a))
  {
  }

  lemma {:induction false} RunKeepsBridgesFilter(s: State, run: seq<Action>)
    requires BridgesFilter(s) && Possible(s, run)
    ensures BridgesFilter(After(s, run))
    decreases |run|
  {
    if run != [] {
      ActionKeepsBridgesFilter(s, run[0]);
      RunKeepsBridgesFilter(Apply(s, run[0]), run[1..]);
    }
  }

  /** In every reachable state, a bridge that is publishing does so through the topic filter. */
  lemma BridgesPublishFiltered(run: seq<Action>, t: Tid)
    requires Possible(INITIAL, run) && t in After(INITIAL, run).bridges
    ensures var pc := PC(After(INITIAL, run), t);
            (pc.PublishWaiting? ==> pc.filter) && (HoldsRead(pc) ==> pc.p.filter)
  {
    RunKeepsBridgesFilter(INITIAL, run);
  }

  /**
   * Once a client has topics, a step of a plugin's bridge changes the client's queue only with an event of
   * one of them, unless the bridge has stood at this very send since before.
   */
  lemma BridgedEventsAreWanted(before: seq<Action>, run: seq<Action>, t: Tid, c: ClientId)
    requires Possible(INITIAL, before) && Possible(After(INITIAL, before), run)
    requires c in After(INITIAL, before).objects && After(INITIAL, before).objects[c].topics != {}
    requires var s := After(After(INITIAL, before), run);
             && t in s.bridges && StepEnabled(s, t) && c in s.objects
             && ApplyStep(s, t).objects[c].queue != s.objects[c].queue
    ensures var s0, s := After(INITIAL, before), After(After(INITIAL, before), run);
            && PC(s, t).PublishSending?
            && (PC(s, t).p.event.topic in s.objects[c].topics || PC(s0, t) == PC(s, t))
  {
    RunInParts(INITIAL, before, run);
    BridgesPublishFiltered(before + run, t);
    OnlyWantedEventsArrive(After(INITIAL, before), run, t, c);
  }

  // ---------------------------------------------------------------- a bridge run alone

  /** What a bridge does with the next event of its plugin, when it meets the clients in this order. */
  function BridgeActions(s: State, t: Tid, event: Event, order: seq<ClientId>): seq<Action>
    requires forall c | c in order :: c in s.objects
  {
    [BridgeTake(t, true), Step(t)] + LoopActions(s, t, Publication(event, true, s.clients, map[]), order) + [Step(t)]
  }

  lemma BridgeBegins(s: State, t: Tid, event: Event, order: seq<ClientId>)
    requires Safe(s) && PC(s, t) == Idle && t in s.bridges && s.writer == None
    requires var ch := ChannelOf(s, s.bridges[t]); ch.taken < |ch.emitted| && ch.emitted[ch.taken] == event
    requires forall i, j | 0 <= i < j < |order| :: order[i] != order[j]
    requires forall c :: c in order <==> c in s.clients
    ensures var begin := [BridgeTake(t, true), Step(t)];
            && Possible(s, begin) && After(s, begin).objects == s.objects
            && LoopingAlone(s, After(s, begin), t, Publication(event, true, s.clients, map[]), order)
  {
    var waiting := Apply(s, BridgeTake(t, true));
    assert PC(waiting, t) == PublishWaiting(event, true);
    var looping := ApplyStep(waiting, t);
    assert PC(looping, t) == PublishLooping(Publication(event, true, s.clients, map[]));
    RunTwo(s, BridgeTake(t, true), Step(t));
  }

  /**
   * Run alone, from any safe state with the lock free of a writer: a bridge takes the next event off its
   * plugin's channel and offers it, through the topic filter, to every client of the hub.
   */
  lemma BridgeAlone(s: State, t: Tid, event: Event, order: seq<ClientId>)
    requires Safe(s) && PC(s, t) == Idle && t in s.bridges && s.writer == None
    requires var ch := ChannelOf(s, s.bridges[t]); ch.taken < |ch.emitted| && ch.emitted[ch.taken] == event
    requires forall i, j | 0 <= i < j < |order| :: order[i] != order[j]
    requires forall c :: c in order <==> c in s.clients
    ensures var run := BridgeActions(s, t, event, order);
            && Possible(s, run)
            && PC(After(s, run), t) == Idle && t !in After(s, run).readers && After(s, run).clients == s.clients
            && QueuesOffered(s, After(s, run), Message(t, event), true, order)
            && OneTaken(s, After(s, run), s.bridges[t])
  {
    var p := Publication(event, true, s.clients, map[]);
    var begin, loop := [BridgeTake(t, true), Step(t)], LoopActions(s, t, p, order);
    BridgeBegins(s, t, event, order);
    var looping := After(s, begin);
    LoopAlone(s, looping, t, p, order);
    var settled := After(looping, loop);
    EndAlone(s, settled, t, p);
    RunInParts(s, begin, loop);
    RunInParts(s, begin + loop, [Step(t)]);
    RunKeepsSafe(s, begin + loop + [Step(t)]);
    BridgeThenSteps(s, t, event, order);
    TakesOne(s, t, begin + loop + [Step(t)]);
  }

  /** Exactly one event is gone from the channel of this plugin. */
  ghost predicate OneTaken(s: State, e: State, p: PluginId) {
    && ChannelOf(e, p).taken == ChannelOf(s, p).taken + 1 && ChannelOf(e, p).emitted == ChannelOf(s, p).emitted
    && forall q: PluginId | q != p :: ChannelOf(e, q) == ChannelOf(s, q)
  }

  /** A bridge takes an event only at the beginning. */
  lemma BridgeThenSteps(s: State, t: Tid, event: Event, order: seq<ClientId>)
    requires forall c | c in order :: c in s.objects
    ensures var run := BridgeActions(s, t, event, order);
            run[0] == BridgeTake(t, true) && forall a | a in run[1..] :: a.Step? || a.Choose?
  {
    var p := Publication(event, true, s.clients, map[]);
    LoopOnlySteps(s, t, p, order);
    assert BridgeActions(s, t, event, order)[1..] == [Step(t)] + LoopActions(s, t, p, order) + [Step(t)];
  }

  lemma TakesOne(s: State, t: Tid, run: seq<Action>)
    requires Possible(s, run) && run != [] && run[0] == BridgeTake(t, true)
    requires forall a | a in run[1..] :: a.Step? || a.Choose?
    ensures OneTaken(s, After(s, run), s.bridges[t])
  {
    StepsLeavePlugins(Apply(s, run[0]), run[1..]);
  }

  /** An event that cannot be marshalled is taken off the channel and lost. */
  lemma UnmarshalledIsLost(s: State, t: Tid)
    requires Enabled(s, BridgeTake(t, false))
    ensures var e := Apply(s, BridgeTake(t, false));
            OneTaken(s, e, s.bridges[t]) && e == s.(plugins := e.plugins)
  {
  }

  lemma {:induction false} LoopOnlySteps(s: State, t: Tid, p: Publication, order: seq<ClientId>)
    requires forall c | c in order :: c in s.objects
    ensures forall a | a in LoopActions(s, t, p, order) :: a.Step? || a.Choose?
  {
    if order != [] {
      LoopOnlySteps(s, t, p, order[1..]);
    }
  }

  lemma {:induction false} StepsLeavePlugins(s: State, run: seq<Action>)
    requires Possible(s, run) && forall a | a in run :: a.Step? || a.Choose?
    ensures After(s, run).plugins == s.plugins
    decreases |run|
  {
    if run != [] {
      assert run[0] in run;
      StepsLeavePlugins(Apply(s, run[0]), run[1..]);
    }
  }

  // ---------------------------------------------------------------- subscribing and consuming

  function SubscribeActions(c: ClientId, topics: seq<string>): seq<Action> {
    if topics == [] then [] else SubscribeActions(c, topics[..|topics| - 1]) + [Subscribe(c, topics[|topics| - 1])]
  }

  /** Subscribing to a list of topics adds exactly these topics. */
  lemma {:induction false} SubscribeAlone(s: State, c: ClientId, topics: seq<string>)
    requires c in s.objects && !s.objects[c].life.Registering?
    ensures Possible(s, SubscribeActions(c, topics))
    ensures var e := After(s, SubscribeActions(c, topics));
            && c in e.objects && e.objects[c].topics == s.objects[c].topics + (set t | t in topics)
            && e.objects[c].queue == s.objects[c].queue && e.objects[c].life == s.objects[c].life
  {
    if topics != [] {
      var front, last := topics[..|topics| - 1], topics[|topics| - 1];
      SubscribeAlone(s, c, front);
      OneLast(s, SubscribeActions(c, front), Subscribe(c, last));
      assert topics == front + [last];
    }
  }

  function ConsumeActions(c: ClientId, n: nat): seq<Action> {
    if n == 0 then [] else [Consume(c)] + ConsumeActions(c, n - 1)
  }

  /** A write pump that takes everything off the queue takes it in order. */
  lemma {:induction false} DrainAlone(s: State, c: ClientId)
    requires c in s.objects
    ensures Possible(s, ConsumeActions(c, |s.objects[c].queue|))
    ensures var e := After(s, ConsumeActions(c, |s.objects[c].queue|));
            && c in e.objects && e.objects[c].queue == []
            && e.objects[c].consumed == s.objects[c].consumed + s.objects[c].queue
    decreases |if c in s.objects then s.objects[c].queue else []|
  {
    var o := s.objects[c];
    if o.queue != [] {
      var rest := ConsumeActions(c, |o.queue| - 1);
      var next := Apply(s, Consume(c));
      DrainAlone(next, c);
      assert ([Consume(c)] + rest)[1..] == rest;
      assert [o.queue[0]] + o.queue[1..] == o.queue;
    }
  }

  /** A plugin's channel takes events as long as fewer than 100 are waiting, in every reachable state. */
  lemma PluginChannelIsBounded(run: seq<Action>, p: PluginId, event: Event)
    requires Possible(INITIAL, run)
    ensures var s := After(INITIAL, run);
            var ch := ChannelOf(s, p);
            && ch.taken <= |ch.emitted| <= ch.taken + 100
            && (Enabled(s, Emit(p, event)) <==> |ch.emitted| - ch.taken < 100)
            && (Enabled(s, Emit(p, event)) ==>
                  ChannelOf(Apply(s, Emit(p, event)), p) == Channel(ch.emitted + [event], ch.taken))
  {
    RunKeepsBridges(INITIAL, run);
  }

  // ---------------------------------------------------------------- an event on its whole way

  /** A client registers, a plugin puts an event on its channel and gets its bridge. */
  lemma UpToTheBridge(plugin: PluginId, event: Event) returns (run: seq<Action>)
    ensures Possible(INITIAL, run)
    ensures var s := After(INITIAL, run);
            && s.clients == {0} && 0 in s.objects && s.objects[0].queue == [] && s.objects[0].consumed == []
            && s.objects[0].topics == {} && AtRest(s, 1) && 1 in s.bridges && s.bridges[1] == plugin
            && ChannelOf(s, plugin) == Channel([event], 0)
  {
    RegisterAlone(INITIAL, 0, 0);
    var registered := After(INITIAL, RegisterActions(0, 0));
    RunKeepsSafe(INITIAL, RegisterActions(0, 0));
    RegistrationMovesNoOther(INITIAL, RegisterActions(0, 0), 0, 1);
    assert PC(registered, 1) == Idle;
    run := EmitAndBridge(RegisterActions(0, 0), plugin, event);
  }

  lemma EmitAndBridge(run: seq<Action>, plugin: PluginId, event: Event) returns (more: seq<Action>)
    requires Possible(INITIAL, run)
    requires var s := After(INITIAL, run);
             && PC(s, 1) == Idle && s.bridges == map[] && 1 !in s.published && s.plugins == map[]
    ensures Possible(INITIAL, more)
    ensures var s, e := After(INITIAL, run), After(INITIAL, more);
            && e == s.(bridges := map[1 := plugin], plugins := map[plugin := Channel([event], 0)])
  {
    var s := After(INITIAL, run);
    OneLast(INITIAL, run, Emit(plugin, event));
    more := run + [Emit(plugin, event)];
    assert ChannelOf(s, plugin) == Channel([], 0) && [] + [event] == [event];
    assert After(INITIAL, more).plugins == map[plugin := Channel([event], 0)];
    OneLast(INITIAL, more, StartBridge(1, plugin));
    more := more + [StartBridge(1, plugin)];
    var e := After(INITIAL, more);
    assert e.plugins == map[plugin := Channel([event], 0)] && e.bridges == map[1 := plugin];
  }

  /** A registration moves no other goroutine. */
  lemma {:induction false} RegistrationMovesNoOther(s: State, run: seq<Action>, t: Tid, u: Tid)
    requires Possible(s, run) && u != t && forall a | a in run :: a == Step(t) || (a.StartRegister? && a.t == t)
    ensures PC(After(s, run), u) == PC(s, u)
    decreases |run|
  {
    if run != [] {
      assert run[0] in run;
      if run[0].Step? {
        OnlyOneMoves(s, t);
      }
      RegistrationMovesNoOther(Apply(s, run[0]), run[1..], t, u);
    }
  }

  lemma StepLeavesConsumed(s: State, t: Tid, c: ClientId)
    requires StepEnabled(s, t) && c in s.objects
    ensures c in ApplyStep(s, t).objects && ApplyStep(s, t).objects[c].consumed == s.objects[c].consumed
  {
    if !Offering(s, t) {
      OtherStepsLeaveBooks(s, t);
    } else if PC(s, t).PublishChosen? {
      FilterOffers(s, t);
    } else {
      SendOffers(s, t);
    }
  }

  /** Only the client's own pump takes messages off its queue. */
  lemma {:induction false} RunLeavesConsumed(s: State, run: seq<Action>, c: ClientId)
    requires Possible(s, run) && c in s.objects && Consume(c) !in run
    ensures c in After(s, run).objects && After(s, run).objects[c].consumed == s.objects[c].consumed
    decreases |run|
  {
    if run != [] {
      if run[0].Step? {
        StepLeavesConsumed(s, run[0].t, c);
      } else if !run[0].Consume? {
        OtherActionsLeaveBooks(s, run[0]);
      }
      RunLeavesConsumed(Apply(s, run[0]), run[1..], c);
    }
  }

  lemma {:induction false} LoopConsumesNothing(s: State, t: Tid, p: Publication, order: seq<ClientId>)
    requires forall c | c in order :: c in s.objects
    ensures forall a | a in LoopActions(s, t, p, order) :: !a.Consume?
  {
    if order != [] {
      LoopConsumesNothing(s, t, p, order[1..]);
    }
  }

  lemma BridgingConsumesNothing(s: State, t: Tid, event: Event, order: seq<ClientId>)
    requires forall c | c in order :: c in s.objects
    ensures forall a | a in BridgeActions(s, t, event, order) :: !a.Consume?
  {
    LoopConsumesNothing(s, t, Publication(event, true, s.clients, map[]), order);
  }

  /** From the plugin's channel through the bridge and the queue: the client takes off exactly this event. */
  lemma PluginEventArrives(plugin: PluginId, event: Event) returns (run: seq<Action>)
    ensures Possible(INITIAL, run)
    ensures var s := After(INITIAL, run);
            && 0 in s.objects
            && s.objects[0].consumed == [Message(1, event)] && s.objects[0].queue == []
  {
    var begun := UpToTheBridge(plugin, event);
    var s := After(INITIAL, begun);
    RunKeepsSafe(INITIAL, begun);
    BridgeAlone(s, 1, event, [0]);
    var bridging := BridgeActions(s, 1, event, [0]);
    RunInParts(INITIAL, begun, bridging);
    var offered := After(s, bridging);
    assert offered.objects[0].queue == [Message(1, event)];
    BridgingConsumesNothing(s, 1, event, [0]);
    RunLeavesConsumed(s, bridging, 0);
    OneLast(INITIAL, begun + bridging, Consume(0));
    run := begun + bridging + [Consume(0)];
  }
}
