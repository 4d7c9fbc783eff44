/**
 * The event hub as a step machine: internal/stream/hub.go with the goroutines that call it, the
 * bridges of internal/plugin/manager.go and the pumps of internal/server/server.go. A step is one
 * lock, unlock, map operation, filter test, channel send, receive or close of one goroutine.
 */
module HubMachine {
  import opened Basics

  type Tid = nat
  type ClientId = nat
  type PluginId = string

  /** An event; the payload is opaque. */
  datatype Event = Event(kind: string, topic: string, source: string, payload: string)

  /** What is queued for a client. The origin is bookkeeping: no step of the program reads it. */
  datatype Message = Message(origin: Tid, event: Event)

  /** What became of a message at one client of the hub. */
  datatype Outcome = Filtered | Delivered | Dropped

  /** An entry of a client's history: the message, its outcome, and how full the queue was. */
  datatype Offer = Offer(message: Message, outcome: Outcome, depth: nat)

  /** Who is in charge of a client. Bookkeeping, except that Registering means not yet returned. */
  datatype Life = Registering(owner: Tid) | Live | Closing(owner: Tid) | Closed

  datatype Client = Client(
    topics: set<string>,
    queue: seq<Message>,
    closed: bool,
    onceDone: bool,
    life: Life,
    consumed: seq<Message>,
    log: seq<Offer>)

  /** A running Publish (filter) or Broadcast (no filter). */
  datatype Publication = Publication(
    event: Event, filter: bool, snapshot: set<ClientId>, outcomes: map<ClientId, Outcome>)

  /** Where a goroutine stands. */
  datatype Thread =
    | Idle
    | Stopped
    | RegisterWaiting(c: ClientId)
    | RegisterLocked(c: ClientId)
    | RegisterInserted(c: ClientId)
    | UnregisterWaiting(c: ClientId)
    | UnregisterLocked(c: ClientId)
    | UnregisterDeleted(c: ClientId, existed: bool)
    | UnregisterClosing(c: ClientId)
    | PublishWaiting(event: Event, filter: bool)
    | PublishLooping(p: Publication)
    | PublishChosen(p: Publication, c: ClientId)
    | PublishSending(p: Publication, c: ClientId)

  /** A plugin's channel: everything put on it, and how much of that the bridge has taken. */
  datatype Channel = Channel(emitted: seq<Event>, taken: nat)

  datatype State = State(
    clients: set<ClientId>,
    objects: map<ClientId, Client>,
    writer: Option<Tid>,
    readers: set<Tid>,
    threads: map<Tid, Thread>,
    plugins: map<PluginId, Channel>,
    bridges: map<Tid, PluginId>,
    published: map<Tid, seq<Event>>,
    panicked: bool)

  const CLIENT_BUFFER: nat := 256
  const PLUGIN_BUFFER: nat := 100

  const INITIAL := State(clients := {}, objects := map[], writer := None, readers := {}, threads := map[],
                         plugins := map[], bridges := map[], published := map[], panicked := false)

  function PC(s: State, t: Tid): Thread {
    if t in s.threads then s.threads[t] else Idle
  }

  function Published(s: State, t: Tid): seq<Event> {
    if t in s.published then s.published[t] else []
  }

  function ChannelOf(s: State, p: PluginId): Channel {
    if p in s.plugins then s.plugins[p] else Channel([], 0)
  }

  /** Client.subscribedTo */
  predicate SubscribedTo(topics: set<string>, topic: string) {
    topics == {} || topic in topics
  }

  /** The non-blocking send of the hub: the queue afterwards, and what became of the message. */
  function TrySend(queue: seq<Message>, m: Message): (seq<Message>, Outcome) {
    if |queue| < CLIENT_BUFFER then (queue + [m], Delivered) else (queue, Dropped)
  }

  datatype Action =
    | StartRegister(t: Tid, c: ClientId)
    | StartUnregister(t: Tid, c: ClientId)
    | StartPublish(t: Tid, event: Event, filter: bool)
    | Step(t: Tid)
    | Choose(t: Tid, c: ClientId)
    | Subscribe(c: ClientId, topic: string)
    | Consume(c: ClientId)
    | Emit(plugin: PluginId, event: Event)
    | StartBridge(t: Tid, plugin: PluginId)
    | BridgeTake(t: Tid, marshalled: bool)
    | BridgeStop(t: Tid)

  predicate Enabled(s: State, a: Action) {
    match a
    case StartRegister(t, c) => PC(s, t) == Idle && t !in s.bridges && c !in s.objects
    case StartUnregister(t, c) =>
      PC(s, t) == Idle && t !in s.bridges && c in s.objects && !s.objects[c].life.Registering?
    case StartPublish(t, _, _) => PC(s, t) == Idle && t !in s.bridges
    case Step(t) => StepEnabled(s, t)
    case Choose(t, c) =>
      PC(s, t).PublishLooping? && c in s.clients && c !in PC(s, t).p.outcomes
    case Subscribe(c, _) => c in s.objects && !s.objects[c].life.Registering?
    case Consume(c) => c in s.objects && s.objects[c].queue != []
    case Emit(p, _) => |ChannelOf(s, p).emitted| < ChannelOf(s, p).taken + PLUGIN_BUFFER
    case StartBridge(t, p) =>
      PC(s, t) == Idle && t !in s.bridges && t !in s.published && p !in s.bridges.Values
    case BridgeTake(t, _) =>
      t in s.bridges && PC(s, t) == Idle && ChannelOf(s, s.bridges[t]).taken < |ChannelOf(s, s.bridges[t]).emitted|
    case BridgeStop(t) => t in s.bridges && PC(s, t) == Idle
  }

  /** The write lock needs the lock free, the read lock needs no writer; a loop ends when all clients were visited. */
  predicate StepEnabled(s: State, t: Tid) {
    match PC(s, t)
    case Idle | Stopped => false
    case RegisterWaiting(_) | UnregisterWaiting(_) => s.writer == None && s.readers == {}
    case PublishWaiting(_, _) => s.writer == None
    case PublishLooping(p) => s.clients <= p.outcomes.Keys
    case RegisterLocked(c) => c in s.objects
    case UnregisterLocked(c) => c in s.objects
    case UnregisterClosing(c) => c in s.objects
    case PublishChosen(_, c) => c in s.objects
    case PublishSending(_, c) => c in s.objects
    case _ => true
  }

  function At(s: State, t: Tid, pc: Thread): State {
    s.(threads := s.threads[t := pc])
  }

  function Put(s: State, c: ClientId, client: Client): State {
    s.(objects := s.objects[c := client])
  }

  /** The channel close of Unregister, guarded by the client's sync.Once. */
  function CloseOnce(s: State, c: ClientId): State
    requires c in s.objects
  {
    var o := s.objects[c];
    if o.onceDone then s
    else Put(s, c, o.(onceDone := true, closed := true, life := Closed)).(panicked := s.panicked || o.closed)
  }

  /** The client's history and the loop's table get the outcome of one offer. */
  function Settle(s: State, t: Tid, p: Publication, c: ClientId, client: Client, outcome: Outcome): State {
    var offer := Offer(Message(t, p.event), outcome, |client.queue|);
    At(Put(s, c, client.(log := client.log + [offer])), t, PublishLooping(p.(outcomes := p.outcomes[c := outcome])))
  }

  /** The select with a send on the client's channel; sending on a closed channel panics. */
  function Send(s: State, t: Tid, p: Publication, c: ClientId): State
    requires c in s.objects
  {
    var o := s.objects[c];
    var (queue, outcome) := TrySend(o.queue, Message(t, p.event));
    if o.closed then s.(panicked := true)
    else
      var settled := Settle(s, t, p, c, o, outcome);
      Put(settled, c, settled.objects[c].(queue := queue))
  }

  function ApplyStep(s: State, t: Tid): State
    requires StepEnabled(s, t)
  {
    match PC(s, t)
    case RegisterWaiting(c) => At(s.(writer := Some(t)), t, RegisterLocked(c))
    case RegisterLocked(c) =>
      At(Put(s, c, s.objects[c].(life := Live)).(clients := s.clients + {c}), t, RegisterInserted(c))
    case RegisterInserted(_) => At(s.(writer := None), t, Idle)
    case UnregisterWaiting(c) => At(s.(writer := Some(t)), t, UnregisterLocked(c))
    case UnregisterLocked(c) =>
      var existed := c in s.clients;
      At((if existed then Put(s, c, s.objects[c].(life := Closing(t))) else s).(clients := s.clients - {c}),
         t, UnregisterDeleted(c, existed))
    case UnregisterDeleted(c, existed) =>
      At(s.(writer := None), t, if existed then UnregisterClosing(c) else Idle)
    case UnregisterClosing(c) => At(CloseOnce(s, c), t, Idle)
    case PublishWaiting(event, filter) =>
      At(s.(readers := s.readers + {t}), t, PublishLooping(Publication(event, filter, s.clients, map[])))
    case PublishLooping(_) => At(s.(readers := s.readers - {t}), t, Idle)
    case PublishChosen(p, c) =>
      if p.filter && !SubscribedTo(s.objects[c].topics, p.event.topic)
      then Settle(s, t, p, c, s.objects[c], Filtered)
      else At(s, t, PublishSending(p, c))
    case PublishSending(p, c) => Send(s, t, p, c)
  }

  function Apply(s: State, a: Action): State
    requires Enabled(s, a)
  {
    match a
    case StartRegister(t, c) =>
      At(Put(s, c, Client({}, [], false, false, Registering(t), [], [])), t, RegisterWaiting(c))
    case StartUnregister(t, c) => At(s, t, UnregisterWaiting(c))
    case StartPublish(t, event, filter) =>
      At(s.(published := s.published[t := Published(s, t) + [event]]), t, PublishWaiting(event, filter))
    case Step(t) => ApplyStep(s, t)
    case Choose(t, c) => At(s, t, PublishChosen(PC(s, t).p, c))
    case Subscribe(c, topic) => Put(s, c, s.objects[c].(topics := s.objects[c].topics + {topic}))
    case Consume(c) =>
      var o := s.objects[c];
      Put(s, c, o.(queue := o.queue[1..], consumed := o.consumed + [o.queue[0]]))
    case Emit(p, event) =>
      var ch := ChannelOf(s, p);
      s.(plugins := s.plugins[p := ch.(emitted := ch.emitted + [event])])
    case StartBridge(t, p) => s.(bridges := s.bridges[t := p])
    case BridgeTake(t, marshalled) =>
      var ch := ChannelOf(s, s.bridges[t]);
      var event := ch.emitted[ch.taken];
      var taken := s.(plugins := s.plugins[s.bridges[t] := ch.(taken := ch.taken + 1)]);
      if marshalled
      then At(taken.(published := s.published[t := Published(s, t) + [event]]), t, PublishWaiting(event, true))
      else taken
    case BridgeStop(t) => At(s, t, Stopped)
  }

  /** A run: actions, each enabled where it happens. */
  predicate Possible(s: State, run: seq<Action>)
    decreases |run|
  {
    run == [] || (Enabled(s, run[0]) && Possible(Apply(s, run[0]), run[1..]))
  }

  function After(s: State, run: seq<Action>): State
    requires Possible(s, run)
    decreases |run|
  {
    if run == [] then s else After(Apply(s, run[0]), run[1..])
  }

  // ---------------------------------------------------------------- close safety

  predicate HoldsWrite(pc: Thread) {
    pc.RegisterLocked? || pc.RegisterInserted? || pc.UnregisterLocked? || pc.UnregisterDeleted?
  }

  predicate HoldsRead(pc: Thread) {
    pc.PublishLooping? || pc.PublishChosen? || pc.PublishSending?
  }

  /** The lock agrees with the goroutines, and is held by readers or by one writer. */
  ghost predicate Locks(s: State) {
    && (forall t: Tid :: HoldsWrite(PC(s, t)) <==> s.writer == Some(t))
    && (forall t: Tid :: HoldsRead(PC(s, t)) <==> t in s.readers)
    && (s.writer.Some? ==> s.readers == {})
  }

  /** Membership in the hub, the closed channel and the Once agree with the client's life. */
  ghost predicate ClientsAgree(s: State) {
    && s.clients <= s.objects.Keys
    && forall c | c in s.objects ::
         && (c in s.clients <==> s.objects[c].life == Live)
         && (s.objects[c].closed <==> s.objects[c].life == Closed)
         && (s.objects[c].onceDone <==> s.objects[c].life == Closed)
  }

  /** What a goroutine may rely on where it stands; a publishing loop still sees the clients it saw first. */
  ghost predicate Relies(s: State, t: Tid) {
    match PC(s, t)
    case RegisterWaiting(c) => c in s.objects && s.objects[c].life == Registering(t)
    case RegisterLocked(c) => c in s.objects && s.objects[c].life == Registering(t)
    case UnregisterWaiting(c) => c in s.objects && !s.objects[c].life.Registering?
    case UnregisterLocked(c) => c in s.objects && !s.objects[c].life.Registering?
    case UnregisterDeleted(c, existed) => existed ==> c in s.objects && s.objects[c].life == Closing(t)
    case UnregisterClosing(c) => c in s.objects && s.objects[c].life == Closing(t)
    case PublishLooping(p) => p.snapshot == s.clients && p.outcomes.Keys <= s.clients
    case PublishChosen(p, c) =>
      p.snapshot == s.clients && p.outcomes.Keys <= s.clients && c in s.clients - p.outcomes.Keys
    case PublishSending(p, c) =>
      p.snapshot == s.clients && p.outcomes.Keys <= s.clients && c in s.clients - p.outcomes.Keys
    case _ => true
  }

  ghost predicate Safe(s: State) {
    && !s.panicked
    && Locks(s)
    && ClientsAgree(s)
    && (forall t: Tid :: Relies(s, t))
  }

  /** Nothing that the safety invariant looks at changes, but for one goroutine and new clients. */
  ghost predicate Quiet(s: State, s': State, t: Tid) {
    && s'.clients == s.clients && s'.writer == s.writer && s'.readers == s.readers && s'.panicked == s.panicked
    && s.objects.Keys <= s'.objects.Keys
    && (forall c | c in s.objects ::
          && s'.objects[c].life == s.objects[c].life
          && s'.objects[c].closed == s.objects[c].closed
          && s'.objects[c].onceDone == s.objects[c].onceDone)
    && (forall c | c in s'.objects && c !in s.objects ::
          s'.objects[c].life.Registering? && !s'.objects[c].closed && !s'.objects[c].onceDone)
    && (forall u: Tid | u != t :: PC(s', u) == PC(s, u))
    && (HoldsWrite(PC(s', t)) <==> HoldsWrite(PC(s, t)))
    && (HoldsRead(PC(s', t)) <==> HoldsRead(PC(s, t)))
  }

  lemma QuietKeepsSafe(s: State, s': State, t: Tid)
    requires Safe(s) && Quiet(s, s', t) && Relies(s', t)
    ensures Safe(s')
  {
    forall u: Tid ensures Relies(s', u) {
      assert Relies(s, u);
    }
  }

  lemma LockStepKeepsSafe(s: State, t: Tid)
    requires Safe(s) && StepEnabled(s, t)
    requires PC(s, t).RegisterWaiting? || PC(s, t).UnregisterWaiting? || PC(s, t).PublishWaiting?
    ensures Safe(ApplyStep(s, t))
  {
    var s' := ApplyStep(s, t);
    assert forall u: Tid | u != t :: PC(s', u) == PC(s, u);
    forall u: Tid ensures Relies(s', u) {
      assert Relies(s, t) && Relies(s, u);
    }
  }

  lemma UnlockStepKeepsSafe(s: State, t: Tid)
    requires Safe(s) && StepEnabled(s, t)
    requires PC(s, t).RegisterInserted? || PC(s, t).UnregisterDeleted? || PC(s, t).PublishLooping?
    ensures Safe(ApplyStep(s, t))
  {
    var s' := ApplyStep(s, t);
    assert forall u: Tid | u != t :: PC(s', u) == PC(s, u);
    forall u: Tid ensures Relies(s', u) {
      assert Relies(s, t) && Relies(s, u);
    }
  }

  lemma InsertKeepsSafe(s: State, t: Tid)
    requires Safe(s) && StepEnabled(s, t) && PC(s, t).RegisterLocked?
    ensures Safe(ApplyStep(s, t))
  {
    OthersKeepRelying(s, t);
    assert Relies(s, t);
    assert PC(ApplyStep(s, t), t) == RegisterInserted(PC(s, t).c);
  }

  lemma DeleteKeepsSafe(s: State, t: Tid)
    requires Safe(s) && StepEnabled(s, t) && PC(s, t).UnregisterLocked?
    ensures Safe(ApplyStep(s, t))
  {
    OthersKeepRelying(s, t);
    assert Relies(s, t);
    assert PC(ApplyStep(s, t), t) == UnregisterDeleted(PC(s, t).c, PC(s, t).c in s.clients);
  }

  /** While the map of clients changes, nobody iterates it. */
  lemma OthersKeepRelying(s: State, t: Tid)
    requires Safe(s) && StepEnabled(s, t) && (PC(s, t).RegisterLocked? || PC(s, t).UnregisterLocked?)
    ensures forall u: Tid | u != t :: PC(ApplyStep(s, t), u) == PC(s, u) && Relies(ApplyStep(s, t), u)
  {
    assert Relies(s, t) && HoldsWrite(PC(s, t)) && s.readers == {};
    forall u: Tid | u != t ensures Relies(ApplyStep(s, t), u) && PC(ApplyStep(s, t), u) == PC(s, u) {
      assert Relies(s, u) && !HoldsRead(PC(s, u));
    }
  }

  lemma CloseStepKeepsSafe(s: State, t: Tid)
    requires Safe(s) && StepEnabled(s, t) && PC(s, t).UnregisterClosing?
    ensures Safe(ApplyStep(s, t))
  {
    var s' := ApplyStep(s, t);
    assert forall u: Tid | u != t :: PC(s', u) == PC(s, u);
    assert Relies(s, t);
    forall u: Tid ensures Relies(s', u) {
      assert Relies(s, u);
    }
  }

  predicate PassesFilter(s: State, pc: Thread)
    requires pc.PublishChosen? && pc.c in s.objects
  {
    pc.p.filter ==> SubscribedTo(s.objects[pc.c].topics, pc.p.event.topic)
  }

  lemma FilterIsQuiet(s: State, t: Tid)
    requires Relies(s, t) && StepEnabled(s, t) && PC(s, t).PublishChosen?
    ensures Quiet(s, ApplyStep(s, t), t) && Relies(ApplyStep(s, t), t)
  {
    if PassesFilter(s, PC(s, t)) {
      assert PC(ApplyStep(s, t), t) == PublishSending(PC(s, t).p, PC(s, t).c);
    } else {
      FilteredIsQuiet(s, t);
    }
  }

  lemma FilteredIsQuiet(s: State, t: Tid)
    requires Relies(s, t) && StepEnabled(s, t) && PC(s, t).PublishChosen? && !PassesFilter(s, PC(s, t))
    ensures Quiet(s, ApplyStep(s, t), t) && Relies(ApplyStep(s, t), t)
  {
    var p, c := PC(s, t).p, PC(s, t).c;
    assert ApplyStep(s, t) == Settle(s, t, p, c, s.objects[c], Filtered);
    assert PC(ApplyStep(s, t), t) == PublishLooping(p.(outcomes := p.outcomes[c := Filtered]));
  }

  lemma StepKeepsSafe(s: State, t: Tid)
    requires Safe(s) && StepEnabled(s, t)
    ensures Safe(ApplyStep(s, t))
  {
    match PC(s, t)
    case RegisterLocked(_) => InsertKeepsSafe(s, t);
    case UnregisterLocked(_) => DeleteKeepsSafe(s, t);
    case UnregisterClosing(_) => CloseStepKeepsSafe(s, t);
    case PublishChosen(_, _) =>
      assert Relies(s, t);
      FilterIsQuiet(s, t);
      QuietKeepsSafe(s, ApplyStep(s, t), t);
    case PublishSending(_, _) =>
      assert Relies(s, t);
      QuietKeepsSafe(s, ApplyStep(s, t), t);
    case RegisterInserted(_) => UnlockStepKeepsSafe(s, t);
    case UnregisterDeleted(_, _) => UnlockStepKeepsSafe(s, t);
    case PublishLooping(_) => UnlockStepKeepsSafe(s, t);
    case _ => LockStepKeepsSafe(s, t);
  }

  lemma ActionKeepsSafe(s: State, a: Action)
    requires Safe(s) && Enabled(s, a)
    ensures Safe(Apply(s, a))
  {
    match a
    case Step(t) => StepKeepsSafe(s, t);
    case Subscribe(_, _) => ClientActionKeepsSafe(s, a);
    case Consume(_) => ClientActionKeepsSafe(s, a);
    case Emit(_, _) => ClientActionKeepsSafe(s, a);
    case _ => ThreadActionKeepsSafe(s, a);
  }

  lemma ThreadActionKeepsSafe(s: State, a: Action)
    requires Safe(s) && Enabled(s, a) && !a.Step? && !a.Subscribe? && !a.Consume? && !a.Emit?
    ensures Safe(Apply(s, a))
  {
    assert Relies(s, a.t);
    ThreadActionIsQuiet(s, a);
    QuietKeepsSafe(s, Apply(s, a), a.t);
  }

  lemma ThreadActionIsQuiet(s: State, a: Action)
    requires Enabled(s, a) && !a.Step? && !a.Subscribe? && !a.Consume? && !a.Emit? && Relies(s, a.t)
    ensures Quiet(s, Apply(s, a), a.t) && Relies(Apply(s, a), a.t)
  {
    if a.StartRegister? {
      RegisterIsQuiet(s, a.t, a.c);
    } else if a.StartUnregister? || a.StartPublish? {
      StartIsQuiet(s, a);
    } else if a.Choose? {
      assert PC(Apply(s, a), a.t) == PublishChosen(PC(s, a.t).p, a.c);
    } else {
      BridgeIsQuiet(s, a);
    }
  }

  lemma RegisterIsQuiet(s: State, t: Tid, c: ClientId)
    requires Enabled(s, StartRegister(t, c))
    ensures Quiet(s, Apply(s, StartRegister(t, c)), t) && Relies(Apply(s, StartRegister(t, c)), t)
  {
    assert PC(Apply(s, StartRegister(t, c)), t) == RegisterWaiting(c);
  }

  lemma StartIsQuiet(s: State, a: Action)
    requires (a.StartUnregister? || a.StartPublish?) && Enabled(s, a)
    ensures Quiet(s, Apply(s, a), a.t) && Relies(Apply(s, a), a.t)
  {
    assert PC(Apply(s, a), a.t)
        == if a.StartPublish? then PublishWaiting(a.event, a.filter) else UnregisterWaiting(a.c);
  }

  lemma BridgeIsQuiet(s: State, a: Action)
    requires (a.StartBridge? || a.BridgeTake? || a.BridgeStop?) && Enabled(s, a) && Relies(s, a.t)
    ensures Quiet(s, Apply(s, a), a.t) && Relies(Apply(s, a), a.t)
  {
    if a.BridgeTake? {
      TakeIsQuiet(s, a.t, a.marshalled);
    } else {
      assert PC(Apply(s, a), a.t) == if a.BridgeStop? then Stopped else Idle;
    }
  }

  lemma TakeIsQuiet(s: State, t: Tid, marshalled: bool)
    requires Enabled(s, BridgeTake(t, marshalled))
    ensures Quiet(s, Apply(s, BridgeTake(t, marshalled)), t) && Relies(Apply(s, BridgeTake(t, marshalled)), t)
  {
    var pc := PC(Apply(s, BridgeTake(t, marshalled)), t);
    assert if marshalled then pc.PublishWaiting? else pc == Idle;
  }

  lemma ClientActionKeepsSafe(s: State, a: Action)
    requires Safe(s) && Enabled(s, a) && (a.Subscribe? || a.Consume? || a.Emit?)
    ensures Safe(Apply(s, a))
  {
    assert Relies(s, 0);
    ClientActionIsQuiet(s, a);
    QuietKeepsSafe(s, Apply(s, a), 0);
  }

  lemma ClientActionIsQuiet(s: State, a: Action)
    requires Enabled(s, a) && (a.Subscribe? || a.Consume? || a.Emit?) && Relies(s, 0)
    ensures Quiet(s, Apply(s, a), 0) && Relies(Apply(s, a), 0)
  {
    assert PC(Apply(s, a), 0) == PC(s, 0);
  }

  lemma {:induction false} RunKeepsSafe(s: State, run: seq<Action>)
    requires Safe(s) && Possible(s, run)
    ensures Safe(After(s, run))
    decreases |run|
  {
    if run != [] {
      ActionKeepsSafe(s, run[0]);
      RunKeepsSafe(Apply(s, run[0]), run[1..]);
    }
  }

  /**
   * In every interleaving: no send targets a closed channel and no channel is closed twice (either
   * would panic). Each goroutine about to close does so through an unused Once, and each goroutine
   * about to send has its client still in the hub.
   */
  lemma NoSendOrCloseOnClosed(run: seq<Action>)
    requires Possible(INITIAL, run)
    ensures var s := After(INITIAL, run);
            && !s.panicked
            && (forall t: Tid | PC(s, t).UnregisterClosing? ::
                  var c := PC(s, t).c; c in s.objects && !s.objects[c].closed && !s.objects[c].onceDone)
            && (forall t: Tid | PC(s, t).PublishSending? ::
                  var c := PC(s, t).c; c in s.clients && c in s.objects && !s.objects[c].closed)
  {
    var s := After(INITIAL, run);
    RunKeepsSafe(INITIAL, run);
    forall t: Tid | PC(s, t).UnregisterClosing? || PC(s, t).PublishSending?
      ensures Relies(s, t)
    {
    }
  }

  // ---------------------------------------------------------------- progress

  predicate Busy(pc: Thread) {
    !pc.Idle? && !pc.Stopped?
  }

  predicate WaitsForLock(pc: Thread) {
    pc.RegisterWaiting? || pc.UnregisterWaiting? || pc.PublishWaiting?
  }

  /** The goroutine has an enabled action of its own: a step, or the next client of its loop. */
  ghost predicate CanMove(s: State, t: Tid) {
    Enabled(s, Step(t)) || exists c :: Enabled(s, Choose(t, c))
  }

  lemma BusyCanMove(s: State, t: Tid)
    requires Safe(s) && Busy(PC(s, t)) && !WaitsForLock(PC(s, t))
    ensures CanMove(s, t)
  {
    assert Relies(s, t);
    if PC(s, t).PublishLooping? && !Enabled(s, Step(t)) {
      var c :| c in s.clients && c !in PC(s, t).p.outcomes;
      assert Enabled(s, Choose(t, c));
    }
  }

  lemma WaiterHasAHolder(s: State, t: Tid) returns (u: Tid)
    requires Safe(s) && WaitsForLock(PC(s, t)) && !Enabled(s, Step(t))
    ensures HoldsWrite(PC(s, u)) || HoldsRead(PC(s, u))
  {
    if s.writer.Some? {
      u := s.writer.value;
    } else {
      u :| u in s.readers;
    }
  }

  /**
   * No deadlock: in every reachable state a goroutine in the middle of an operation can move, or it
   * waits for the lock and a goroutine that holds the lock can move. Nobody waits while holding it.
   */
  lemma NoDeadlock(run: seq<Action>, t: Tid)
    requires Possible(INITIAL, run) && Busy(PC(After(INITIAL, run), t))
    ensures var s := After(INITIAL, run);
            || CanMove(s, t)
            || (WaitsForLock(PC(s, t))
                && exists u :: (HoldsWrite(PC(s, u)) || HoldsRead(PC(s, u))) && CanMove(s, u))
  {
    var s := After(INITIAL, run);
    RunKeepsSafe(INITIAL, run);
    if !WaitsForLock(PC(s, t)) {
      BusyCanMove(s, t);
    } else if !Enabled(s, Step(t)) {
      var u := WaiterHasAHolder(s, t);
      BusyCanMove(s, u);
    }
  }

  // ---------------------------------------------------------------- a lock that prefers writers

  predicate WaitsToWrite(pc: Thread) {
    pc.RegisterWaiting? || pc.UnregisterWaiting?
  }

  /** As Go's sync.RWMutex has it: a goroutine that waits to write keeps new readers out. */
  ghost predicate CanMoveBehindWriters(s: State, t: Tid) {
    CanMove(s, t) && (PC(s, t).PublishWaiting? ==> forall u: Tid :: !WaitsToWrite(PC(s, u)))
  }

  /** The lock that prefers writers does not deadlock either. */
  lemma NoDeadlockBehindWriters(run: seq<Action>, t: Tid)
    requires Possible(INITIAL, run) && Busy(PC(After(INITIAL, run), t))
    ensures exists u :: Busy(PC(After(INITIAL, run), u)) && CanMoveBehindWriters(After(INITIAL, run), u)
  {
    var s := After(INITIAL, run);
    RunKeepsSafe(INITIAL, run);
    if u: Tid :| Busy(PC(s, u)) && !WaitsForLock(PC(s, u)) {
      BusyCanMove(s, u);
      assert CanMoveBehindWriters(s, u);
    } else if u: Tid :| WaitsToWrite(PC(s, u)) {
      LockIsFree(s);
      assert Enabled(s, Step(u)) && CanMoveBehindWriters(s, u);
    } else {
      LockIsFree(s);
      assert Enabled(s, Step(t)) && CanMoveBehindWriters(s, t);
    }
  }

  lemma LockIsFree(s: State)
    requires Locks(s) && forall u: Tid :: Busy(PC(s, u)) ==> WaitsForLock(PC(s, u))
    ensures s.writer == None && s.readers == {}
  {
    assert forall u: Tid :: !HoldsWrite(PC(s, u)) && !HoldsRead(PC(s, u));
    assert forall u | u in s.readers :: HoldsRead(PC(s, u));
    assert forall u: Tid :: s.writer != Some(u);
  }
}
