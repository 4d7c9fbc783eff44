/**
 * The hub and its clients as objects, with each method as one goroutine runs it alone, and the proof
 * that an undisturbed run of the step machine has the effect the publishing methods promise.
 */
module HubObjects {
  import opened Basics
  import opened HubMachine
  import opened HubDelivery

  /** A client's queue after one offer of a message, with or without the topic filter. */
  function OfferedQueue(topics: set<string>, queue: seq<Message>, m: Message, filter: bool): seq<Message> {
    if filter && !SubscribedTo(topics, m.event.topic) then queue else TrySend(queue, m).0
  }

  /** stream.Client; the channel is its queue and its closed flag. */
  class HubClient {
    var topics: set<string>
    var queue: seq<Message>
    var closed: bool
    var onceDone: bool
    var cancelled: bool

    constructor ()
      ensures topics == {} && queue == [] && !closed && !onceDone && !cancelled
    {
      topics, queue, closed, onceDone, cancelled := {}, [], false, false, false;
    }

    /** The non-blocking send; a send on a closed channel would panic. */
    method Send(m: Message)
      requires !closed
      modifies this`queue
      ensures queue == TrySend(old(queue), m).0
    {
      if |queue| < CLIENT_BUFFER {
        queue := queue + [m];
      }
    }

    /** The close under the sync.Once; closing a closed channel would panic. */
    method CloseOnce()
      requires !onceDone ==> !closed
      modifies this`closed, this`onceDone
      ensures onceDone && closed == (old(closed) || !old(onceDone))
    {
      if !onceDone {
        onceDone, closed := true, true;
      }
    }

    /** Client.Subscribe */
    method Subscribe(list: seq<string>)
      modifies this`topics
      ensures topics == old(topics) + set t | t in list
    {
      for i := 0 to |list|
        invariant topics == old(topics) + set t | t in list[..i]
      {
        topics := topics + {list[i]};
        assert list[..i + 1] == list[..i] + [list[i]];
      }
    }
  }

  /** stream.Hub */
  class Hub {
    var clients: set<HubClient>

    /** The clients of the hub have open channels and unused Onces. */
    ghost predicate Valid()
      reads this, clients
    {
      forall c | c in clients :: !c.closed && !c.onceDone
    }

    constructor ()
      ensures Valid() && clients == {}
    {
      clients := {};
    }

    method Register() returns (c: HubClient)
      requires Valid()
      modifies this
      ensures Valid() && fresh(c) && clients == old(clients) + {c}
      ensures c.topics == {} && c.queue == [] && !c.cancelled
    {
      c := new HubClient();
      clients := clients + {c};
    }

    method Unregister(c: HubClient)
      requires Valid()
      modifies this, c
      ensures Valid() && clients == old(clients) - {c}
      ensures c.queue == old(c.queue) && c.topics == old(c.topics)
      ensures if c in old(clients) then c.closed && c.onceDone && c.cancelled
              else c.closed == old(c.closed) && c.onceDone == old(c.onceDone) && c.cancelled == old(c.cancelled)
    {
      var existed := c in clients;
      clients := clients - {c};
      if !existed {
        return;
      }
      c.cancelled := true;
      c.CloseOnce();
    }

    /** Publish offers the message to every client, through the topic filter. */
    method Publish(m: Message)
      requires Valid()
      modifies clients`queue
      ensures Valid()
      ensures forall c | c in clients :: c.queue == OfferedQueue(c.topics, old(c.queue), m, true)
    {
      var rest := clients;
      while rest != {}
        invariant rest <= clients
        invariant forall c | c in clients ::
                    c.queue == if c in rest then old(c.queue) else OfferedQueue(c.topics, old(c.queue), m, true)
      {
        var c :| c in rest;
        rest := rest - {c};
        if !SubscribedTo(c.topics, m.event.topic) {
          continue;
        }
        c.Send(m);
      }
    }

    /** Broadcast offers the message to every client, whatever its topics. */
    method Broadcast(m: Message)
      requires Valid()
      modifies clients`queue
      ensures Valid()
      ensures forall c | c in clients :: c.queue == OfferedQueue(c.topics, old(c.queue), m, false)
    {
      var rest := clients;
      while rest != {}
        invariant rest <= clients
        invariant forall c | c in clients ::
                    c.queue == if c in rest then old(c.queue) else OfferedQueue(c.topics, old(c.queue), m, false)
      {
        var c :| c in rest;
        rest := rest - {c};
        c.Send(m);
      }
    }
  }

  // ---------------------------------------------------------------- the machine run alone

  lemma {:induction false} RunInParts(s: State, a: seq<Action>, b: seq<Action>)
    requires Possible(s, a) && Possible(After(s, a), b)
    ensures Possible(s, a + b) && After(s, a + b) == After(After(s, a), b)
    decreases |a|
  {
    if a == [] {
      assert a + b == b;
    } else {
      assert (a + b)[0] == a[0] && (a + b)[1..] == a[1..] + b;
      RunInParts(Apply(s, a[0]), a[1..], b);
    }
  }

  lemma RunOne(s: State, a: Action)
    requires Enabled(s, a)
    ensures Possible(s, [a]) && After(s, [a]) == Apply(s, a)
  {
    assert [a][1..] == [];
  }

  lemma RunTwo(s: State, a: Action, b: Action)
    requires Enabled(s, a) && Enabled(Apply(s, a), b)
    ensures Possible(s, [a, b]) && After(s, [a, b]) == Apply(Apply(s, a), b)
  {
    RunOne(Apply(s, a), b);
    assert [a, b][1..] == [b];
  }

  lemma RunThree(s: State, a: Action, b: Action, c: Action)
    requires Enabled(s, a) && Enabled(Apply(s, a), b) && Enabled(Apply(Apply(s, a), b), c)
    ensures Possible(s, [a, b, c]) && After(s, [a, b, c]) == Apply(Apply(Apply(s, a), b), c)
  {
    RunTwo(Apply(s, a), b, c);
    assert [a, b, c][1..] == [b, c];
  }

  /** The actions of a loop that meets the clients in this order. */
  function LoopActions(s: State, t: Tid, p: Publication, order: seq<ClientId>): seq<Action>
    requires forall c | c in order :: c in s.objects
  {
    if order == [] then []
    else
      var passes := p.filter ==> SubscribedTo(s.objects[order[0]].topics, p.event.topic);
      [Choose(t, order[0]), Step(t)] + (if passes then [Step(t)] else []) + LoopActions(s, t, p, order[1..])
  }

  /** A loop at work, alone: these clients still have their old record, the others are settled. */
  ghost predicate LoopingAlone(s: State, now: State, t: Tid, p: Publication, order: seq<ClientId>) {
    && PC(now, t).PublishLooping? && PC(now, t).p.event == p.event && PC(now, t).p.filter == p.filter
    && now.clients == s.clients && now.objects.Keys == s.objects.Keys
    && (forall i, j | 0 <= i < j < |order| :: order[i] != order[j])
    && (forall c :: c in order <==> c in s.clients && c !in PC(now, t).p.outcomes)
    && (forall c | c in order :: c in s.objects && now.objects[c] == s.objects[c] && !s.objects[c].closed)
  }

  /** What a settled loop has done to the queues. */
  ghost predicate QueuesOffered(s: State, now: State, m: Message, filter: bool, order: seq<ClientId>) {
    && now.objects.Keys == s.objects.Keys
    && forall c | c in s.objects ::
         now.objects[c].queue
         == if c in order then OfferedQueue(s.objects[c].topics, s.objects[c].queue, m, filter) else s.objects[c].queue
  }

  ghost predicate Visited(now: State, next: State, t: Tid, c: ClientId) {
    && PC(now, t).PublishLooping? && c in now.objects
    && var p := PC(now, t).p;
    && next.clients == now.clients && next.objects.Keys == now.objects.Keys
    && next.objects[c].queue == OfferedQueue(now.objects[c].topics, now.objects[c].queue, Message(t, p.event), p.filter)
    && (forall d | d in now.objects && d != c :: next.objects[d] == now.objects[d])
    && PC(next, t).PublishLooping? && PC(next, t).p.event == p.event && PC(next, t).p.filter == p.filter
    && PC(next, t).p.outcomes.Keys == p.outcomes.Keys + {c}
  }

  lemma OfferedIsVisited(
    now: State, chosen: State, next: State, t: Tid, c: ClientId, outcome: Outcome, queue: seq<Message>)
    requires PC(now, t).PublishLooping? && c in now.objects
    requires chosen.objects == now.objects
    requires PC(chosen, t) == PublishChosen(PC(now, t).p, c) || PC(chosen, t) == PublishSending(PC(now, t).p, c)
    requires Offered(chosen, next, t, outcome, queue) && next.clients == now.clients
    requires var o, p := now.objects[c], PC(now, t).p;
             queue == OfferedQueue(o.topics, o.queue, Message(t, p.event), p.filter)
    ensures Visited(now, next, t, c)
  {
    assert PC(next, t) == PublishLooping(PC(now, t).p.(outcomes := PC(now, t).p.outcomes[c := outcome]));
  }

  lemma VisitFiltered(now: State, t: Tid, c: ClientId)
    requires PC(now, t).PublishLooping? && c in now.objects && c in now.clients && c !in PC(now, t).p.outcomes
    requires PC(now, t).p.filter && !SubscribedTo(now.objects[c].topics, PC(now, t).p.event.topic)
    ensures Possible(now, [Choose(t, c), Step(t)]) && Visited(now, After(now, [Choose(t, c), Step(t)]), t, c)
  {
    var chosen := Apply(now, Choose(t, c));
    assert PC(chosen, t) == PublishChosen(PC(now, t).p, c);
    FilterOffers(chosen, t);
    var next := ApplyStep(chosen, t);
    RunTwo(now, Choose(t, c), Step(t));
    OfferedIsVisited(now, chosen, next, t, c, Filtered, now.objects[c].queue);
  }

  lemma VisitSent(now: State, t: Tid, c: ClientId)
    requires PC(now, t).PublishLooping? && c in now.objects && c in now.clients && c !in PC(now, t).p.outcomes
    requires PC(now, t).p.filter ==> SubscribedTo(now.objects[c].topics, PC(now, t).p.event.topic)
    requires !now.objects[c].closed
    ensures Possible(now, [Choose(t, c), Step(t), Step(t)])
    ensures Visited(now, After(now, [Choose(t, c), Step(t), Step(t)]), t, c)
  {
    var chosen := Apply(now, Choose(t, c));
    assert PC(chosen, t) == PublishChosen(PC(now, t).p, c);
    var sending := ApplyStep(chosen, t);
    assert sending == At(chosen, t, PublishSending(PC(now, t).p, c));
    assert PC(sending, t) == PublishSending(PC(now, t).p, c);
    SendOffers(sending, t);
    var (queue, outcome) := TrySend(now.objects[c].queue, Message(t, PC(now, t).p.event));
    var next := ApplyStep(sending, t);
    RunThree(now, Choose(t, c), Step(t), Step(t));
    OfferedIsVisited(now, sending, next, t, c, outcome, queue);
  }

  lemma {:induction false} LoopAlone(s: State, now: State, t: Tid, p: Publication, order: seq<ClientId>)
    requires LoopingAlone(s, now, t, p, order)
    ensures var run := LoopActions(s, t, p, order);
            && Possible(now, run)
            && QueuesOffered(now, After(now, run), Message(t, p.event), p.filter, order)
            && LoopingAlone(s, After(now, run), t, p, [])
    decreases |order|
  {
    if order != [] {
      var c, rest := order[0], order[1..];
      assert c in order;
      var passes := p.filter ==> SubscribedTo(s.objects[c].topics, p.event.topic);
      var visit := [Choose(t, c), Step(t)] + if passes then [Step(t)] else [];
      if passes {
        assert visit == [Choose(t, c), Step(t), Step(t)];
        VisitSent(now, t, c);
      } else {
        assert visit == [Choose(t, c), Step(t)];
        VisitFiltered(now, t, c);
      }
      var next := After(now, visit);
      LoopShrinks(s, now, next, t, p, order);
      LoopAlone(s, next, t, p, rest);
      RunInParts(now, visit, LoopActions(s, t, p, rest));
      assert LoopActions(s, t, p, order) == visit + LoopActions(s, t, p, rest);
      QueuesCombine(now, next, After(next, LoopActions(s, t, p, rest)), t, p, order);
    }
  }

  lemma LoopShrinks(s: State, now: State, next: State, t: Tid, p: Publication, order: seq<ClientId>)
    requires LoopingAlone(s, now, t, p, order) && order != [] && Visited(now, next, t, order[0])
    ensures LoopingAlone(s, next, t, p, order[1..])
  {
    forall c ensures c in order[1..] <==> c in s.clients && c !in PC(next, t).p.outcomes {
      assert c in order <==> c == order[0] || c in order[1..];
      if c in order[1..] {
        var i :| 1 <= i < |order| && order[i] == c;
        assert order[0] != order[i];
      }
    }
  }

  lemma QueuesCombine(now: State, next: State, end: State, t: Tid, p: Publication, order: seq<ClientId>)
    requires order != [] && Visited(now, next, t, order[0]) && order[0] !in order[1..]
    requires PC(now, t).p.event == p.event && PC(now, t).p.filter == p.filter
    requires QueuesOffered(next, end, Message(t, p.event), p.filter, order[1..])
    ensures QueuesOffered(now, end, Message(t, p.event), p.filter, order)
  {
    assert forall c :: c in order <==> c == order[0] || c in order[1..];
  }

  /** A whole Publish or Broadcast that meets the clients in this order. */
  function PublishActions(s: State, t: Tid, event: Event, filter: bool, order: seq<ClientId>): seq<Action>
    requires forall c | c in order :: c in s.objects
  {
    [StartPublish(t, event, filter), Step(t)]
    + LoopActions(s, t, Publication(event, filter, s.clients, map[]), order)
    + [Step(t)]
  }

  /**
   * Run alone, from any safe state with the lock free of a writer, a publication is possible for
   * every order of iteration, leaves its goroutine idle and without the lock, and has on every queue the
   * effect that the methods Publish and Broadcast promise.
   */
  lemma PublishAlone(s: State, t: Tid, event: Event, filter: bool, order: seq<ClientId>)
    requires Safe(s) && PC(s, t) == Idle && t !in s.bridges && s.writer == None
    requires forall i, j | 0 <= i < j < |order| :: order[i] != order[j]
    requires forall c :: c in order <==> c in s.clients
    ensures var run := PublishActions(s, t, event, filter, order);
            && Possible(s, run)
            && PC(After(s, run), t) == Idle && t !in After(s, run).readers && After(s, run).clients == s.clients
            && QueuesOffered(s, After(s, run), Message(t, event), filter, order)
  {
    var p := Publication(event, filter, s.clients, map[]);
    var begin, loop := [StartPublish(t, event, filter), Step(t)], LoopActions(s, t, p, order);
    BeginAlone(s, t, event, filter, order);
    var looping := After(s, begin);
    LoopAlone(s, looping, t, p, order);
    var settled := After(looping, loop);
    EndAlone(s, settled, t, p);
    RunInParts(s, begin, loop);
    RunInParts(s, begin + loop, [Step(t)]);
    RunKeepsSafe(s, begin + loop + [Step(t)]);
  }

  lemma BeginAlone(s: State, t: Tid, event: Event, filter: bool, order: seq<ClientId>)
    requires Safe(s) && PC(s, t) == Idle && t !in s.bridges && s.writer == None
    requires forall i, j | 0 <= i < j < |order| :: order[i] != order[j]
    requires forall c :: c in order <==> c in s.clients
    ensures var begin := [StartPublish(t, event, filter), Step(t)];
            && Possible(s, begin) && After(s, begin).objects == s.objects
            && LoopingAlone(s, After(s, begin), t, Publication(event, filter, s.clients, map[]), order)
  {
    var waiting := Apply(s, StartPublish(t, event, filter));
    assert PC(waiting, t) == PublishWaiting(event, filter);
    var looping := ApplyStep(waiting, t);
    assert PC(looping, t) == PublishLooping(Publication(event, filter, s.clients, map[]));
    RunTwo(s, StartPublish(t, event, filter), Step(t));
  }

  lemma EndAlone(s: State, settled: State, t: Tid, p: Publication)
    requires LoopingAlone(s, settled, t, p, [])
    ensures Possible(settled, [Step(t)])
    ensures After(settled, [Step(t)]).objects == settled.objects && PC(After(settled, [Step(t)]), t) == Idle
    ensures After(settled, [Step(t)]).clients == s.clients
  {
    assert forall c | c in settled.clients :: c !in [] && c in PC(settled, t).p.outcomes;
    assert StepEnabled(settled, t);
    RunOne(settled, Step(t));
  }
}
