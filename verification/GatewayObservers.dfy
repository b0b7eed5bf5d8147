/** What each observer sees of the executions, over every behaviour of the gateway. */
module GatewayObservers {
  import opened Collections
  import opened Messages
  import R = RetryMachine
  import X = Executions
  import opened Subscriptions
  import opened GatewaySystem
  import opened GatewayInvariants

  // ---------- subscription and openness, read off the actions ----------

  /** A subscribe is granted for an execution of the connection's namespace that is not over. */
  predicate Grants(g: Gateway, a: Action, c: Id, id: Id) {
    && a == Subscribe(c, id) && c in g.clients
    && id in g.runs && !g.runs[id].closed && g.runs[id].ns == g.clients[c]
  }

  predicate Revokes(a: Action, c: Id, id: Id) {
    a == Unsubscribe(c, id) || a == ClientCloses(c)
  }

  predicate Connects(a: Action, c: Id) {
    a.ClientConnects? && a.client == c
  }

  predicate Shuts(a: Action, c: Id) {
    a == ClientClosing(c) || a == ClientCloses(c)
  }

  /** Some granted subscribe of the connection to the execution has not been undone. */
  ghost predicate SubscribedAt(tr: seq<Action>, gs: seq<Gateway>, n: nat, c: Id, id: Id)
    requires n <= |tr| < |gs|
  {
    exists i :: 0 <= i < n && Grants(gs[i], tr[i], c, id) && forall j :: i < j < n ==> !Revokes(tr[j], c, id)
  }

  /** The connection was made and has neither begun to close nor closed. */
  ghost predicate OpenAt(tr: seq<Action>, n: nat, c: Id)
    requires n <= |tr|
  {
    (exists i :: 0 <= i < n && Connects(tr[i], c)) && (forall j :: 0 <= j < n ==> !Shuts(tr[j], c))
  }

  /** The events written while the connection was subscribed to their execution with an open socket,
      in the order of writing, each once. */
  ghost function Audible(tr: seq<Action>, gs: seq<Gateway>, n: nat, c: Id): seq<Delivery>
    requires n <= |tr| < |gs|
  {
    if n == 0 then []
    else
      var a, g := tr[n - 1], gs[n - 1];
      Audible(tr, gs, n - 1, c) +
      (if a.Advance? && SubscribedAt(tr, gs, n - 1, c, a.id) && OpenAt(tr, n - 1, c) then Tagged(a.id, Output(g, a)) else [])
  }

  // ---------- the registry agrees with that reading ----------

  lemma GrantsMaySubscribe(g: Gateway, c: Id, id: Id)
    requires RegistryOk(g)
    ensures MaySubscribe(g, c, id) <==> Grants(g, Subscribe(c, id), c, id)
  {
    if id in g.executions.entries { assert EntryOk(g.executions.entries[id], g.runs[id]); }
  }

  lemma StepPairs(g: Gateway, a: Action, c: Id, id: Id)
    requires RegistryOk(g) && Legal(g, a)
    ensures (c, id) in Step(g, a).pairs <==> Grants(g, a, c, id) || ((c, id) in g.pairs && !Revokes(a, c, id))
  {
    GrantsMaySubscribe(g, c, id);
    PairsAfter(g, a, c, id);
  }

  lemma PairsAfter(g: Gateway, a: Action, c: Id, id: Id)
    requires Legal(g, a)
    ensures (c, id) in Step(g, a).pairs <==>
      (a == Subscribe(c, id) && MaySubscribe(g, c, id)) || ((c, id) in g.pairs && !Revokes(a, c, id))
  {
  }

  lemma SubscribedSnoc(tr: seq<Action>, gs: seq<Gateway>, n: nat, c: Id, id: Id)
    requires 0 < n <= |tr| < |gs|
    ensures SubscribedAt(tr, gs, n, c, id) <==>
      Grants(gs[n - 1], tr[n - 1], c, id) || (SubscribedAt(tr, gs, n - 1, c, id) && !Revokes(tr[n - 1], c, id))
  {
    if SubscribedAt(tr, gs, n - 1, c, id) && !Revokes(tr[n - 1], c, id) {
      var i :| 0 <= i < n - 1 && Grants(gs[i], tr[i], c, id) && forall j :: i < j < n - 1 ==> !Revokes(tr[j], c, id);
      assert forall j :: i < j < n ==> !Revokes(tr[j], c, id);
    }
  }

  lemma {:induction false} PairsAreSubscriptions(tr: seq<Action>, gs: seq<Gateway>, n: nat, c: Id, id: Id)
    requires Behaviour(tr, gs) && n <= |tr|
    ensures (c, id) in gs[n].pairs <==> SubscribedAt(tr, gs, n, c, id)
  {
    if n > 0 {
      PairsAreSubscriptions(tr, gs, n - 1, c, id);
      Reachable(tr, gs, n - 1);
      assert Next(tr, gs, n - 1);
      SubscribedSnoc(tr, gs, n, c, id);
      StepPairs(gs[n - 1], tr[n - 1], c, id);
    }
  }

  predicate Listening(g: Gateway, c: Id) {
    c in g.sockets && c in g.wire && g.wire[c].open
  }

  lemma AdvanceListening(g: Gateway, id: Id, stimulus: R.Stimulus, c: Id)
    requires Legal(g, Advance(id, stimulus))
    ensures var g' := Advanced(g, id, stimulus); g'.clients == g.clients && (Listening(g', c) <==> Listening(g, c))
  {
  }

  lemma StepListening(g: Gateway, a: Action, c: Id)
    requires Legal(g, a) && ObserversOk(g)
    ensures c in Step(g, a).clients <==> Connects(a, c) || c in g.clients
    ensures Listening(Step(g, a), c) <==> Connects(a, c) || (Listening(g, c) && !Shuts(a, c))
    ensures Connects(a, c) ==> c !in g.clients
    ensures Shuts(a, c) ==> c in g.clients
  {
    if a.Advance? { AdvanceListening(g, a.id, a.stimulus, c); }
  }

  lemma {:induction false} ClientsWereConnected(tr: seq<Action>, gs: seq<Gateway>, n: nat, c: Id)
    requires Behaviour(tr, gs) && n <= |tr|
    ensures c in gs[n].clients <==> exists i :: 0 <= i < n && Connects(tr[i], c)
    ensures c !in gs[n].clients ==> forall j :: 0 <= j < n ==> !Shuts(tr[j], c)
  {
    if n > 0 {
      ClientsWereConnected(tr, gs, n - 1, c);
      Reachable(tr, gs, n - 1);
      assert Next(tr, gs, n - 1);
      StepListening(gs[n - 1], tr[n - 1], c);
    }
  }

  lemma {:induction false} ListeningIsOpen(tr: seq<Action>, gs: seq<Gateway>, n: nat, c: Id)
    requires Behaviour(tr, gs) && n <= |tr|
    ensures Listening(gs[n], c) <==> OpenAt(tr, n, c)
  {
    if n > 0 {
      ListeningIsOpen(tr, gs, n - 1, c);
      ClientsWereConnected(tr, gs, n - 1, c);
      Reachable(tr, gs, n - 1);
      assert Next(tr, gs, n - 1);
      StepListening(gs[n - 1], tr[n - 1], c);
    }
  }

  lemma AdvanceReceived(g: Gateway, id: Id, stimulus: R.Stimulus, c: Id)
    requires Legal(g, Advance(id, stimulus)) && c in g.wire
    ensures Advanced(g, id, stimulus).wire[c].received
      == g.wire[c].received + (if Hears(g, c, id) then Tagged(id, Output(g, Advance(id, stimulus))) else [])
  {
  }

  /** Only an advancing run sends anything. */
  lemma OthersSendNothing(g: Gateway, a: Action, c: Id)
    requires Legal(g, a) && !a.Advance? && c in g.wire && !Connects(a, c)
    ensures c in Step(g, a).wire && Step(g, a).wire[c].received == g.wire[c].received
  {
  }

  lemma StepReceived(g: Gateway, a: Action, c: Id)
    requires Legal(g, a) && ObserversOk(g)
    ensures c in Step(g, a).clients ==> c in Step(g, a).wire
    ensures Connects(a, c) ==> Step(g, a).wire[c].received == []
    ensures c in g.clients ==>
      Step(g, a).wire[c].received
      == g.wire[c].received + (if a.Advance? && Hears(g, c, a.id) then Tagged(a.id, Output(g, a)) else [])
  {
    if a.Advance? {
      if c in g.wire { AdvanceReceived(g, a.id, a.stimulus, c); }
    } else if c in g.wire && !Connects(a, c) {
      OthersSendNothing(g, a, c);
    }
  }

  /** Observer faithfulness: over every interleaving, what an observer connection has received is
      exactly what was audible to it, in order and once each. */
  lemma {:induction false} ObserverFaithful(tr: seq<Action>, gs: seq<Gateway>, n: nat, c: Id)
    requires Behaviour(tr, gs) && n <= |tr| && c in gs[n].clients
    ensures c in gs[n].wire && gs[n].wire[c].received == Audible(tr, gs, n, c)
  {
    if n > 0 {
      var a, g := tr[n - 1], gs[n - 1];
      Reachable(tr, gs, n - 1);
      assert Next(tr, gs, n - 1);
      StepReceived(g, a, c);
      StepListening(g, a, c);
      ListeningIsOpen(tr, gs, n - 1, c);
      if a.Advance? { PairsAreSubscriptions(tr, gs, n - 1, c, a.id); }
      if c in g.clients {
        ObserverFaithful(tr, gs, n - 1, c);
      } else {
        NothingAudible(tr, gs, n - 1, c);
      }
    }
  }

  lemma {:induction false} NothingAudible(tr: seq<Action>, gs: seq<Gateway>, n: nat, c: Id)
    requires Behaviour(tr, gs) && n <= |tr| && c !in gs[n].clients
    ensures Audible(tr, gs, n, c) == []
  {
    if n > 0 {
      Reachable(tr, gs, n - 1);
      assert Next(tr, gs, n - 1);
      StepListening(gs[n - 1], tr[n - 1], c);
      ListeningIsOpen(tr, gs, n - 1, c);
      NothingAudible(tr, gs, n - 1, c);
    }
  }

  /** Observers hear only of executions of their own namespace. */
  lemma OwnNamespaceOnly(tr: seq<Action>, gs: seq<Gateway>, n: nat, c: Id, i: nat)
    requires Behaviour(tr, gs) && n <= |tr| && c in gs[n].wire && i < |gs[n].wire[c].received|
    ensures var id := gs[n].wire[c].received[i].execution;
      id in gs[n].runs && c in gs[n].clients && gs[n].runs[id].ns == gs[n].clients[c]
  {
    Reachable(tr, gs, n);
  }

  // ---------- one continuous subscription ----------

  /** The events of one execution among the deliveries. */
  function Heard(received: seq<Delivery>, id: Id): seq<Event> {
    if received == [] then []
    else
      var d := received[|received| - 1];
      Heard(received[..|received| - 1], id) + (if d.execution == id then [d.event] else [])
  }

  lemma HeardSnoc(received: seq<Delivery>, d: Delivery, id: Id)
    ensures Heard(received + [d], id) == Heard(received, id) + (if d.execution == id then [d.event] else [])
  {
    assert (received + [d])[..|received|] == received;
  }

  lemma TaggedSnoc(x: Id, events: seq<Event>, e: Event)
    ensures Tagged(x, events + [e]) == Tagged(x, events) + [Delivery(x, e)]
  {
    assert (events + [e])[..|events|] == events;
  }

  lemma AppendTagged(a: seq<Delivery>, x: Id, init: seq<Event>, last: Event)
    ensures a + Tagged(x, init + [last]) == a + Tagged(x, init) + [Delivery(x, last)]
  {
    TaggedSnoc(x, init, last);
  }

  lemma HeardOneMore(a: seq<Delivery>, id: Id, x: Id, init: seq<Event>, last: Event)
    ensures Heard(a + Tagged(x, init + [last]), id) == Heard(a + Tagged(x, init), id) + (if x == id then [last] else [])
  {
    AppendTagged(a, x, init, last);
    HeardSnoc(a + Tagged(x, init), Delivery(x, last), id);
  }

  lemma Regroup(a: seq<Event>, init: seq<Event>, last: Event)
    ensures a + init + [last] == a + (init + [last])
  {
  }

  lemma {:induction false} HeardAppend(a: seq<Delivery>, id: Id, x: Id, events: seq<Event>)
    ensures Heard(a + Tagged(x, events), id) == Heard(a, id) + (if x == id then events else [])
    decreases |events|
  {
    if events == [] {
      assert a + Tagged(x, events) == a;
    } else {
      var init, last := events[..|events| - 1], events[|events| - 1];
      HeardAppend(a, id, x, init);
      assert events == init + [last];
      HeardOneMore(a, id, x, init, last);
      if x == id { Regroup(Heard(a, id), init, last); }
    }
  }

  predicate Keeps(a: Action, c: Id, id: Id) {
    !Revokes(a, c, id) && !Shuts(a, c)
  }

  lemma StepLog(g: Gateway, a: Action, id: Id)
    requires Legal(g, a) && id in g.runs
    ensures id in Step(g, a).runs
    ensures Step(g, a).runs[id].log == g.runs[id].log + Share(g, a, id)
  {
  }

  /** Between two states the observer's share of the stream grew by what the initiator's log grew by. */
  ghost predicate HearsTheRest(g: Gateway, g': Gateway, c: Id, id: Id) {
    && Hears(g', c, id) && c in g.wire
    && id in g.runs && id in g'.runs && g.runs[id].log <= g'.runs[id].log
    && Heard(g'.wire[c].received, id) == Heard(g.wire[c].received, id) + g'.runs[id].log[|g.runs[id].log|..]
  }

  /** What an action adds to the stream of an execution. */
  function Share(g: Gateway, a: Action, id: Id): seq<Event> {
    if a.Advance? && a.id == id then Output(g, a) else []
  }

  lemma HeardAfter(g: Gateway, a: Action, c: Id, id: Id)
    requires ObserversOk(g) && Legal(g, a) && Hears(g, c, id)
    ensures c in Step(g, a).wire && Heard(Step(g, a).wire[c].received, id) == Heard(g.wire[c].received, id) + Share(g, a, id)
  {
    StepReceived(g, a, c);
    StepListening(g, a, c);
    if a.Advance? { HeardAppend(g.wire[c].received, id, a.id, Output(g, a)); }
  }

  lemma Tail(a: seq<Event>, b: seq<Event>)
    ensures (a + b)[|a|..] == b && a <= a + b
  {
  }

  lemma StepHeard(g: Gateway, a: Action, c: Id, id: Id)
    requires Inv(g) && Legal(g, a) && Hears(g, c, id) && Keeps(a, c, id)
    ensures HearsTheRest(g, Step(g, a), c, id)
  {
    assert Hears(Step(g, a), c, id) by {
      StepPairs(g, a, c, id);
      StepListening(g, a, c);
    }
    StepLog(g, a, id);
    HeardAfter(g, a, c, id);
    Tail(g.runs[id].log, Share(g, a, id));
  }

  lemma HearsTransitively(g0: Gateway, g1: Gateway, g2: Gateway, c: Id, id: Id)
    requires HearsTheRest(g0, g1, c, id) && HearsTheRest(g1, g2, c, id)
    ensures HearsTheRest(g0, g2, c, id)
  {
    var log0, log1, log2 := g0.runs[id].log, g1.runs[id].log, g2.runs[id].log;
    assert log1[|log0|..] + log2[|log1|..] == log2[|log0|..];
  }

  /** From the moment an observer hears an execution until it unsubscribes or its socket closes, it
      receives all that the initiator is sent, in order and once. */
  lemma {:induction false} SubscriberHearsTheRest(tr: seq<Action>, gs: seq<Gateway>, m: nat, n: nat, c: Id, id: Id)
    requires Behaviour(tr, gs) && m <= n <= |tr| && Hears(gs[m], c, id)
    requires forall j :: m <= j < n ==> Keeps(tr[j], c, id)
    ensures HearsTheRest(gs[m], gs[n], c, id)
    decreases n
  {
    if m == n {
      Reachable(tr, gs, m);
    } else {
      SubscriberHearsTheRest(tr, gs, m, n - 1, c, id);
      Reachable(tr, gs, n - 1);
      assert Next(tr, gs, n - 1);
      StepHeard(gs[n - 1], tr[n - 1], c, id);
      HearsTransitively(gs[m], gs[n - 1], gs[n], c, id);
    }
  }

  ghost predicate Unheard(g: Gateway, c: Id, id: Id) {
    (c, id) !in g.pairs && (c in g.wire ==> Heard(g.wire[c].received, id) == [])
  }

  lemma StepUnheard(g: Gateway, a: Action, c: Id, id: Id)
    requires RegistryOk(g) && ObserversOk(g) && Legal(g, a) && Unheard(g, c, id) && a != Subscribe(c, id)
    ensures Unheard(Step(g, a), c, id)
  {
    StepPairs(g, a, c, id);
    StepReceived(g, a, c);
    StepListening(g, a, c);
    if c in g.wire && !Connects(a, c) {
      if a.Advance? && Hears(g, c, a.id) { HeardAppend(g.wire[c].received, id, a.id, Output(g, a)); }
    }
  }

  lemma {:induction false} NeverSubscribedNeverHeard(tr: seq<Action>, gs: seq<Gateway>, n: nat, c: Id, id: Id)
    requires Behaviour(tr, gs) && n <= |tr|
    requires forall j :: 0 <= j < n ==> tr[j] != Subscribe(c, id)
    ensures Unheard(gs[n], c, id)
  {
    if n > 0 {
      NeverSubscribedNeverHeard(tr, gs, n - 1, c, id);
      Reachable(tr, gs, n - 1);
      assert Next(tr, gs, n - 1);
      StepUnheard(gs[n - 1], tr[n - 1], c, id);
    }
  }

  ghost predicate OnlyRetries(log: seq<Event>) {
    forall i :: 0 <= i < |log| ==> log[i].Retry?
  }

  /** Just after its first subscribe an observer has heard nothing, and the stream is not over. */
  lemma FirstSubscribe(tr: seq<Action>, gs: seq<Gateway>, m: nat, c: Id, id: Id)
    requires Behaviour(tr, gs) && m < |tr| && tr[m] == Subscribe(c, id) && Hears(gs[m + 1], c, id)
    requires forall j :: 0 <= j < m ==> tr[j] != Subscribe(c, id)
    ensures c in gs[m + 1].wire && Heard(gs[m + 1].wire[c].received, id) == []
    ensures id in gs[m + 1].runs && OnlyRetries(gs[m + 1].runs[id].log)
  {
    NeverSubscribedNeverHeard(tr, gs, m, c, id);
    Reachable(tr, gs, m);
    assert Next(tr, gs, m) && MaySubscribe(gs[m], c, id);
    var run := gs[m].runs[id];
    assert !run.closed && RunOk(run);
  }

  /** A first subscriber that stays until the execution is closed has received a suffix of the
      initiator's complete stream, ending in its `done` event. */
  lemma StayingSubscriberSeesSuffix(tr: seq<Action>, gs: seq<Gateway>, m: nat, n: nat, c: Id, id: Id)
    requires Behaviour(tr, gs) && m < n <= |tr|
    requires tr[m] == Subscribe(c, id) && Hears(gs[m + 1], c, id)
    requires forall j :: 0 <= j < m ==> tr[j] != Subscribe(c, id)
    requires forall j :: m < j < n ==> Keeps(tr[j], c, id)
    requires id in gs[n].runs && gs[n].runs[id].closed
    ensures c in gs[n].wire
    ensures var log := gs[n].runs[id].log;
      exists k :: 0 <= k < |log| && Heard(gs[n].wire[c].received, id) == log[k..] && log[|log| - 1].Done?
  {
    FirstSubscribe(tr, gs, m, c, id);
    SubscriberHearsTheRest(tr, gs, m + 1, n, c, id);
    ClosedStreamIsComplete(tr, gs, n, id);
    var run, before := gs[n].runs[id], gs[m + 1].runs[id].log;
    R.CompleteStreamShape(run.cfg, run.machine.signal, run.log);
    var k := |before|;
    assert forall i :: 0 <= i < k ==> run.log[i] == before[i];
    assert [] + run.log[k..] == run.log[k..];
  }
}
