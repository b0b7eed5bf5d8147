/** The handlers of the gateway process over its three shared registries: each performs one action of
    the step system on them. */
module GatewayProcess {
  import opened Collections
  import opened Messages
  import R = RetryMachine
  import opened Routing
  import X = Executions
  import S = Subscriptions
  import D = Dispatcher
  import opened GatewaySystem
  import opened GatewayInvariants
  import opened GatewayHistory

  /** The error codes a client is sent. */
  datatype ClientError = ExecutionNotFound | Forbidden | CancelFailed

  datatype ClientMessage = SubscribeTo(id: Id) | UnsubscribeFrom(id: Id) | CancelIt(id: Id, reason: Option<Reason>)

  lemma BroadcastOneMore(g: Gateway, id: Id, events: seq<Event>, e: Event)
    requires g.sockets <= g.wire.Keys
    ensures var hears := set c | c in g.sockets && (c, id) in g.pairs;
      S.Delivered(Broadcast(g, id, events), hears, S.Delivery(id, e)) == Broadcast(g, id, events + [e])
  {
    assert (events + [e])[..|events|] == events;
    var hears := set c | c in g.sockets && (c, id) in g.pairs;
    forall c | c in g.wire
      ensures S.Delivered(Broadcast(g, id, events), hears, S.Delivery(id, e))[c] == Broadcast(g, id, events + [e])[c]
    {
      assert g.wire[c].received + Tagged(id, events) + [S.Delivery(id, e)]
          == g.wire[c].received + (Tagged(id, events) + [S.Delivery(id, e)]);
    }
  }

  function Logged(runs: map<Id, Run>, id: Id, events: seq<Event>): map<Id, Run>
    requires id in runs
  {
    runs[id := runs[id].(log := runs[id].log + events)]
  }

  lemma LoggedOneMore(runs: map<Id, Run>, id: Id, events: seq<Event>, e: Event)
    requires id in runs
    ensures Logged(Logged(runs, id, events), id, [e]) == Logged(runs, id, events + [e])
  {
    assert runs[id].log + events + [e] == runs[id].log + (events + [e]);
  }

  lemma BroadcastNothing(g: Gateway, id: Id)
    ensures Broadcast(g, id, []) == g.wire
  {
    forall c | c in g.wire ensures Broadcast(g, id, [])[c] == g.wire[c] {
      assert g.wire[c].received + Tagged(id, []) == g.wire[c].received;
    }
  }

  class Process {
    const dispatcher: D.HostCallDispatcher
    const executions: X.ExecutionRegistry
    const subscriptions: S.SubscriptionRegistry
    var sessions: map<Id, Session>
    var runs: map<Id, Run>
    var clients: map<Id, Id>

    ghost predicate Valid()
      reads this, executions, subscriptions
    {
      subscriptions.Valid() && X.Ordered(executions.View()) && executions.entries.Keys <= runs.Keys
    }

    ghost function View(): Gateway
      reads this, dispatcher, executions, subscriptions
    {
      Gateway(dispatcher.RouteView(), sessions, executions.View(), runs, clients,
              subscriptions.sockets, subscriptions.wire, subscriptions.Pairs())
    }

    constructor ()
      ensures Valid() && View() == INITIAL && fresh(dispatcher) && fresh(executions) && fresh(subscriptions)
    {
      dispatcher := new D.HostCallDispatcher();
      executions := new X.ExecutionRegistry();
      subscriptions := new S.SubscriptionRegistry();
      sessions, runs, clients := map[], map[], map[];
    }

    // ---------- hosts ----------

    method OnHostConnect(conn: Id, namespaceId: Id, hostId: Id, capabilities: seq<string>)
      requires Valid() && Legal(View(), HostConnects(conn, namespaceId, hostId, capabilities))
      modifies this`sessions, dispatcher
      ensures Valid() && View() == Step(old(View()), HostConnects(conn, namespaceId, hostId, capabilities))
    {
      dispatcher.RegisterConnection(hostId, namespaceId, conn, capabilities);
      sessions := sessions[conn := Session(namespaceId, hostId)];
    }

    /** Drops the route and cancels every execution of the host, with the reason "disconnect"; returns the
        cancelled ones. */
    method OnHostClose(conn: Id) returns (cancelled: seq<Id>)
      requires Valid() && Legal(View(), HostCloses(conn))
      modifies this`sessions, this`runs, dispatcher, executions
      ensures Valid() && View() == Step(old(View()), HostCloses(conn))
      ensures cancelled == X.Victims(old(executions.View()), old(sessions)[conn].host, old(executions.order))
      ensures Agreed(old(View())) ==> HostLost(old(View()), View(), old(sessions)[conn], conn)
    {
      ghost var g := View();
      cancelled := LoseHost(conn);
      if Agreed(g) { HostClosesEffect(g, conn); }
    }

    method LoseHost(conn: Id) returns (cancelled: seq<Id>)
      requires Valid() && Legal(View(), HostCloses(conn))
      modifies this`sessions, this`runs, dispatcher, executions
      ensures Valid() && View() == Step(old(View()), HostCloses(conn))
      ensures cancelled == X.Victims(old(executions.View()), old(sessions)[conn].host, old(executions.order))
    {
      var s := sessions[conn];
      ghost var before := executions.View();
      dispatcher.RemoveConnection(s.host, s.ns);
      cancelled := executions.CancelByHostId(s.host, DISCONNECT);
      X.VictimsExact(before, s.host, before.order);
      assert (set id | id in cancelled) == X.VictimSet(before, s.host);
      runs := AbortRuns(runs, (set id | id in cancelled), DISCONNECT);
      sessions := sessions - {conn};
    }

    // ---------- executions ----------

    /** Accepts the execution if a host can take it: 200, or 503. */
    method OnExecute(executionId: Id, namespaceId: Id, cfg: R.Config) returns (status: int)
      requires Valid() && Legal(View(), Execute(executionId, namespaceId, cfg))
      modifies this`runs, executions
      ensures Valid() && View() == Step(old(View()), Execute(executionId, namespaceId, cfg))
      ensures status == if First(old(View()).routes, namespaceId, "execution").Some? then 200 else 503
      ensures status == 503 ==> View() == old(View())
      ensures Agreed(old(View())) && status == 200 ==>
        AcceptedOn(old(View()), View(), executionId, namespaceId, First(old(View()).routes, namespaceId, "execution").value, cfg)
    {
      ghost var g := View();
      var hostId := dispatcher.FirstHostWithCapability(namespaceId, EXECUTION);
      if hostId.None? { return 503; }
      Admit(executionId, namespaceId, hostId.value, cfg);
      if Agreed(g) { ExecuteEffect(g, executionId, namespaceId, cfg); }
      status := 200;
    }

    /** Registers the execution and starts its run. */
    method Admit(executionId: Id, namespaceId: Id, hostId: Id, cfg: R.Config)
      requires Valid() && First(View().routes, namespaceId, EXECUTION) == Some(hostId)
      modifies this`runs, executions
      ensures Valid() && View() == Accept(old(View()), executionId, namespaceId, cfg)
    {
      executions.RegisterExecution(executionId, namespaceId, hostId);
      runs := runs[executionId := Run(namespaceId, hostId, cfg, R.Start(None), [], false)];
    }

    /** Writes to the initiator and broadcasts to the observers, event by event. */
    method WriteEvents(executionId: Id, events: seq<Event>)
      requires Valid() && executionId in runs
      modifies this`runs, subscriptions`wire
      ensures Valid()
      ensures runs == Logged(old(runs), executionId, events)
      ensures subscriptions.wire == Broadcast(old(View()), executionId, events)
    {
      ghost var g := View();
      var i := 0;
      BroadcastNothing(g, executionId);
      assert runs[executionId].log + [] == runs[executionId].log;
      while i < |events|
        invariant 0 <= i <= |events| && Valid()
        invariant subscriptions.sockets == g.sockets && subscriptions.Pairs() == g.pairs
        invariant executionId in runs
        invariant runs == Logged(g.runs, executionId, events[..i])
        invariant subscriptions.wire == Broadcast(g, executionId, events[..i])
      {
        BroadcastOneMore(g, executionId, events[..i], events[i]);
        assert events[..i + 1] == events[..i] + [events[i]];
        LoggedOneMore(g.runs, executionId, events[..i], events[i]);
        var run := runs[executionId];
        runs := runs[executionId := run.(log := run.log + [events[i]])];
        subscriptions.Broadcast(executionId, events[i]);
        i := i + 1;
      }
      assert events[..i] == events;
    }

    /** The execute handler runs on: a call settles, a timer fires, or the code after it continues. When
        the retry executor has ended, the handler writes the closing events and removes the entry. */
    method Continue(executionId: Id, stimulus: R.Stimulus)
      requires Valid() && Legal(View(), Advance(executionId, stimulus))
      modifies this`runs, executions, subscriptions`wire
      ensures Valid() && View() == Step(old(View()), Advance(executionId, stimulus))
    {
      if runs[executionId].machine.phase.Ended? && stimulus == R.Proceed {
        Finish(executionId);
      } else {
        MoveOn(executionId, stimulus);
      }
    }

    /** The handler's last part: the closing events, and the `finally`. */
    method Finish(executionId: Id)
      requires Valid() && Legal(View(), Advance(executionId, R.Proceed)) && runs[executionId].machine.phase.Ended?
      modifies this`runs, executions, subscriptions`wire
      ensures Valid() && View() == Advanced(old(View()), executionId, R.Proceed)
    {
      WriteEvents(executionId, R.Closing(runs[executionId].machine.phase.outcome));
      runs := runs[executionId := runs[executionId].(closed := true)];
      executions.RemoveExecution(executionId);
    }

    method MoveOn(executionId: Id, stimulus: R.Stimulus)
      requires Valid() && Legal(View(), Advance(executionId, stimulus))
      requires !(runs[executionId].machine.phase.Ended? && stimulus == R.Proceed)
      modifies this`runs, subscriptions`wire
      ensures Valid() && View() == Advanced(old(View()), executionId, stimulus)
    {
      var run := runs[executionId];
      var (machine, out) := R.Step(run.cfg, run.machine, stimulus);
      WriteEvents(executionId, out);
      runs := runs[executionId := runs[executionId].(machine := machine)];
    }

    /** Cancels and, on success, aborts the run through its signal. */
    method Cancel(executionId: Id, reason: Reason) returns (ok: bool)
      requires Valid()
      modifies this`runs, executions
      ensures Valid() && View() == CancelOne(old(View()), executionId, reason)
      ensures ok == X.Cancellable(old(executions.View()), executionId)
    {
      ok := executions.CancelExecution(executionId, reason);
      if ok { runs := AbortRuns(runs, {executionId}, reason); }
    }

    /** POST .../cancel: 404 unknown, 403 foreign, 200 cancelled, 409 cancelled before. */
    method OnCancelRequest(executionId: Id, namespaceId: Id, given: Option<Reason>) returns (status: int)
      requires Valid()
      modifies this`runs, executions
      ensures Valid()
      ensures View() == Step(old(View()), CancelRequest(executionId, namespaceId, R.OrElse(given, "user")))
      ensures var entries := old(executions.entries);
        status == if executionId !in entries then 404
                  else if entries[executionId].ns != namespaceId then 403
                  else if entries[executionId].signal.None? then 200
                  else 409
      ensures status != 200 ==> View() == old(View())
      ensures Agreed(old(View())) && status == 200 ==>
        && OnlyHit(old(View()), View(), {executionId}, if given.Some? then given.value else "user")
        && View().routes == old(View()).routes
    {
      if Agreed(View()) { CancelRequestEffect(View(), executionId, namespaceId, R.OrElse(given, "user")); }
      if executionId !in executions.entries { return 404; }
      if executions.entries[executionId].ns != namespaceId { return 403; }
      var cancelled := Cancel(executionId, R.OrElse(given, "user"));
      status := if cancelled then 200 else 409;
    }

    /** The initiator's connection closes before its stream has finished. */
    method OnInitiatorGone(executionId: Id)
      requires Valid() && RegistryOk(View()) && Legal(View(), InitiatorLeaves(executionId))
      modifies this`runs, executions
      ensures Valid() && View() == Step(old(View()), InitiatorLeaves(executionId))
      ensures if executionId in old(executions.entries) && old(executions.entries)[executionId].signal.None? then
          OnlyHit(old(View()), View(), {executionId}, "disconnect") && View().routes == old(View()).routes
        else View() == old(View())
    {
      RegistryAgrees(View());
      InitiatorLeavesEffect(View(), executionId);
      assert executionId in executions.entries ==> EntryOk(executions.entries[executionId], runs[executionId]);
      if runs[executionId].machine.signal.None? {
        var _ := Cancel(executionId, DISCONNECT);
      }
    }

    // ---------- observers ----------

    method OnClientConnect(client: Id, namespaceId: Id)
      requires Valid() && Legal(View(), ClientConnects(client, namespaceId))
      modifies this`clients, subscriptions
      ensures Valid() && View() == Step(old(View()), ClientConnects(client, namespaceId))
    {
      subscriptions.RegisterSocket(client);
      clients := clients[client := namespaceId];
    }

    method OnClientClose(client: Id)
      requires Valid() && Legal(View(), ClientCloses(client))
      modifies subscriptions
      ensures Valid() && View() == Step(old(View()), ClientCloses(client))
    {
      var _ := subscriptions.RemoveConnection(client);
      subscriptions.CloseSocket(client);
    }

    /** A message of a connected client, and the error it is answered with, if any. */
    method OnClientMessage(client: Id, msg: ClientMessage) returns (reply: Option<ClientError>)
      requires Valid() && client in subscriptions.sockets && client in clients
      modifies this`runs, executions, subscriptions
      ensures Valid()
      ensures View() == match msg
        case SubscribeTo(id) => Step(old(View()), Subscribe(client, id))
        case UnsubscribeFrom(id) => Step(old(View()), Unsubscribe(client, id))
        case CancelIt(id, reason) => Step(old(View()), CancelRequest(id, old(clients)[client], R.OrElse(reason, "user")))
      ensures var entries := old(executions.entries);
        reply == if msg.UnsubscribeFrom? then None
                 else if msg.id !in entries then Some(ExecutionNotFound)
                 else if entries[msg.id].ns != old(clients)[client] then Some(Forbidden)
                 else if msg.CancelIt? && entries[msg.id].signal.Some? then Some(CancelFailed)
                 else None
      ensures reply.Some? ==> View() == old(View())
      ensures msg.SubscribeTo? && reply.None? ==> View() == old(View()).(pairs := old(View()).pairs + {(client, msg.id)})
      ensures msg.UnsubscribeFrom? ==> View() == old(View()).(pairs := old(View()).pairs - {(client, msg.id)})
      ensures Agreed(old(View())) && msg.CancelIt? && reply.None? ==>
        && OnlyHit(old(View()), View(), {msg.id}, if msg.reason.Some? then msg.reason.value else "user")
        && View().routes == old(View()).routes
    {
      if msg.UnsubscribeFrom? {
        subscriptions.Unsubscribe(client, msg.id);
        return None;
      }
      if msg.id !in executions.entries { return Some(ExecutionNotFound); }
      if executions.entries[msg.id].ns != clients[client] { return Some(Forbidden); }
      if msg.SubscribeTo? {
        subscriptions.Subscribe(client, msg.id);
        return None;
      }
      var cancelled := CancelFor(client, msg.id, R.OrElse(msg.reason, "user"));
      reply := if cancelled then None else Some(CancelFailed);
    }

    /** The cancelling part of a client's message, after its guards. */
    method CancelFor(client: Id, executionId: Id, reason: Reason) returns (ok: bool)
      requires Valid() && client in clients
      requires executionId in executions.entries && executions.entries[executionId].ns == clients[client]
      modifies this`runs, executions
      ensures Valid() && View() == Step(old(View()), CancelRequest(executionId, clients[client], reason))
      ensures ok == old(executions.entries)[executionId].signal.None?
      ensures !ok ==> View() == old(View())
      ensures Agreed(old(View())) && ok ==> OnlyHit(old(View()), View(), {executionId}, reason) && View().routes == old(View()).routes
    {
      if Agreed(View()) { CancelRequestEffect(View(), executionId, clients[client], reason); }
      ok := Cancel(executionId, reason);
    }
  }
}
