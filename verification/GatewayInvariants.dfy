/** What holds in every reachable state of the gateway, and what follows for whole executions. */
module GatewayInvariants {
  import opened Collections
  import opened Messages
  import R = RetryMachine
  import opened Routing
  import X = Executions
  import opened Subscriptions
  import opened GatewaySystem

  /** The routing table names open sockets of the right host. */
  ghost predicate RoutesOk(g: Gateway) {
    && Indexed(g.routes)
    && (forall ns, host :: Connected(g.routes, ns, host) ==>
          var conn := g.routes.connections[ns][host];
          conn in g.sessions && g.sessions[conn] == Session(ns, host))
  }

  /** The registry holds exactly the runs that are not closed; registry, signal and run agree. */
  ghost predicate RegistryOk(g: Gateway) {
    && X.Ordered(g.executions)
    && (forall id :: id in g.executions.entries <==> id in g.runs && !g.runs[id].closed)
    && (forall id :: id in g.executions.entries ==> EntryOk(g.executions.entries[id], g.runs[id]))
  }

  ghost predicate EntryOk(e: X.Execution, run: Run) {
    e == X.Execution(run.ns, run.host, run.machine.signal, run.machine.signal)
  }

  /** No orphans: an execution that is registered and not aborted has its host connected. */
  ghost predicate NoOrphans(g: Gateway) {
    forall id :: X.Cancellable(g.executions, id) ==>
      Connected(g.routes, g.executions.entries[id].ns, g.executions.entries[id].host)
  }

  ghost predicate RunOk(run: Run) {
    if run.closed then
      run.machine.phase.Ended? && R.CompleteStream(run.cfg, run.machine.signal, run.log)
    else
      R.Coherent(run.cfg, run.machine, run.log)
  }

  ghost predicate RunsOk(g: Gateway) {
    forall id :: id in g.runs ==> RunOk(g.runs[id])
  }

  /** Subscriptions and deliveries stay within the observer's namespace and name known executions. */
  ghost predicate ObserversOk(g: Gateway) {
    && g.sockets <= g.wire.Keys == g.clients.Keys
    && (forall c, id :: (c, id) in g.pairs ==> c in g.sockets && id in g.runs && g.runs[id].ns == g.clients[c])
    && (forall c, i :: c in g.wire && 0 <= i < |g.wire[c].received| ==>
          var id := g.wire[c].received[i].execution;
          id in g.runs && g.runs[id].ns == g.clients[c])
  }

  ghost predicate Inv(g: Gateway) {
    RoutesOk(g) && RegistryOk(g) && NoOrphans(g) && RunsOk(g) && ObserversOk(g)
  }

  lemma InitInv()
    ensures Inv(INITIAL)
  {
  }

  // ---------- one step ----------

  lemma ConnectRoutes(g: Gateway, conn: Id, ns: Id, host: Id, caps: seq<string>)
    requires RoutesOk(g) && conn !in g.sessions
    ensures RoutesOk(g.(routes := Register(g.routes, host, ns, conn, caps), sessions := g.sessions[conn := Session(ns, host)]))
  {
    RegisterKeepsIndex(g.routes, host, ns, conn, caps);
    var r := Register(g.routes, host, ns, conn, caps);
    forall n, h | Connected(r, n, h)
      ensures var c := r.connections[n][h]; if n == ns && h == host then c == conn else Connected(g.routes, n, h) && c == g.routes.connections[n][h]
    {
      RegisterAt(g.routes, host, ns, conn, caps, n, h, "");
    }
  }

  lemma CloseRoutes(g: Gateway, conn: Id)
    requires RoutesOk(g) && conn in g.sessions
    ensures var s := g.sessions[conn]; RoutesOk(g.(routes := Remove(g.routes, s.host, s.ns), sessions := g.sessions - {conn}))
  {
    var s := g.sessions[conn];
    var r := Remove(g.routes, s.host, s.ns);
    RemoveKeepsIndex(g.routes, s.host, s.ns);
    forall n, h | Connected(r, n, h)
      ensures Connected(g.routes, n, h) && !(n == s.ns && h == s.host) && r.connections[n][h] == g.routes.connections[n][h]
    {
      RemoveAt(g.routes, s.host, s.ns, n, h, "");
    }
  }

  lemma SameRoutes(g: Gateway, g': Gateway)
    requires RoutesOk(g) && g'.routes == g.routes && g'.sessions == g.sessions
    ensures RoutesOk(g')
  {
  }

  lemma StepRoutes(g: Gateway, a: Action)
    requires RoutesOk(g) && Legal(g, a)
    ensures RoutesOk(Step(g, a))
  {
    match a
    case HostConnects(conn, ns, host, caps) => ConnectRoutes(g, conn, ns, host, caps);
    case HostCloses(conn) =>
      var s := g.sessions[conn];
      CloseRoutes(g, conn);
      SameRoutes(g.(routes := Remove(g.routes, s.host, s.ns), sessions := g.sessions - {conn}), Step(g, a));
    case _ => SameRoutes(g, Step(g, a));
  }

  lemma FirstIsConnected(r: Routes, ns: Id, hosts: seq<Id>)
    ensures var f := FirstConnected(r, ns, hosts); f.Some? ==> f.value in hosts && Connected(r, ns, f.value)
  {
  }

  lemma StepNoOrphans(g: Gateway, a: Action)
    requires RoutesOk(g) && NoOrphans(g) && Legal(g, a)
    ensures NoOrphans(Step(g, a))
  {
    match a
    case HostConnects(conn, ns, host, caps) =>
      forall n, h | Connected(g.routes, n, h) ensures Connected(Step(g, a).routes, n, h) {
        RegisterAt(g.routes, host, ns, conn, caps, n, h, "");
      }
    case HostCloses(conn) =>
      var s := g.sessions[conn];
      forall n, h | Connected(g.routes, n, h) && h != s.host ensures Connected(Step(g, a).routes, n, h) {
        RemoveAt(g.routes, s.host, s.ns, n, h, "");
      }
    case Execute(id, ns, cfg) =>
      FirstIsConnected(g.routes, ns, Holders(g.routes, ns, EXECUTION));
    case _ =>
  }

  lemma AbortedRunOk(run: Run, reason: Reason)
    requires !run.closed && RunOk(run)
    ensures RunOk(run.(machine := R.Aborted(run.machine, reason)))
  {
    R.StepCoherent(run.cfg, run.machine, run.log, R.Abort(reason));
    assert run.log + [] == run.log;
  }

  /** A cancellation changes the entry, the signal and the run alike. */
  lemma CancelAgrees(g: Gateway, id: Id, reason: Reason)
    requires RegistryOk(g)
    ensures RegistryOk(CancelOne(g, id, reason))
  {
    if X.Cancellable(g.executions, id) { assert EntryOk(g.executions.entries[id], g.runs[id]); }
  }

  lemma HostGoneAgrees(g: Gateway, s: Session)
    requires RegistryOk(g)
    ensures RegistryOk(HostGone(g, s))
  {
    forall id | id in g.executions.entries
      ensures EntryOk(HostGone(g, s).executions.entries[id], HostGone(g, s).runs[id])
    {
      assert EntryOk(g.executions.entries[id], g.runs[id]);
    }
  }

  lemma AdvancedAgrees(g: Gateway, id: Id, stimulus: R.Stimulus)
    requires RegistryOk(g) && Legal(g, Advance(id, stimulus))
    ensures RegistryOk(Advanced(g, id, stimulus))
  {
    assert R.Step(g.runs[id].cfg, g.runs[id].machine, stimulus).0.signal == g.runs[id].machine.signal;
    assert EntryOk(g.executions.entries[id], g.runs[id]);
  }

  lemma AcceptAgrees(g: Gateway, id: Id, ns: Id, cfg: R.Config)
    requires RegistryOk(g) && id !in g.runs
    ensures RegistryOk(Accept(g, id, ns, cfg))
  {
    assert id !in g.executions.entries;
    if First(g.routes, ns, EXECUTION).Some? {
      var host := First(g.routes, ns, EXECUTION).value;
      X.RegisterKeepsOrdered(g.executions, id, ns, host);
      var g' := Accept(g, id, ns, cfg);
      forall x | x in g'.executions.entries ensures EntryOk(g'.executions.entries[x], g'.runs[x]) {
        if x != id { assert EntryOk(g.executions.entries[x], g.runs[x]); }
      }
    }
  }

  lemma SameRegistry(g: Gateway, g': Gateway)
    requires RegistryOk(g) && g'.executions == g.executions && g'.runs == g.runs
    ensures RegistryOk(g')
  {
  }

  lemma StepRegistry(g: Gateway, a: Action)
    requires RegistryOk(g) && Legal(g, a)
    ensures RegistryOk(Step(g, a))
  {
    match a
    case HostCloses(conn) =>
      HostGoneAgrees(g, g.sessions[conn]);
      SameRegistry(HostGone(g, g.sessions[conn]), Step(g, a));
    case Execute(id, ns, cfg) => AcceptAgrees(g, id, ns, cfg);
    case Advance(id, stimulus) => AdvancedAgrees(g, id, stimulus);
    case CancelRequest(id, ns, reason) =>
      if id in g.executions.entries && g.executions.entries[id].ns == ns { CancelAgrees(g, id, reason); }
    case InitiatorLeaves(id) => CancelAgrees(g, id, DISCONNECT);
    case _ => SameRegistry(g, Step(g, a));
  }

  /** What is registered is not closed. */
  ghost predicate LiveOnly(g: Gateway) {
    forall id :: id in g.executions.entries ==> id in g.runs && !g.runs[id].closed
  }

  lemma AbortedRunsOk(runs: map<Id, Run>, hit: set<Id>, reason: Reason)
    requires forall id :: id in runs ==> RunOk(runs[id])
    requires forall id :: id in hit && id in runs ==> !runs[id].closed
    ensures forall id :: id in runs ==> RunOk(AbortRuns(runs, hit, reason)[id])
  {
    forall id | id in runs ensures RunOk(AbortRuns(runs, hit, reason)[id]) {
      if id in hit { AbortedRunOk(runs[id], reason); }
    }
  }

  lemma CancelledRunsOk(g: Gateway, id: Id, reason: Reason)
    requires LiveOnly(g) && RunsOk(g)
    ensures RunsOk(CancelOne(g, id, reason))
  {
    if X.Cancellable(g.executions, id) { AbortedRunsOk(g.runs, {id}, reason); }
  }

  lemma AcceptedRunsOk(g: Gateway, id: Id, ns: Id, cfg: R.Config)
    requires RunsOk(g)
    ensures RunsOk(Accept(g, id, ns, cfg))
  {
  }

  lemma StepRuns(g: Gateway, a: Action)
    requires LiveOnly(g) && RunsOk(g) && Legal(g, a)
    ensures RunsOk(Step(g, a))
  {
    match a
    case Advance(id, stimulus) => AdvanceRun(g, id, stimulus);
    case Execute(id, ns, cfg) => AcceptedRunsOk(g, id, ns, cfg);
    case HostCloses(conn) => AbortedRunsOk(g.runs, X.VictimSet(g.executions, g.sessions[conn].host), DISCONNECT);
    case CancelRequest(id, _, reason) => CancelledRunsOk(g, id, reason);
    case InitiatorLeaves(id) => CancelledRunsOk(g, id, DISCONNECT);
    case _ =>
  }

  lemma AdvanceRun(g: Gateway, id: Id, stimulus: R.Stimulus)
    requires RunsOk(g) && Legal(g, Advance(id, stimulus))
    ensures RunOk(Advanced(g, id, stimulus).runs[id])
  {
    var run := g.runs[id];
    assert RunOk(run);
    if run.machine.phase.Ended? && stimulus == R.Proceed {
      var o := run.machine.phase.outcome;
      var log := run.log + R.Closing(o);
      assert log[..|run.log|] == run.log && log[|run.log|..] == R.Closing(o);
      assert R.Stream(run.cfg, run.machine.signal, log, |run.log|, o);
    } else {
      R.StepCoherent(run.cfg, run.machine, run.log, stimulus);
    }
  }

  /** A broadcast names one execution and reaches only its subscribers. */
  lemma AdvanceObservers(g: Gateway, id: Id, stimulus: R.Stimulus)
    requires ObserversOk(g) && Legal(g, Advance(id, stimulus))
    ensures ObserversOk(Advanced(g, id, stimulus))
  {
    var g' := Advanced(g, id, stimulus);
    forall c, i | c in g'.wire && 0 <= i < |g'.wire[c].received|
      ensures var x := g'.wire[c].received[i].execution; x in g'.runs && g'.runs[x].ns == g'.clients[c]
    {
      if i < |g.wire[c].received| {
        assert g'.wire[c].received[i] == g.wire[c].received[i];
      } else {
        assert (c, id) in g.pairs && g'.wire[c].received[i].execution == id;
      }
    }
  }

  /** Nothing changed for the observers, and no run was renamed or dropped. */
  lemma RunsObservers(g: Gateway, g': Gateway)
    requires ObserversOk(g)
    requires g'.clients == g.clients && g'.wire == g.wire && g'.sockets == g.sockets && g'.pairs == g.pairs
    requires forall id :: id in g.runs ==> id in g'.runs && g'.runs[id].ns == g.runs[id].ns
    ensures ObserversOk(g')
  {
  }

  lemma ClosingObservers(g: Gateway, c: Id)
    requires ObserversOk(g) && c in g.wire
    ensures ObserversOk(g.(wire := g.wire[c := Closing(g.wire[c])]))
  {
  }

  lemma ClosedObservers(g: Gateway, c: Id)
    requires ObserversOk(g) && c in g.sockets
    ensures ObserversOk(Step(g, ClientCloses(c)))
  {
    ClosingObservers(g, c);
  }

  lemma ConnectObservers(g: Gateway, c: Id, ns: Id)
    requires ObserversOk(g) && c !in g.clients
    ensures ObserversOk(g.(clients := g.clients[c := ns], sockets := g.sockets + {c}, wire := g.wire[c := Socket(true, [])]))
  {
  }

  lemma SubscribeObservers(g: Gateway, c: Id, id: Id)
    requires ObserversOk(g) && RegistryOk(g) && c in g.sockets && MaySubscribe(g, c, id)
    ensures ObserversOk(g.(pairs := g.pairs + {(c, id)}))
  {
    assert EntryOk(g.executions.entries[id], g.runs[id]);
  }

  ghost predicate ForClients(a: Action) {
    a.ClientConnects? || a.ClientClosing? || a.ClientCloses? || a.Subscribe? || a.Unsubscribe?
  }

  lemma ClientObservers(g: Gateway, a: Action)
    requires RegistryOk(g) && ObserversOk(g) && Legal(g, a) && ForClients(a)
    ensures ObserversOk(Step(g, a))
  {
    match a
    case ClientConnects(c, ns) => ConnectObservers(g, c, ns);
    case ClientClosing(c) => ClosingObservers(g, c);
    case ClientCloses(c) => ClosedObservers(g, c);
    case Subscribe(c, id) => if MaySubscribe(g, c, id) { SubscribeObservers(g, c, id); }
    case Unsubscribe(c, id) =>
  }

  /** Everything else but a run going on leaves the observers and the runs' names alone. */
  lemma OthersKeepObservers(g: Gateway, a: Action)
    requires Legal(g, a) && !ForClients(a) && !a.Advance?
    ensures var g' := Step(g, a);
      g'.clients == g.clients && g'.wire == g.wire && g'.sockets == g.sockets && g'.pairs == g.pairs
  {
  }

  lemma OthersKeepNames(g: Gateway, a: Action)
    requires Legal(g, a) && !ForClients(a) && !a.Advance?
    ensures forall id :: id in g.runs ==> id in Step(g, a).runs && Step(g, a).runs[id].ns == g.runs[id].ns
  {
  }

  lemma StepObservers(g: Gateway, a: Action)
    requires RegistryOk(g) && ObserversOk(g) && Legal(g, a)
    ensures ObserversOk(Step(g, a))
  {
    if a.Advance? {
      AdvanceObservers(g, a.id, a.stimulus);
    } else if ForClients(a) {
      ClientObservers(g, a);
    } else {
      OthersKeepObservers(g, a);
      OthersKeepNames(g, a);
      RunsObservers(g, Step(g, a));
    }
  }

  lemma StepInv(g: Gateway, a: Action)
    requires Inv(g) && Legal(g, a)
    ensures Inv(Step(g, a))
  {
    StepRoutes(g, a);
    StepRegistry(g, a);
    StepNoOrphans(g, a);
    assert LiveOnly(g);
    StepRuns(g, a);
    StepObservers(g, a);
  }

  lemma {:induction false} Reachable(tr: seq<Action>, gs: seq<Gateway>, i: nat)
    requires Behaviour(tr, gs) && i <= |tr|
    ensures Inv(gs[i])
  {
    if i == 0 {
      InitInv();
    } else {
      Reachable(tr, gs, i - 1);
      assert Next(tr, gs, i - 1);
      StepInv(gs[i - 1], tr[i - 1]);
    }
  }

  // ---------- whole behaviours ----------

  /** No orphaned execution, whatever host sockets open, overlap and close: as long as an execution is
      registered and not aborted, its host is connected, through a socket of that host that is open. */
  lemma NoOrphanedExecution(tr: seq<Action>, gs: seq<Gateway>, i: nat, id: Id)
    requires Behaviour(tr, gs) && i <= |tr| && X.Cancellable(gs[i].executions, id)
    ensures var e := gs[i].executions.entries[id];
      Connected(gs[i].routes, e.ns, e.host)
      && exists conn :: conn in gs[i].sessions && gs[i].sessions[conn] == Session(e.ns, e.host)
  {
    Reachable(tr, gs, i);
    var e := gs[i].executions.entries[id];
    assert gs[i].routes.connections[e.ns][e.host] in gs[i].sessions;
  }

  /** So a dispatch always finds its host: as long as an execution is not closed and its signal not
      aborted, an attempt included, the host it was accepted on is connected, on an open socket of it. */
  lemma DispatchFindsItsHost(tr: seq<Action>, gs: seq<Gateway>, i: nat, id: Id)
    requires Behaviour(tr, gs) && i <= |tr| && id in gs[i].runs
    requires !gs[i].runs[id].closed && gs[i].runs[id].machine.signal.None?
    ensures var run := gs[i].runs[id];
      && Connected(gs[i].routes, run.ns, run.host)
      && Open(gs[i], gs[i].routes.connections[run.ns][run.host], run.ns, run.host)
  {
    Reachable(tr, gs, i);
    assert EntryOk(gs[i].executions.entries[id], gs[i].runs[id]);
    assert X.Cancellable(gs[i].executions, id);
  }

  ghost predicate Open(g: Gateway, conn: Id, ns: Id, host: Id) {
    conn in g.sessions && g.sessions[conn] == Session(ns, host)
  }

  /** When an execution is over, its initiator's stream is complete by the grammar, the reason it
      reports is the signal's, and its registry entry is gone; until then it is registered. */
  lemma ClosedStreamIsComplete(tr: seq<Action>, gs: seq<Gateway>, i: nat, id: Id)
    requires Behaviour(tr, gs) && i <= |tr| && id in gs[i].runs
    ensures var run := gs[i].runs[id];
      && (run.closed <==> id !in gs[i].executions.entries)
      && (run.closed ==> R.CompleteStream(run.cfg, run.machine.signal, run.log))
      && (!run.closed ==> forall k :: 0 <= k < |run.log| ==> run.log[k].Retry? && run.log[k].attempt == k + 1)
  {
    Reachable(tr, gs, i);
    assert RunOk(gs[i].runs[id]);
  }

  /** What one action can do to an accepted execution: its place, config and past output stay, a closed
      run stays as it is, and an aborted signal keeps its reason and lets no further call start. */
  ghost predicate Continues(before: Run, after: Run) {
    && (after.ns, after.host, after.cfg) == (before.ns, before.host, before.cfg)
    && before.log <= after.log
    && (before.closed ==> after == before)
    && (before.machine.signal.Some? ==>
        after.machine.signal == before.machine.signal && after.machine.dispatches == before.machine.dispatches)
  }

  lemma AbortContinues(runs: map<Id, Run>, hit: set<Id>, reason: Reason, id: Id)
    requires id in runs && (id in hit ==> !runs[id].closed)
    ensures Continues(runs[id], AbortRuns(runs, hit, reason)[id])
  {
  }

  lemma AdvanceContinues(g: Gateway, id: Id, stimulus: R.Stimulus)
    requires Legal(g, Advance(id, stimulus))
    ensures Continues(g.runs[id], Advanced(g, id, stimulus).runs[id])
  {
    var run := g.runs[id];
    if run.machine.signal.Some? { R.NoDispatchAfterAbortStep(run.cfg, run.machine, stimulus); }
  }

  lemma CancelContinues(g: Gateway, x: Id, reason: Reason, id: Id)
    requires LiveOnly(g) && id in g.runs
    ensures id in CancelOne(g, x, reason).runs && Continues(g.runs[id], CancelOne(g, x, reason).runs[id])
  {
    if X.Cancellable(g.executions, x) { AbortContinues(g.runs, {x}, reason, id); }
  }

  lemma HostGoneContinues(g: Gateway, s: Session, id: Id)
    requires LiveOnly(g) && id in g.runs
    ensures id in HostGone(g, s).runs && Continues(g.runs[id], HostGone(g, s).runs[id])
  {
    AbortContinues(g.runs, X.VictimSet(g.executions, s.host), DISCONNECT, id);
  }

  lemma SameContinues(run: Run)
    ensures Continues(run, run)
  {
  }

  lemma StepContinues(g: Gateway, a: Action, id: Id)
    requires LiveOnly(g) && Legal(g, a) && id in g.runs
    ensures id in Step(g, a).runs && Continues(g.runs[id], Step(g, a).runs[id])
  {
    SameContinues(g.runs[id]);
    match a
    case Advance(x, stimulus) => if x == id { AdvanceContinues(g, id, stimulus); }
    case HostCloses(conn) => HostGoneContinues(g, g.sessions[conn], id);
    case CancelRequest(x, _, reason) => CancelContinues(g, x, reason, id);
    case InitiatorLeaves(x) => CancelContinues(g, x, DISCONNECT, id);
    case _ =>
  }

  /** One cancellation winner and no dispatch after it, over any interleaving of HTTP and WebSocket
      cancels, initiators leaving and hosts closing; and what has been written stays written. */
  lemma {:induction false} CancellationIsFinal(tr: seq<Action>, gs: seq<Gateway>, i: nat, j: nat, id: Id)
    requires Behaviour(tr, gs) && i <= j <= |tr| && id in gs[i].runs
    ensures id in gs[j].runs && Continues(gs[i].runs[id], gs[j].runs[id])
    decreases j
  {
    if i < j {
      CancellationIsFinal(tr, gs, i, j - 1, id);
      Reachable(tr, gs, j - 1);
      assert Next(tr, gs, j - 1) && LiveOnly(gs[j - 1]);
      StepContinues(gs[j - 1], tr[j - 1], id);
    }
  }

  // ---------- overlapping host sockets ----------

  /** The socket calls to the host would be sent on. */
  ghost predicate Routed(g: Gateway, conn: Id, ns: Id, host: Id) {
    Connected(g.routes, ns, host) && g.routes.connections[ns][host] == conn
  }

  /** The action opens a socket of the host, or closes one: whichever it is. */
  ghost predicate Disturbs(g: Gateway, a: Action, ns: Id, host: Id) {
    || (a.HostConnects? && a.ns == ns && a.host == host)
    || (a.HostCloses? && a.conn in g.sessions && g.sessions[a.conn] == Session(ns, host))
  }

  lemma StepRouted(g: Gateway, a: Action, conn: Id, ns: Id, host: Id)
    requires Legal(g, a) && !(a.HostConnects? && a.conn == conn)
    ensures Routed(Step(g, a), conn, ns, host) <==> Routed(g, conn, ns, host) && !Disturbs(g, a, ns, host)
  {
    match a
    case HostConnects(c, n, h, caps) => RegisterAt(g.routes, h, n, c, caps, ns, host, "");
    case HostCloses(c) => RemoveAt(g.routes, g.sessions[c].host, g.sessions[c].ns, ns, host, "");
    case _ =>
  }

  lemma ConnectIsRouted(g: Gateway, conn: Id, ns: Id, host: Id, caps: seq<string>)
    requires Legal(g, HostConnects(conn, ns, host, caps))
    ensures Routed(Step(g, HostConnects(conn, ns, host, caps)), conn, ns, host)
  {
    RegisterAt(g.routes, host, ns, conn, caps, ns, host, "");
  }

  ghost predicate Undisturbed(tr: seq<Action>, gs: seq<Gateway>, s: nat, n: nat, ns: Id, host: Id)
    requires n <= |tr| < |gs|
  {
    forall j :: s < j < n ==> !Disturbs(gs[j], tr[j], ns, host)
  }

  /** Exactly when calls still go to an open host socket: since it was registered no other socket of
      the same host has been registered or closed. So a host that reconnects before its old socket
      closes loses its route with that close, although its new socket stays open. */
  lemma {:induction false} RoutedWhileUndisturbed(tr: seq<Action>, gs: seq<Gateway>, s: nat, n: nat,
                                                  conn: Id, ns: Id, host: Id)
    requires Behaviour(tr, gs) && s < n <= |tr|
    requires tr[s].HostConnects? && tr[s].conn == conn && tr[s].ns == ns && tr[s].host == host
    requires forall j :: s < j < n ==> !(tr[j].HostConnects? && tr[j].conn == conn)
    ensures Routed(gs[n], conn, ns, host) <==> Undisturbed(tr, gs, s, n, ns, host)
    decreases n
  {
    if n == s + 1 {
      assert Next(tr, gs, s) && tr[s] == HostConnects(conn, ns, host, tr[s].caps);
      ConnectIsRouted(gs[s], conn, ns, host, tr[s].caps);
    } else {
      RoutedWhileUndisturbed(tr, gs, s, n - 1, conn, ns, host);
      var a, g := tr[n - 1], gs[n - 1];
      assert Next(tr, gs, n - 1);
      StepRouted(g, a, conn, ns, host);
      assert Undisturbed(tr, gs, s, n, ns, host) <==>
        Undisturbed(tr, gs, s, n - 1, ns, host) && !Disturbs(g, a, ns, host);
    }
  }

  /** "An open host socket is routable" is false: old socket a, new socket b, and a closes. */
  lemma ReconnectedHostLosesItsRoute(ns: Id, host: Id) returns (tr: seq<Action>, gs: seq<Gateway>)
    ensures Behaviour(tr, gs) && |tr| == 3
    ensures "b" in gs[3].sessions && gs[3].sessions["b"] == Session(ns, host)
    ensures !Connected(gs[3].routes, ns, host)
  {
    tr := [HostConnects("a", ns, host, []), HostConnects("b", ns, host, []), HostCloses("a")];
    var g1 := Step(INITIAL, tr[0]);
    var g2 := Step(g1, tr[1]);
    gs := [INITIAL, g1, g2, Step(g2, tr[2])];
    assert Next(tr, gs, 0) && Next(tr, gs, 1) && Next(tr, gs, 2);
  }
}
