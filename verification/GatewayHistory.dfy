/** What a behaviour of the gateway comes to, said of its actions: where executions go, what cancels them,
    and how their runs proceed. */
module GatewayHistory {
  import opened Collections
  import opened Messages
  import R = RetryMachine
  import opened Routing
  import X = Executions
  import opened GatewaySystem
  import opened GatewayInvariants

  // ---------- what one action does to the executions ----------

  /** The run after its signal was aborted: waiting for a call or a pause it is over, as cancelled. */
  ghost predicate RunCancelled(before: Run, after: Run, reason: Reason) {
    && (after.ns, after.host, after.cfg, after.log, after.closed) == (before.ns, before.host, before.cfg, before.log, before.closed)
    && after.machine.signal == Some(reason) && after.machine.dispatches == before.machine.dispatches
    && after.machine.phase ==
         if before.machine.phase.Calling? || before.machine.phase.Pausing? then R.Ended(R.Abandoned(reason)) else before.machine.phase
  }

  ghost predicate EntryCancelled(before: X.Execution, after: X.Execution, reason: Reason) {
    && (after.ns, after.host) == (before.ns, before.host)
    && after.signal == Some(reason) && after.cancelledReason == Some(reason)
  }

  /** Nothing but executions and runs changed, and of these only the ones that were hit. */
  ghost predicate OnlyHit(g: Gateway, g': Gateway, hit: set<Id>, reason: Reason) {
    && (g'.sessions, g'.clients, g'.sockets, g'.wire, g'.pairs) == (g.sessions, g.clients, g.sockets, g.wire, g.pairs)
    && g'.executions.order == g.executions.order
    && g'.executions.entries.Keys == g.executions.entries.Keys && g'.runs.Keys == g.runs.Keys
    && hit <= g.executions.entries.Keys && hit <= g.runs.Keys
    && (forall x :: x in g.executions.entries && x !in hit ==> g'.executions.entries[x] == g.executions.entries[x])
    && (forall x :: x in g.runs && x !in hit ==> g'.runs[x] == g.runs[x])
    && (forall x :: x in hit ==> EntryCancelled(g.executions.entries[x], g'.executions.entries[x], reason))
    && (forall x :: x in hit ==> RunCancelled(g.runs[x], g'.runs[x], reason))
  }

  /** An unaborted, registered execution of the namespace. */
  predicate Cancels(g: Gateway, id: Id, ns: Id) {
    id in g.executions.entries && g.executions.entries[id].ns == ns && g.executions.entries[id].signal.None?
  }

  /** Registry and runs say the same of every execution that is not closed. */
  ghost predicate Agreed(g: Gateway) {
    && g.executions.entries.Keys <= g.runs.Keys
    && (forall x :: x in g.executions.entries ==>
          var (e, run) := (g.executions.entries[x], g.runs[x]);
          (e.ns, e.host, e.signal) == (run.ns, run.host, run.machine.signal) && !run.closed)
    && (forall x :: x in g.runs && !g.runs[x].closed ==> x in g.executions.entries)
  }

  lemma RegistryAgrees(g: Gateway)
    requires RegistryOk(g)
    ensures Agreed(g)
  {
    forall x | x in g.executions.entries ensures EntryOk(g.executions.entries[x], g.runs[x]) {}
  }

  lemma CancelOneEffect(g: Gateway, id: Id, reason: Reason)
    requires Agreed(g)
    ensures var g' := CancelOne(g, id, reason);
      if id in g.executions.entries && g.executions.entries[id].signal.None? then
        OnlyHit(g, g', {id}, reason) && g'.routes == g.routes
      else g' == g
  {
  }

  /** A cancel request aborts the execution if it is registered in the caller's namespace and not aborted:
      entry, signal and run, with the reason given, and no other; otherwise it changes nothing. */
  lemma CancelRequestEffect(g: Gateway, id: Id, ns: Id, reason: Reason)
    requires Agreed(g)
    ensures var g' := Step(g, CancelRequest(id, ns, reason));
      if Cancels(g, id, ns) then OnlyHit(g, g', {id}, reason) && g'.routes == g.routes else g' == g
  {
    CancelOneEffect(g, id, reason);
  }

  /** So does an initiator that leaves, with the reason "disconnect". */
  lemma InitiatorLeavesEffect(g: Gateway, id: Id)
    requires Agreed(g) && Legal(g, InitiatorLeaves(id))
    ensures var g' := Step(g, InitiatorLeaves(id));
      if id in g.executions.entries && g.executions.entries[id].signal.None? then
        OnlyHit(g, g', {id}, "disconnect") && g'.routes == g.routes
      else g' == g
  {
    CancelOneEffect(g, id, "disconnect");
  }

  function UnabortedOf(g: Gateway, host: Id): set<Id> {
    set x | x in g.executions.entries && g.executions.entries[x].host == host && g.executions.entries[x].signal.None?
  }

  lemma HostGoneEffect(g: Gateway, s: Session)
    requires Agreed(g)
    ensures OnlyHit(g, HostGone(g, s), UnabortedOf(g, s.host), "disconnect")
  {
    assert UnabortedOf(g, s.host) == X.VictimSet(g.executions, s.host);
  }

  /** The socket is gone, with the route of its host and every unaborted execution of it. */
  ghost predicate HostLost(g: Gateway, g': Gateway, s: Session, conn: Id) {
    && OnlyHit(g.(sessions := g.sessions - {conn}), g', UnabortedOf(g, s.host), "disconnect")
    && g'.routes == Remove(g.routes, s.host, s.ns) && !Connected(g'.routes, s.ns, s.host)
  }

  /** A host socket that closes aborts the host's unaborted executions and no others, and the host is no
      longer connected in its namespace. */
  lemma HostClosesEffect(g: Gateway, conn: Id)
    requires Agreed(g) && Legal(g, HostCloses(conn))
    ensures HostLost(g, Step(g, HostCloses(conn)), g.sessions[conn], conn)
  {
    var s := g.sessions[conn];
    RemoveAt(g.routes, s.host, s.ns, s.ns, s.host, "");
    HostGoneEffect(g, s);
  }

  /** An execution is accepted exactly when a connected host is found for it; it is then registered, last,
      and its run starts unaborted with nothing written. */
  ghost predicate AcceptedOn(g: Gateway, g': Gateway, id: Id, ns: Id, host: Id, cfg: R.Config) {
    && (g'.routes, g'.sessions, g'.clients, g'.sockets, g'.wire, g'.pairs)
         == (g.routes, g.sessions, g.clients, g.sockets, g.wire, g.pairs)
    && g'.runs == g.runs[id := Run(ns, host, cfg, R.Machine(R.Starting(1), None, 0), [], false)]
    && g'.executions.entries == g.executions.entries[id := X.Execution(ns, host, None, None)]
    && g'.executions.order == g.executions.order + [id]
  }

  lemma ExecuteEffect(g: Gateway, id: Id, ns: Id, cfg: R.Config)
    requires X.Ordered(g.executions) && Agreed(g) && id !in g.runs
    ensures var (g', first) := (Step(g, Execute(id, ns, cfg)), First(g.routes, ns, "execution"));
      if first.Some? then AcceptedOn(g, g', id, ns, first.value, cfg) else g' == g
  {
    assert id !in g.executions.entries && id !in g.executions.order;
  }

  // ---------- what cancels an execution ----------

  /** The reason with which an action hits an execution: a cancel from its own namespace, its initiator
      leaving, or a socket of its host closing, while it is registered. */
  function Hit(g: Gateway, a: Action, id: Id): Option<Reason> {
    if id !in g.runs || g.runs[id].closed then None
    else
      match a
      case CancelRequest(x, ns, reason) => if x == id && ns == g.runs[id].ns then Some(reason) else None
      case InitiatorLeaves(x) => if x == id then Some("disconnect") else None
      case HostCloses(conn) =>
        if conn in g.sessions && g.sessions[conn].host == g.runs[id].host then Some("disconnect") else None
      case _ => None
  }

  lemma HitSignal(g: Gateway, g': Gateway, hit: set<Id>, reason: Reason, id: Id)
    requires OnlyHit(g, g', hit, reason) && id in g.runs
    ensures id in g'.runs && g'.runs[id].machine.signal == if id in hit then Some(reason) else g.runs[id].machine.signal
  {
    if id in hit { assert RunCancelled(g.runs[id], g'.runs[id], reason); }
  }

  lemma CancelSignal(g: Gateway, a: Action, id: Id)
    requires Agreed(g) && Legal(g, a) && id in g.runs && (a.CancelRequest? || a.InitiatorLeaves?)
    ensures id in Step(g, a).runs
    ensures Step(g, a).runs[id].machine.signal ==
      if g.runs[id].machine.signal.Some? then g.runs[id].machine.signal else Hit(g, a, id)
  {
    var reason := if a.CancelRequest? then a.reason else "disconnect";
    if a.CancelRequest? { CancelRequestEffect(g, a.id, a.ns, reason); } else { InitiatorLeavesEffect(g, a.id); }
    if Step(g, a) != g { HitSignal(g, Step(g, a), {a.id}, reason, id); }
  }

  lemma CloseSignal(g: Gateway, conn: Id, id: Id)
    requires Agreed(g) && Legal(g, HostCloses(conn)) && id in g.runs
    ensures id in Step(g, HostCloses(conn)).runs
    ensures Step(g, HostCloses(conn)).runs[id].machine.signal ==
      if g.runs[id].machine.signal.Some? then g.runs[id].machine.signal else Hit(g, HostCloses(conn), id)
  {
    HostClosesEffect(g, conn);
    HitSignal(g.(sessions := g.sessions - {conn}), Step(g, HostCloses(conn)), UnabortedOf(g, g.sessions[conn].host), "disconnect", id);
  }

  lemma StepSignal(g: Gateway, a: Action, id: Id)
    requires Agreed(g) && Legal(g, a) && id in g.runs
    ensures id in Step(g, a).runs
    ensures Step(g, a).runs[id].machine.signal ==
      if g.runs[id].machine.signal.Some? then g.runs[id].machine.signal else Hit(g, a, id)
  {
    match a
    case CancelRequest(_, _, _) => CancelSignal(g, a, id);
    case InitiatorLeaves(_) => CancelSignal(g, a, id);
    case HostCloses(conn) => CloseSignal(g, conn, id);
    case Advance(x, stimulus) =>
      if x == id { assert R.Step(g.runs[id].cfg, g.runs[id].machine, stimulus).0.signal == g.runs[id].machine.signal; }
    case _ =>
  }

  /** Action j is the first to hit the execution. */
  ghost predicate FirstHit(tr: seq<Action>, gs: seq<Gateway>, j: nat, n: nat, id: Id) {
    && j < n <= |tr| < |gs| && Hit(gs[j], tr[j], id).Some?
    && forall i :: 0 <= i < j ==> Hit(gs[i], tr[i], id).None?
  }

  ghost predicate Unhit(tr: seq<Action>, gs: seq<Gateway>, n: nat, id: Id)
    requires n <= |tr| < |gs|
  {
    forall i :: 0 <= i < n ==> Hit(gs[i], tr[i], id).None?
  }

  /** The signal of an execution is what its first hit, at j, made it, or unset without one. */
  ghost predicate SignalSays(tr: seq<Action>, gs: seq<Gateway>, n: nat, id: Id, j: nat)
    requires n <= |tr| < |gs| && id in gs[n].runs
  {
    if gs[n].runs[id].machine.signal.None? then Unhit(tr, gs, n, id)
    else FirstHit(tr, gs, j, n, id) && gs[n].runs[id].machine.signal == Hit(gs[j], tr[j], id)
  }

  lemma SignalOneMore(tr: seq<Action>, gs: seq<Gateway>, n: nat, id: Id, j: nat)
    requires 0 < n <= |tr| < |gs| && id in gs[n - 1].runs && id in gs[n].runs && SignalSays(tr, gs, n - 1, id, j)
    requires gs[n].runs[id].machine.signal ==
      if gs[n - 1].runs[id].machine.signal.Some? then gs[n - 1].runs[id].machine.signal else Hit(gs[n - 1], tr[n - 1], id)
    ensures SignalSays(tr, gs, n, id, if gs[n - 1].runs[id].machine.signal.Some? then j else n - 1)
  {
  }

  lemma {:induction false} SignalFollowsHits(tr: seq<Action>, gs: seq<Gateway>, n: nat, id: Id) returns (j: nat)
    requires Behaviour(tr, gs) && n <= |tr| && id in gs[n].runs
    ensures SignalSays(tr, gs, n, id, j)
  {
    j := 0;
    assert n > 0;
    if id in gs[n - 1].runs {
      j := SignalFollowsHits(tr, gs, n - 1, id);
      SignalNext(tr, gs, n, id);
      SignalOneMore(tr, gs, n, id, j);
      if gs[n - 1].runs[id].machine.signal.None? { j := n - 1; }
    } else {
      NotThereUnhit(tr, gs, n, id);
      JustAccepted(tr, gs, n, id);
    }
  }

  lemma SignalNext(tr: seq<Action>, gs: seq<Gateway>, n: nat, id: Id)
    requires Behaviour(tr, gs) && 0 < n <= |tr| && id in gs[n - 1].runs
    ensures id in gs[n].runs && gs[n].runs[id].machine.signal ==
      if gs[n - 1].runs[id].machine.signal.Some? then gs[n - 1].runs[id].machine.signal else Hit(gs[n - 1], tr[n - 1], id)
  {
    Reachable(tr, gs, n - 1);
    RegistryAgrees(gs[n - 1]);
    assert Next(tr, gs, n - 1);
    StepSignal(gs[n - 1], tr[n - 1], id);
  }

  /** A run that is new was accepted by the last action. */
  lemma JustAccepted(tr: seq<Action>, gs: seq<Gateway>, n: nat, id: Id)
    requires Behaviour(tr, gs) && 0 < n <= |tr| && id !in gs[n - 1].runs && id in gs[n].runs
    ensures tr[n - 1].Execute? && tr[n - 1].id == id
    ensures gs[n].runs[id].cfg == tr[n - 1].cfg && gs[n].runs[id].machine == R.Start(None)
    ensures gs[n].runs[id].log == [] && !gs[n].runs[id].closed
  {
    Reachable(tr, gs, n - 1);
    RegistryAgrees(gs[n - 1]);
    assert Next(tr, gs, n - 1);
    RunsStay(gs[n - 1], tr[n - 1], id);
    ExecuteEffect(gs[n - 1], id, tr[n - 1].ns, tr[n - 1].cfg);
  }

  /** Before it is accepted nothing hits it. */
  lemma {:induction false} NotThereUnhit(tr: seq<Action>, gs: seq<Gateway>, n: nat, id: Id)
    requires Behaviour(tr, gs) && 0 < n <= |tr| && id !in gs[n - 1].runs
    ensures Unhit(tr, gs, n, id)
  {
    assert Next(tr, gs, n - 1);
    if n > 1 {
      assert Next(tr, gs, n - 2);
      RunsStay(gs[n - 2], tr[n - 2], id);
      NotThereUnhit(tr, gs, n - 1, id);
    }
  }

  lemma RunsStay(g: Gateway, a: Action, id: Id)
    requires Legal(g, a)
    ensures id in g.runs ==> id in Step(g, a).runs
    ensures id in Step(g, a).runs ==> id in g.runs || (a.Execute? && a.id == id)
  {
  }

  lemma OneFirstHit(tr: seq<Action>, gs: seq<Gateway>, i: nat, j: nat, n: nat, id: Id)
    requires FirstHit(tr, gs, i, n, id) && FirstHit(tr, gs, j, n, id)
    ensures i == j
  {
  }

  /** Over every interleaving: an execution is cancelled with a reason exactly when the first action to hit
      it, of all cancels from its namespace, its initiator leaving and its host's sockets closing while it
      is registered, hits it with that reason; and its registry entry and its signal say the same. */
  lemma CancelledByFirstHit(tr: seq<Action>, gs: seq<Gateway>, n: nat, id: Id, reason: Reason)
    requires Behaviour(tr, gs) && n <= |tr| && id in gs[n].runs
    ensures gs[n].runs[id].machine.signal == Some(reason) <==>
      exists j: nat :: FirstHit(tr, gs, j, n, id) && Hit(gs[j], tr[j], id) == Some(reason)
    ensures id in gs[n].executions.entries ==>
      gs[n].executions.entries[id].signal == gs[n].executions.entries[id].cancelledReason == gs[n].runs[id].machine.signal
  {
    var first := SignalFollowsHits(tr, gs, n, id);
    Reachable(tr, gs, n);
    if id in gs[n].executions.entries { assert EntryOk(gs[n].executions.entries[id], gs[n].runs[id]); }
    if exists j: nat :: FirstHit(tr, gs, j, n, id) && Hit(gs[j], tr[j], id) == Some(reason) {
      var j: nat :| FirstHit(tr, gs, j, n, id) && Hit(gs[j], tr[j], id) == Some(reason);
      if gs[n].runs[id].machine.signal.Some? { OneFirstHit(tr, gs, first, j, n, id); }
    }
  }

  // ---------- where executions go ----------

  /** The connections and leaves of hosts so far. */
  function ChangesOf(tr: seq<Action>, gs: seq<Gateway>, n: nat): seq<Change>
    requires n <= |tr| < |gs|
  {
    if n == 0 then []
    else
      var past := ChangesOf(tr, gs, n - 1);
      match tr[n - 1]
      case HostConnects(conn, ns, host, caps) => past + [Came(host, ns, conn, caps)]
      case HostCloses(conn) =>
        if conn in gs[n - 1].sessions then past + [Left(gs[n - 1].sessions[conn].host, gs[n - 1].sessions[conn].ns)] else past
      case _ => past
  }

  lemma AfterSnoc(h: seq<Change>, c: Change)
    ensures c.Came? ==> After(h + [c]) == Register(After(h), c.host, c.ns, c.socket, c.caps)
    ensures c.Left? ==> After(h + [c]) == Remove(After(h), c.host, c.ns)
  {
    assert (h + [c])[..|h|] == h;
  }

  lemma RoutesAfter(g: Gateway, a: Action)
    requires Legal(g, a) && !a.HostConnects? && !a.HostCloses?
    ensures Step(g, a).routes == g.routes
  {
  }

  /** The routes are what the host sockets that opened and closed make of them. */
  lemma {:induction false} RoutesAreHistory(tr: seq<Action>, gs: seq<Gateway>, n: nat)
    requires Behaviour(tr, gs) && n <= |tr|
    ensures gs[n].routes == After(ChangesOf(tr, gs, n))
  {
    if n > 0 {
      RoutesAreHistory(tr, gs, n - 1);
      assert Next(tr, gs, n - 1);
      var past, g := ChangesOf(tr, gs, n - 1), gs[n - 1];
      match tr[n - 1]
      case HostConnects(conn, ns, host, caps) => AfterSnoc(past, Came(host, ns, conn, caps));
      case HostCloses(conn) => AfterSnoc(past, Left(g.sessions[conn].host, g.sessions[conn].ns));
      case _ => RoutesAfter(g, tr[n - 1]);
    }
  }

  /** The host has held the execution capability longest. */
  ghost predicate LongestHolder(h: seq<Change>, host: Id, ns: Id) {
    exists p: nat :: HeldSince(h, host, ns, "execution", p)
      && forall other, q: nat :: HeldSince(h, other, ns, "execution", q) ==> p <= q
  }

  /** Over every behaviour: an execution is accepted exactly when some host of its namespace holds the
      execution capability then, and on the host that has held it longest. */
  lemma AcceptedOnLongestHolder(tr: seq<Action>, gs: seq<Gateway>, i: nat)
    requires Behaviour(tr, gs) && i < |tr| && tr[i].Execute?
    ensures var (h, a) := (ChangesOf(tr, gs, i), tr[i]);
      && (a.id in gs[i + 1].runs <==> exists host, p: nat :: HeldSince(h, host, a.ns, "execution", p))
      && (a.id in gs[i + 1].runs ==>
            LongestHolder(h, gs[i + 1].runs[a.id].host, a.ns) && gs[i + 1].runs[a.id].ns == a.ns && gs[i + 1].runs[a.id].cfg == a.cfg)
  {
    Reachable(tr, gs, i);
    RegistryAgrees(gs[i]);
    assert Next(tr, gs, i);
    var h, a := ChangesOf(tr, gs, i), tr[i];
    RoutesAreHistory(tr, gs, i);
    FirstHeldLongest(h, a.ns, "execution");
    ExecuteEffect(gs[i], a.id, a.ns, a.cfg);
  }

  // ---------- how a run proceeds ----------

  /** The last step of a run: the handler goes on after the executor has ended. */
  predicate Closes(run: Run, a: Action, id: Id) {
    a == Advance(id, R.Proceed) && !run.closed && run.machine.phase.Ended?
  }

  predicate ClosesAt(g: Gateway, a: Action, id: Id) {
    id in g.runs && Closes(g.runs[id], a, id)
  }

  /** What an action is to the retry machine of an execution. */
  function StimuliOf(g: Gateway, a: Action, id: Id): seq<R.Stimulus> {
    if id !in g.runs || g.runs[id].closed || ClosesAt(g, a, id) then []
    else if a.Advance? && a.id == id then [a.stimulus]
    else if Hit(g, a, id).Some? then [R.Abort(Hit(g, a, id).value)]
    else []
  }

  function TapeOf(tr: seq<Action>, gs: seq<Gateway>, n: nat, id: Id): seq<R.Stimulus>
    requires n <= |tr| < |gs|
  {
    if n == 0 then [] else TapeOf(tr, gs, n - 1, id) + StimuliOf(gs[n - 1], tr[n - 1], id)
  }

  /** The events that close a stream, by how the run ended. */
  ghost predicate ClosedWith(log: seq<Event>, out: seq<Event>, o: R.Outcome) {
    match o
    case Value(data) => log == out + [Done(0, Some(data))]
    case Abandoned(reason) => log == out + [Cancelled(reason), Done(130, None)]
    case Failed(message) => log == out + [Error(message), Done(1, None)]
  }

  /** What the retry machine and the stream of a run are after an action. */
  ghost predicate RunGoesOn(g: Gateway, a: Action, id: Id, before: Run, after: Run) {
    var (m, out) := R.Drive(before.cfg, before.machine, StimuliOf(g, a, id));
    && after.cfg == before.cfg && after.machine == m
    && (after.closed <==> before.closed || Closes(before, a, id))
    && (if Closes(before, a, id) then ClosedWith(after.log, before.log, before.machine.phase.outcome) else after.log == before.log + out)
  }

  lemma DriveNone(cfg: R.Config, m: R.Machine, log: seq<Event>)
    ensures R.Drive(cfg, m, []) == (m, []) && log + [] == log
  {
  }

  lemma DriveOne(cfg: R.Config, m: R.Machine, s: R.Stimulus)
    ensures R.Drive(cfg, m, [s]) == R.Step(cfg, m, s)
  {
    assert [s] == [s] + [];
    R.DriveFrom(cfg, m, s, []);
    assert R.Step(cfg, m, s).1 + [] == R.Step(cfg, m, s).1;
  }

  lemma AbortedRunGoesOn(g: Gateway, a: Action, id: Id, after: Run)
    requires id in g.runs && !g.runs[id].closed && !a.Advance? && Hit(g, a, id).Some?
    requires after == g.runs[id].(machine := R.Aborted(g.runs[id].machine, Hit(g, a, id).value))
    ensures RunGoesOn(g, a, id, g.runs[id], after)
  {
    DriveOne(g.runs[id].cfg, g.runs[id].machine, R.Abort(Hit(g, a, id).value));
    DriveNone(g.runs[id].cfg, g.runs[id].machine, g.runs[id].log);
  }

  lemma QuietRunGoesOn(g: Gateway, a: Action, id: Id)
    requires id in g.runs && StimuliOf(g, a, id) == [] && !ClosesAt(g, a, id)
    ensures RunGoesOn(g, a, id, g.runs[id], g.runs[id])
  {
    DriveNone(g.runs[id].cfg, g.runs[id].machine, g.runs[id].log);
  }

  lemma AdvancedRunGoesOn(g: Gateway, a: Action, id: Id)
    requires a.Advance? && Legal(g, a) && a.id == id
    ensures RunGoesOn(g, a, id, g.runs[id], Step(g, a).runs[id])
  {
    var run := g.runs[id];
    DriveOne(run.cfg, run.machine, a.stimulus);
    DriveNone(run.cfg, run.machine, run.log);
  }

  /** An abort that comes second changes nothing. */
  lemma AbortAgain(m: R.Machine, reason: Reason)
    requires m.signal.Some?
    ensures R.Aborted(m, reason) == m
  {
  }

  lemma HitRunGoesOn(g: Gateway, a: Action, id: Id)
    requires Agreed(g) && Legal(g, a) && id in g.runs && !g.runs[id].closed && !a.Advance?
    ensures id in Step(g, a).runs && RunGoesOn(g, a, id, g.runs[id], Step(g, a).runs[id])
  {
    HitRun(g, a, id);
    if Hit(g, a, id).Some? {
      AbortedRunGoesOn(g, a, id, Step(g, a).runs[id]);
    } else {
      QuietRunGoesOn(g, a, id);
    }
  }

  lemma HitRun(g: Gateway, a: Action, id: Id)
    requires Agreed(g) && Legal(g, a) && id in g.runs && !g.runs[id].closed && !a.Advance?
    ensures id in Step(g, a).runs
    ensures Step(g, a).runs[id] ==
      if Hit(g, a, id).Some? then g.runs[id].(machine := R.Aborted(g.runs[id].machine, Hit(g, a, id).value)) else g.runs[id]
  {
    if Hit(g, a, id).Some? && g.runs[id].machine.signal.Some? { AbortAgain(g.runs[id].machine, Hit(g, a, id).value); }
  }

  lemma StepRun(g: Gateway, a: Action, id: Id)
    requires Agreed(g) && LiveOnly(g) && Legal(g, a) && id in g.runs
    ensures id in Step(g, a).runs && RunGoesOn(g, a, id, g.runs[id], Step(g, a).runs[id])
  {
    if a.Advance? && a.id == id {
      AdvancedRunGoesOn(g, a, id);
    } else if a.Advance? {
      QuietRunGoesOn(g, a, id);
    } else if g.runs[id].closed {
      StepContinues(g, a, id);
      QuietRunGoesOn(g, a, id);
    } else {
      HitRunGoesOn(g, a, id);
    }
  }

  lemma RunNext(tr: seq<Action>, gs: seq<Gateway>, n: nat, id: Id)
    requires Behaviour(tr, gs) && 0 < n <= |tr| && id in gs[n - 1].runs
    ensures id in gs[n].runs && RunGoesOn(gs[n - 1], tr[n - 1], id, gs[n - 1].runs[id], gs[n].runs[id])
  {
    Reachable(tr, gs, n - 1);
    RegistryAgrees(gs[n - 1]);
    assert Next(tr, gs, n - 1);
    StepRun(gs[n - 1], tr[n - 1], id);
  }

  /** Where a run stands by its stimuli alone. */
  ghost predicate RunIs(run: Run, cfg: R.Config, tape: seq<R.Stimulus>) {
    var (m, out) := R.Drive(cfg, R.Start(None), tape);
    && run.cfg == cfg && run.machine == m
    && (if run.closed then m.phase.Ended? && ClosedWith(run.log, out, m.phase.outcome) else run.log == out)
  }

  lemma RunIsNext(g: Gateway, a: Action, id: Id, before: Run, after: Run, cfg: R.Config, tape: seq<R.Stimulus>)
    requires RunIs(before, cfg, tape) && RunGoesOn(g, a, id, before, after) && id in g.runs && g.runs[id] == before
    ensures RunIs(after, cfg, tape + StimuliOf(g, a, id))
  {
    R.DriveAppend(cfg, R.Start(None), tape, StimuliOf(g, a, id));
    DriveNone(cfg, before.machine, before.log);
    DriveNone(cfg, before.machine, R.Drive(cfg, R.Start(None), tape).1);
  }

  /** An accepted execution is at every moment where the retry machine is on what has happened to it since:
      its calls settling, its pauses ending, its code going on, and the hits on it. Its stream is what that
      machine wrote and, once the handler is through, the events that close it. */
  lemma {:induction false} RunIsTheMachine(tr: seq<Action>, gs: seq<Gateway>, b: nat, n: nat, id: Id)
    requires Behaviour(tr, gs) && b < n <= |tr| && tr[b].Execute? && tr[b].id == id && id in gs[b + 1].runs
    ensures id in gs[n].runs && RunIs(gs[n].runs[id], tr[b].cfg, TapeOf(tr, gs, n, id))
    decreases n
  {
    if n == b + 1 {
      FreshRun(tr, gs, b, id);
    } else {
      RunIsTheMachine(tr, gs, b, n - 1, id);
      RunNext(tr, gs, n, id);
      RunIsNext(gs[n - 1], tr[n - 1], id, gs[n - 1].runs[id], gs[n].runs[id], tr[b].cfg, TapeOf(tr, gs, n - 1, id));
    }
  }

  lemma FreshRun(tr: seq<Action>, gs: seq<Gateway>, b: nat, id: Id)
    requires Behaviour(tr, gs) && b < |tr| && tr[b].Execute? && tr[b].id == id && id in gs[b + 1].runs
    ensures RunIs(gs[b + 1].runs[id], tr[b].cfg, TapeOf(tr, gs, b + 1, id))
  {
    assert Next(tr, gs, b);
    JustAccepted(tr, gs, b + 1, id);
    NoTapeYet(tr, gs, b, id);
  }

  lemma {:induction false} NoTapeYet(tr: seq<Action>, gs: seq<Gateway>, n: nat, id: Id)
    requires Behaviour(tr, gs) && n <= |tr| && id !in gs[n].runs
    ensures TapeOf(tr, gs, n, id) == []
  {
    if n > 0 {
      assert Next(tr, gs, n - 1);
      RunsStay(gs[n - 1], tr[n - 1], id);
      NoTapeYet(tr, gs, n - 1, id);
    }
  }

  /** A run is closed exactly when its handler has gone on after its executor ended. */
  lemma {:induction false} ClosedWhenThrough(tr: seq<Action>, gs: seq<Gateway>, n: nat, id: Id)
    requires Behaviour(tr, gs) && n <= |tr| && id in gs[n].runs
    ensures gs[n].runs[id].closed <==> exists j :: 0 <= j < n && ClosesAt(gs[j], tr[j], id)
  {
    assert n > 0;
    if id in gs[n - 1].runs {
      ClosedWhenThrough(tr, gs, n - 1, id);
      RunNext(tr, gs, n, id);
    } else {
      JustAccepted(tr, gs, n, id);
      NeverThere(tr, gs, n - 1, id);
    }
  }

  lemma {:induction false} NeverThere(tr: seq<Action>, gs: seq<Gateway>, n: nat, id: Id)
    requires Behaviour(tr, gs) && n <= |tr| && id !in gs[n].runs
    ensures forall j :: 0 <= j <= n ==> id !in gs[j].runs
  {
    if n > 0 {
      assert Next(tr, gs, n - 1);
      RunsStay(gs[n - 1], tr[n - 1], id);
      NeverThere(tr, gs, n - 1, id);
    }
  }
}
