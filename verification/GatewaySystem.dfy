/** The gateway as one step system: host sockets, executions, their retrying runs, cancellations and
    observers, in any interleaving. Each action is one uninterrupted stretch of the gateway's code. */
module GatewaySystem {
  import opened Collections
  import opened Messages
  import R = RetryMachine
  import opened Routing
  import X = Executions
  import opened Subscriptions

  /** An open host socket. */
  datatype Session = Session(ns: Id, host: Id)

  /** An accepted execution, kept after it is closed: `log` is what its initiator was sent. */
  datatype Run = Run(ns: Id, host: Id, cfg: R.Config, machine: R.Machine, log: seq<Event>, closed: bool)

  datatype Gateway = Gateway(
    routes: Routes,
    sessions: map<Id, Session>,
    executions: X.Registry,
    runs: map<Id, Run>,
    clients: map<Id, Id>,       // every observer connection there was, with its namespace
    sockets: set<Id>,           // the observer connections not closed yet
    wire: map<Id, Socket>,
    pairs: set<(Id, Id)>)       // who is subscribed to what

  const INITIAL := Gateway(NO_ROUTES, map[], X.NO_EXECUTIONS, map[], map[], {}, map[], {})

  datatype Action =
    | HostConnects(conn: Id, ns: Id, host: Id, caps: seq<string>)
    | HostCloses(conn: Id)
    | Execute(id: Id, ns: Id, cfg: R.Config)
    | Advance(id: Id, stimulus: R.Stimulus)
    | CancelRequest(id: Id, ns: Id, reason: Reason)
    | InitiatorLeaves(id: Id)
    | ClientConnects(client: Id, ns: Id)
    | ClientClosing(client: Id)
    | ClientCloses(client: Id)
    | Subscribe(client: Id, id: Id)
    | Unsubscribe(client: Id, id: Id)

  /** What can happen: fresh ids are fresh, sockets that are gone send nothing, and an abort comes
      only through the execution registry. */
  predicate Legal(g: Gateway, a: Action) {
    match a
    case HostConnects(conn, _, _, _) => conn !in g.sessions
    case HostCloses(conn) => conn in g.sessions
    case Execute(id, _, _) => id !in g.runs
    case Advance(id, stimulus) => id in g.runs && !g.runs[id].closed && !stimulus.Abort?
    case CancelRequest(_, _, _) => true
    case InitiatorLeaves(id) => id in g.runs
    case ClientConnects(c, _) => c !in g.clients
    case ClientClosing(c) => c in g.wire
    case ClientCloses(c) => c in g.sockets
    case Subscribe(c, _) => c in g.sockets
    case Unsubscribe(c, _) => c in g.sockets
  }

  // ---------- executions ----------

  function AbortRuns(runs: map<Id, Run>, hit: set<Id>, reason: Reason): map<Id, Run> {
    map id | id in runs ::
      if id in hit then runs[id].(machine := R.Aborted(runs[id].machine, reason)) else runs[id]
  }

  function CancelOne(g: Gateway, id: Id, reason: Reason): Gateway {
    if !X.Cancellable(g.executions, id) then g
    else g.(executions := X.Cancel(g.executions, id, reason), runs := AbortRuns(g.runs, {id}, reason))
  }

  function Accept(g: Gateway, id: Id, ns: Id, cfg: R.Config): Gateway {
    match First(g.routes, ns, EXECUTION)
    case None => g
    case Some(host) =>
      g.(executions := X.Register(g.executions, id, ns, host),
         runs := g.runs[id := Run(ns, host, cfg, R.Start(None), [], false)])
  }

  function HostGone(g: Gateway, s: Session): Gateway {
    g.(routes := Remove(g.routes, s.host, s.ns),
       executions := X.CancelByHost(g.executions, s.host, DISCONNECT),
       runs := AbortRuns(g.runs, X.VictimSet(g.executions, s.host), DISCONNECT))
  }

  // ---------- writing events ----------

  function Tagged(id: Id, events: seq<Event>): (ds: seq<Delivery>)
    ensures |ds| == |events| && forall i :: 0 <= i < |ds| ==> ds[i].execution == id && ds[i].event == events[i]
  {
    if events == [] then []
    else Tagged(id, events[..|events| - 1]) + [Delivery(id, events[|events| - 1])]
  }

  /** The observers an event of this execution reaches: subscribed, registered, and open. */
  predicate Hears(g: Gateway, c: Id, id: Id) {
    (c, id) in g.pairs && c in g.sockets && c in g.wire && g.wire[c].open
  }

  function Broadcast(g: Gateway, id: Id, events: seq<Event>): map<Id, Socket> {
    map c | c in g.wire ::
      if Hears(g, c, id) then g.wire[c].(received := g.wire[c].received + Tagged(id, events)) else g.wire[c]
  }

  /** What an action writes to its run's stream: the machine's events, or the closing ones. */
  function Output(g: Gateway, a: Action): seq<Event> {
    if a.Advance? && a.id in g.runs then
      var run := g.runs[a.id];
      if run.machine.phase.Ended? && a.stimulus == R.Proceed then R.Closing(run.machine.phase.outcome)
      else R.Step(run.cfg, run.machine, a.stimulus).1
    else []
  }

  function Advanced(g: Gateway, id: Id, stimulus: R.Stimulus): Gateway
    requires id in g.runs
  {
    var run, out := g.runs[id], Output(g, Advance(id, stimulus));
    var ends := run.machine.phase.Ended? && stimulus == R.Proceed;
    var after := Run(run.ns, run.host, run.cfg,
                     if ends then run.machine else R.Step(run.cfg, run.machine, stimulus).0, run.log + out, ends);
    g.(runs := g.runs[id := after],
       wire := Broadcast(g, id, out),
       executions := if ends then X.Remove(g.executions, id) else g.executions)
  }

  // ---------- observers ----------

  predicate MaySubscribe(g: Gateway, c: Id, id: Id) {
    c in g.clients && id in g.executions.entries && g.executions.entries[id].ns == g.clients[c]
  }

  function Closing(s: Socket): Socket {
    s.(open := false)
  }

  function Step(g: Gateway, a: Action): Gateway
    requires Legal(g, a)
  {
    match a
    case HostConnects(conn, ns, host, caps) =>
      g.(routes := Register(g.routes, host, ns, conn, caps), sessions := g.sessions[conn := Session(ns, host)])
    case HostCloses(conn) => HostGone(g, g.sessions[conn]).(sessions := g.sessions - {conn})
    case Execute(id, ns, cfg) => Accept(g, id, ns, cfg)
    case Advance(id, stimulus) => Advanced(g, id, stimulus)
    case CancelRequest(id, ns, reason) =>
      if id in g.executions.entries && g.executions.entries[id].ns == ns then CancelOne(g, id, reason) else g
    case InitiatorLeaves(id) => CancelOne(g, id, DISCONNECT)
    case ClientConnects(c, ns) =>
      g.(clients := g.clients[c := ns], sockets := g.sockets + {c}, wire := g.wire[c := Socket(true, [])])
    case ClientClosing(c) => g.(wire := g.wire[c := Closing(g.wire[c])])
    case ClientCloses(c) =>
      g.(sockets := g.sockets - {c}, pairs := WithoutConnection(g.pairs, c),
         wire := if c in g.wire then g.wire[c := Closing(g.wire[c])] else g.wire)
    case Subscribe(c, id) => if MaySubscribe(g, c, id) then g.(pairs := g.pairs + {(c, id)}) else g
    case Unsubscribe(c, id) => g.(pairs := g.pairs - {(c, id)})
  }

  /** Position i of a run of the system is a legal step. */
  ghost predicate Next(tr: seq<Action>, gs: seq<Gateway>, i: nat)
    requires i < |tr| < |gs|
  {
    Legal(gs[i], tr[i]) && gs[i + 1] == Step(gs[i], tr[i])
  }

  /** A run of the system: one more state than actions. */
  ghost predicate Behaviour(tr: seq<Action>, gs: seq<Gateway>) {
    |gs| == |tr| + 1 && gs[0] == INITIAL && forall i :: 0 <= i < |tr| ==> Next(tr, gs, i)
  }
}
