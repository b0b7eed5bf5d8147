/** Hosts, retrying runs and the dispatcher's calls together, on one clock: hosts come and go, runs are
    accepted on them and dispatch calls, and messages, timeouts, pauses and aborts arrive in any
    interleaving. Code takes no time and timers fire when they are due: no time passes while something
    that is due has not happened. */
module RunCalls {
  import opened Collections
  import opened Messages
  import R = RetryMachine
  import opened Backoff
  import opened Routing
  import C = Calls

  /** A run: the namespace and host it was accepted on, its machine, what it wrote, the call its last attempt sent, when it began, and when the
      phase it is in is over at the latest. */
  datatype Flight = Flight(
    space: Id, host: Id, cfg: R.Config, machine: R.Machine, log: seq<Event>, call: Option<Id>, begun: real, wake: real)

  /** `wires` is the socket each run's call was written on. */
  datatype Net = Net(
    routes: Routes, ledger: C.Ledger, flights: map<Id, Flight>, used: set<Id>, wires: map<Id, Id>, now: real)

  datatype Action =
    | HostComes(host: Id, space: Id, socket: Id, caps: seq<string>, at: real)
    | HostGoes(host: Id, space: Id, at: real)
    | Begin(run: Id, space: Id, cfg: R.Config, signal: Option<Reason>, at: real)
    | Continue(run: Id, call: Id, title: string, at: real)
    | OtherCall(call: Id, title: string, at: real)
    | Arrive(request: Option<Id>, msg: C.Inbound, at: real)
    | CallDue(call: Id, at: real)
    | PauseDue(run: Id, at: real)
    | AbortRun(run: Id, reason: Reason, at: real)

  // ---------- what a call's promise gives the run ----------

  function Joined(items: seq<Data>): Data {
    if items == [] then ""
    else if |items| == 1 then items[0]
    else Joined(items[..|items| - 1]) + "," + items[|items| - 1]
  }

  /** The JSON of a result; undefined, which JSON leaves out, is the empty text. */
  function Rendered(p: C.Payload): Data {
    match p
    case Undefined => ""
    case Single(data) => data
    case Many(list) => "[" + Joined(list) + "]"
  }

  function Reply(s: C.Settlement): R.Stimulus {
    match s
    case Resolved(p) => R.CallResolves(Rendered(p))
    case Rejected(message) => R.CallRejects(ErrorObject(message))
  }

  // ---------- one action ----------

  /** The run starts an attempt: it calls the dispatcher. */
  predicate Attempts(net: Net, a: Action, run: Id) {
    && a.Continue? && a.run == run && run in net.flights
    && net.flights[run].machine.phase.Starting? && net.flights[run].machine.signal.None?
  }

  /** The host of the run is connected. */
  predicate Reaches(net: Net, run: Id) {
    run in net.flights && Connected(net.routes, net.flights[run].space, net.flights[run].host)
  }

  /** The socket a call of the run would be sent on. */
  function SocketOf(net: Net, run: Id): Id
    requires Reaches(net, run)
  {
    net.routes.connections[net.flights[run].space][net.flights[run].host]
  }

  function WiresAfter(net: Net, a: Action): map<Id, Id> {
    if a.Continue? && Attempts(net, a, a.run) && Reaches(net, a.run) then net.wires[a.call := SocketOf(net, a.run)]
    else net.wires
  }

  const NOTHING := C.Receive(None, C.OtherType)

  /** What an action is to the dispatcher's calls. */
  function HappeningOf(net: Net, a: Action): C.Happening {
    match a
    case Continue(run, call, title, at) =>
      if Attempts(net, a, run) && Reaches(net, run) then C.Send(call, title, at) else NOTHING
    case OtherCall(call, title, at) => C.Send(call, title, at)
    case Arrive(request, msg, _) => C.Receive(request, msg)
    case CallDue(call, _) => C.Timeout(call)
    case _ => NOTHING
  }

  /** The call an action settles, and how. */
  function Settles(l: C.Ledger, e: C.Happening): Option<(Id, C.Settlement)> {
    var l' := C.Step(l, e);
    if |l'.settled| > |l.settled| then Some(l'.settled[|l.settled|]) else None
  }

  function Delivered(f: Flight, reply: Option<(Id, C.Settlement)>, at: real): Flight {
    if reply.Some? && f.call == Some(reply.value.0) && f.machine.phase.Calling? then
      f.(machine := R.Step(f.cfg, f.machine, Reply(reply.value.1)).0, wake := at)
    else f
  }

  /** The run's own code goes on, from the start of an attempt or from a failure it holds. */
  function Continued(f: Flight, a: Action, reached: bool): Flight
    requires a.Continue?
  {
    var (m, out) := R.Step(f.cfg, f.machine, R.Proceed);
    match m.phase
    case Calling(_) =>
      if reached then f.(machine := m, call := Some(a.call), wake := a.at + C.CALL_TIMEOUT_MS)
      else
        var failure := ErrorObject(C.NotConnectedText(f.host, f.space));
        f.(machine := R.Step(f.cfg, m, R.CallRejects(failure)).0, call := None, wake := a.at)
    case Pausing(k) => f.(machine := m, log := f.log + out, wake := a.at + MaxReal(R.Delay(f.cfg, k), 0.0))
    case _ => f.(machine := m, log := f.log + out, wake := a.at)
  }

  /** A host that is gone cancels what was dispatched to it. */
  function Orphaned(f: Flight, host: Id): Flight {
    if f.host == host && !f.machine.phase.Ended? then f.(machine := R.Aborted(f.machine, DISCONNECT)) else f
  }

  function Flights(net: Net, a: Action): (flights: map<Id, Flight>)
    requires Known(net, a)
    ensures forall r :: r in net.flights ==> r in flights
  {
    match a
    case HostComes(_, _, _, _, _) => net.flights
    case HostGoes(host, _, _) => map r | r in net.flights :: Orphaned(net.flights[r], host)
    case Begin(run, space, cfg, signal, at) =>
      (match First(net.routes, space, EXECUTION)
       case None => net.flights
       case Some(host) => net.flights[run := Flight(space, host, cfg, R.Start(signal), [], None, at, at)])
    case Continue(run, _, _, _) => net.flights[run := Continued(net.flights[run], a, Reaches(net, run))]
    case PauseDue(run, at) =>
      var f := net.flights[run];
      net.flights[run := f.(machine := R.Step(f.cfg, f.machine, R.TimerFires).0, wake := at)]
    case AbortRun(run, reason, _) =>
      var f := net.flights[run];
      net.flights[run := f.(machine := R.Aborted(f.machine, reason))]
    case _ =>
      var reply := Settles(net.ledger, HappeningOf(net, a));
      map r | r in net.flights :: Delivered(net.flights[r], reply, a.at)
  }

  function RoutesAfter(routes: Routes, a: Action): Routes {
    match a
    case HostComes(host, space, socket, caps, _) => Register(routes, host, space, socket, caps)
    case HostGoes(host, space, _) => Remove(routes, host, space)
    case _ => routes
  }

  predicate Known(net: Net, a: Action) {
    a.Continue? || a.PauseDue? || a.AbortRun? ==> a.run in net.flights
  }

  function Step(net: Net, a: Action): Net
    requires Known(net, a)
  {
    var e := HappeningOf(net, a);
    Net(RoutesAfter(net.routes, a), C.Step(net.ledger, e), Flights(net, a), UsedAfter(net.used, e), WiresAfter(net, a), a.at)
  }

  /** No time has passed something that was due. */
  ghost predicate Prompt(net: Net, at: real) {
    && net.now <= at
    && (forall c :: c in net.ledger.pending ==> at <= net.ledger.pending[c].due)
    && (forall r :: r in net.flights && !net.flights[r].machine.phase.Ended? ==> at <= net.flights[r].wake)
  }

  ghost predicate Legal(net: Net, a: Action) {
    && Prompt(net, a.at)
    && match a
       case HostComes(_, _, _, _, _) => true
       case HostGoes(_, _, _) => true
       case Begin(run, _, _, _, _) => run !in net.flights
       case Continue(run, call, _, _) =>
         && run in net.flights && call !in net.used && call != ""
         && (net.flights[run].machine.phase.Starting? || net.flights[run].machine.phase.Holding?)
       case OtherCall(call, _, _) => call !in net.used && call != ""
       case Arrive(_, _, _) => true
       case CallDue(call, at) => call in net.ledger.pending && net.ledger.pending[call].due <= at
       case PauseDue(run, at) =>
         run in net.flights && net.flights[run].machine.phase.Pausing? && net.flights[run].wake <= at
       case AbortRun(run, _, _) => run in net.flights
  }

  ghost predicate Next(tr: seq<Action>, ns: seq<Net>, i: nat)
    requires i < |tr| < |ns|
  {
    Legal(ns[i], tr[i]) && ns[i + 1] == Step(ns[i], tr[i])
  }

  ghost predicate Behaviour(tr: seq<Action>, ns: seq<Net>) {
    && |ns| == |tr| + 1
    && ns[0] == Net(NO_ROUTES, C.NO_CALLS, map[], {}, map[], ns[0].now)
    && forall i :: 0 <= i < |tr| ==> Next(tr, ns, i)
  }

  // ---------- what holds of a run ----------

  /** A run waiting for a call waits for one that is pending, until its timer is due. */
  ghost predicate Waits(f: Flight, l: C.Ledger) {
    f.machine.phase.Calling? ==>
      f.call.Some? && f.call.value in l.pending && l.pending[f.call.value].due == f.wake
  }

  /** The run's call was settled, once, like this. */
  ghost predicate AnsweredWith(f: Flight, l: C.Ledger, s: C.Settlement) {
    f.call.Some? && f.call.value !in l.pending && C.SettlementsOf(l.settled, f.call.value) == [s]
  }

  /** What a run ended with, or holds to try again, it has from the one settlement of its call. */
  ghost predicate Earned(f: Flight, l: C.Ledger) {
    match f.machine.phase
    case Ended(Value(data)) => exists p :: AnsweredWith(f, l, C.Resolved(p)) && data == Rendered(p)
    case Ended(Failed(message)) => AnsweredWith(f, l, C.Rejected(message))
    case Holding(_, failure) => failure.ErrorObject? && AnsweredWith(f, l, C.Rejected(failure.message))
    case _ => true
  }

  /** A run that is not over will be over with its phase within its share of the time. */
  ghost predicate OnTime(f: Flight) {
    Growing(f.cfg) && !f.machine.phase.Ended? ==>
      f.wake <= f.begun + f.machine.dispatches as real * 30000.0 + SumDelays(f.cfg, |f.log|)
  }

  ghost predicate FlightOk(f: Flight, l: C.Ledger, used: set<Id>, now: real) {
    && R.Coherent(f.cfg, f.machine, f.log)
    && (f.call.Some? ==> f.call.value in used && f.call.value != "")
    && (!f.machine.phase.Ended? ==> now <= f.wake)
    && Waits(f, l) && Earned(f, l) && OnTime(f)
  }

  ghost predicate CallOk(l: C.Ledger, used: set<Id>, c: Id) {
    && (c in l.pending ==> c in used && c != "" && C.SettlementsOf(l.settled, c) == [])
    && (c !in used ==> C.SettlementsOf(l.settled, c) == [])
  }

  ghost predicate LedgerOk(l: C.Ledger, used: set<Id>) {
    forall c :: CallOk(l, used, c)
  }

  /** No two runs wait for, or have been answered by, the same call. */
  ghost predicate OwnCalls(flights: map<Id, Flight>) {
    forall r, s :: r in flights && s in flights && flights[r].call.Some? && flights[r].call == flights[s].call ==> r == s
  }

  /** A run that is not over and not aborted has its host connected. */
  ghost predicate HostsThere(flights: map<Id, Flight>, routes: Routes) {
    forall r :: r in flights && !flights[r].machine.phase.Ended? && flights[r].machine.signal.None? ==>
      Connected(routes, flights[r].space, flights[r].host)
  }

  ghost predicate Inv(net: Net) {
    && HostsThere(net.flights, net.routes)
    && LedgerOk(net.ledger, net.used)
    && OwnCalls(net.flights)
    && forall r :: r in net.flights ==> FlightOk(net.flights[r], net.ledger, net.used, net.now)
  }

  // ---------- one happening ----------

  /** A happening sends a call, or settles a pending one, or at most adds a chunk. */
  lemma HappeningKinds(l: C.Ledger, e: C.Happening)
    ensures var (l', s) := (C.Step(l, e), Settles(l, e));
      && (e.Send? ==> s.None? && l' == C.Sent(l, e.call, e.title, e.now))
      && (s.Some? ==> s.value.0 in l.pending && l' == C.Settled(l, s.value.0, s.value.1))
      && (s.None? ==> l'.settled == l.settled)
      && (s.None? && !e.Send? ==>
            l'.pending.Keys == l.pending.Keys && forall c :: c in l.pending ==> l'.pending[c].due == l.pending[c].due)
  {
  }

  /** What a happening does to one call. */
  ghost predicate CallGoesOn(l: C.Ledger, l': C.Ledger, e: C.Happening, s: Option<(Id, C.Settlement)>, c: Id) {
    if e.Send? && e.call == c then
      c in l'.pending && l'.pending[c].due == e.now + C.CALL_TIMEOUT_MS
    else if s.Some? && s.value.0 == c then
      c in l.pending && c !in l'.pending
      && C.SettlementsOf(l'.settled, c) == C.SettlementsOf(l.settled, c) + [s.value.1]
    else
      && (c in l.pending <==> c in l'.pending)
      && (c in l.pending ==> l'.pending[c].due == l.pending[c].due)
      && C.SettlementsOf(l'.settled, c) == C.SettlementsOf(l.settled, c)
  }

  lemma CallStep(l: C.Ledger, e: C.Happening, c: Id)
    ensures CallGoesOn(l, C.Step(l, e), e, Settles(l, e), c)
  {
    HappeningKinds(l, e);
    var s := Settles(l, e);
    if s.Some? { C.SettledOnceMore(l, s.value.0, s.value.1, c); }
  }

  function UsedAfter(used: set<Id>, e: C.Happening): set<Id> {
    if e.Send? then used + {e.call} else used
  }

  lemma LedgerStep(l: C.Ledger, used: set<Id>, e: C.Happening)
    requires LedgerOk(l, used) && (e.Send? ==> e.call !in used && e.call != "")
    ensures LedgerOk(C.Step(l, e), UsedAfter(used, e))
  {
    HappeningKinds(l, e);
    forall c ensures CallOk(C.Step(l, e), UsedAfter(used, e), c) {
      assert CallOk(l, used, c);
      CallStep(l, e, c);
    }
  }

  // ---------- one run ----------

  /** What a happening leaves of a run it does not answer: at any later time it is not late for. */
  lemma BystanderOk(f: Flight, l: C.Ledger, used: set<Id>, e: C.Happening, now: real, at: real)
    requires FlightOk(f, l, used, now) && LedgerOk(l, used) && (e.Send? ==> e.call !in used)
    requires !f.machine.phase.Ended? ==> at <= f.wake
    requires var s := Settles(l, e); s.Some? ==> f.call != Some(s.value.0) || !f.machine.phase.Calling?
    ensures FlightOk(f, C.Step(l, e), UsedAfter(used, e), at)
  {
    HappeningKinds(l, e);
    if f.call.Some? { CallStep(l, e, f.call.value); }
  }

  /** A run that is answered: what its call settled with is what it goes on with. */
  lemma AnsweredOk(f: Flight, l: C.Ledger, used: set<Id>, e: C.Happening, now: real, at: real)
    requires FlightOk(f, l, used, now) && LedgerOk(l, used) && !e.Send?
    requires f.machine.phase.Calling? && Settles(l, e).Some? && f.call == Some(Settles(l, e).value.0) && at <= f.wake
    ensures FlightOk(Delivered(f, Settles(l, e), at), C.Step(l, e), used, at)
  {
    var s := Settles(l, e).value;
    CallStep(l, e, s.0);
    assert CallOk(l, used, s.0);
    R.StepCoherent(f.cfg, f.machine, f.log, Reply(s.1));
    assert f.log + [] == f.log;
    assert AnsweredWith(f, C.Step(l, e), s.1);
  }

  lemma ContinuedOnTime(f: Flight, a: Action, reached: bool)
    requires a.Continue? && R.Coherent(f.cfg, f.machine, f.log) && OnTime(f) && a.at <= f.wake
    requires f.machine.phase.Starting? || f.machine.phase.Holding?
    ensures var f' := Continued(f, a, reached); OnTime(f') && (!f'.machine.phase.Ended? ==> a.at <= f'.wake)
  {
    if Growing(f.cfg) && f.machine.phase.Holding? {
      var k := f.machine.phase.attempt;
      DelaysGrowToCap(f.cfg, k, k);
    }
  }

  lemma ContinuedCoherent(f: Flight, a: Action, reached: bool)
    requires a.Continue? && R.Coherent(f.cfg, f.machine, f.log)
    ensures R.Coherent(f.cfg, Continued(f, a, reached).machine, Continued(f, a, reached).log)
  {
    var (m, out) := R.Step(f.cfg, f.machine, R.Proceed);
    R.StepCoherent(f.cfg, f.machine, f.log, R.Proceed);
    assert f.log + [] == f.log;
    if m.phase.Calling? && !reached {
      R.StepCoherent(f.cfg, m, f.log, R.CallRejects(ErrorObject(C.NotConnectedText(f.host, f.space))));
    }
  }

  lemma ContinuedOk(f: Flight, l: C.Ledger, used: set<Id>, a: Action, reached: bool, e: C.Happening, now: real)
    requires a.Continue? && FlightOk(f, l, used, now) && LedgerOk(l, used)
    requires f.machine.phase.Starting? || f.machine.phase.Holding?
    requires a.call !in used && a.call != "" && a.at <= f.wake && (f.machine.signal.None? ==> reached)
    requires e == if f.machine.phase.Starting? && f.machine.signal.None? && reached then C.Send(a.call, a.title, a.at) else NOTHING
    ensures FlightOk(Continued(f, a, reached), C.Step(l, e), UsedAfter(used, e), a.at)
  {
    ContinuedCoherent(f, a, reached);
    ContinuedOnTime(f, a, reached);
    HappeningKinds(l, e);
  }

  lemma PauseOverOk(f: Flight, l: C.Ledger, used: set<Id>, now: real, at: real)
    requires FlightOk(f, l, used, now) && f.machine.phase.Pausing? && at <= f.wake
    ensures FlightOk(f.(machine := R.Step(f.cfg, f.machine, R.TimerFires).0, wake := at), l, used, at)
  {
    R.StepCoherent(f.cfg, f.machine, f.log, R.TimerFires);
    assert f.log + [] == f.log;
  }

  lemma AbortedOk(f: Flight, l: C.Ledger, used: set<Id>, now: real, at: real, reason: Reason)
    requires FlightOk(f, l, used, now) && (!f.machine.phase.Ended? ==> at <= f.wake)
    ensures FlightOk(f.(machine := R.Aborted(f.machine, reason)), l, used, at)
  {
    R.StepCoherent(f.cfg, f.machine, f.log, R.Abort(reason));
    assert f.log + [] == f.log;
  }

  lemma OrphanedOk(f: Flight, l: C.Ledger, used: set<Id>, now: real, at: real, host: Id)
    requires FlightOk(f, l, used, now) && (!f.machine.phase.Ended? ==> at <= f.wake)
    ensures FlightOk(Orphaned(f, host), l, used, at)
  {
    AbortedOk(f, l, used, now, at, DISCONNECT);
  }

  lemma BegunOk(space: Id, host: Id, cfg: R.Config, signal: Option<Reason>, l: C.Ledger, used: set<Id>, at: real)
    ensures FlightOk(Flight(space, host, cfg, R.Start(signal), [], None, at, at), l, used, at)
  {
  }

  lemma NothingHappens(l: C.Ledger)
    ensures C.Step(l, NOTHING) == l && Settles(l, NOTHING).None?
  {
  }

  // ---------- one action ----------

  predicate OfRun(a: Action, r: Id) {
    (a.Continue? || a.PauseDue? || a.AbortRun?) && a.run == r
  }

  lemma OwnActionOk(net: Net, a: Action, r: Id)
    requires Inv(net) && Legal(net, a) && r in net.flights && OfRun(a, r)
    ensures FlightOk(Flights(net, a)[r], Step(net, a).ledger, Step(net, a).used, a.at)
  {
    var f := net.flights[r];
    assert FlightOk(f, net.ledger, net.used, net.now);
    NothingHappens(net.ledger);
    match a
    case Continue(_, _, _, _) => ContinuedOk(f, net.ledger, net.used, a, Reaches(net, r), HappeningOf(net, a), net.now);
    case PauseDue(_, at) => PauseOverOk(f, net.ledger, net.used, net.now, at);
    case AbortRun(_, reason, at) => AbortedOk(f, net.ledger, net.used, net.now, at, reason);
  }

  lemma OthersUnchanged(net: Net, a: Action, r: Id)
    requires Legal(net, a) && r in net.flights && !OfRun(a, r)
    requires a.HostComes? || a.Begin? || a.Continue? || a.PauseDue? || a.AbortRun?
    ensures Flights(net, a)[r] == net.flights[r]
  {
  }

  /** An action that is not about the run, and no message. */
  lemma OtherActionOk(net: Net, a: Action, r: Id)
    requires Inv(net) && Legal(net, a) && r in net.flights && !OfRun(a, r)
    requires a.HostComes? || a.Begin? || a.Continue? || a.PauseDue? || a.AbortRun?
    ensures FlightOk(net.flights[r], Step(net, a).ledger, Step(net, a).used, a.at)
  {
    var e := HappeningOf(net, a);
    HappeningKinds(net.ledger, e);
    NothingHappens(net.ledger);
    assert FlightOk(net.flights[r], net.ledger, net.used, net.now);
    BystanderOk(net.flights[r], net.ledger, net.used, e, net.now, a.at);
  }

  lemma HostGoesOk(net: Net, a: Action, r: Id)
    requires Inv(net) && Legal(net, a) && r in net.flights && a.HostGoes?
    ensures FlightOk(Flights(net, a)[r], Step(net, a).ledger, Step(net, a).used, a.at)
  {
    NothingHappens(net.ledger);
    assert FlightOk(net.flights[r], net.ledger, net.used, net.now);
    OrphanedOk(net.flights[r], net.ledger, net.used, net.now, a.at, a.host);
  }

  lemma OneFlightOk(net: Net, a: Action, r: Id)
    requires Inv(net) && Legal(net, a) && r in net.flights
    ensures FlightOk(Flights(net, a)[r], Step(net, a).ledger, Step(net, a).used, a.at)
  {
    if OfRun(a, r) {
      OwnActionOk(net, a, r);
    } else if a.HostGoes? {
      HostGoesOk(net, a, r);
    } else if a.OtherCall? || a.Arrive? || a.CallDue? {
      MessageOk(net, a, r);
    } else {
      OthersUnchanged(net, a, r);
      OtherActionOk(net, a, r);
    }
  }

  lemma MessageOk(net: Net, a: Action, r: Id)
    requires Inv(net) && Legal(net, a) && r in net.flights && (a.OtherCall? || a.Arrive? || a.CallDue?)
    ensures FlightOk(Flights(net, a)[r], Step(net, a).ledger, Step(net, a).used, a.at)
  {
    var f, e := net.flights[r], HappeningOf(net, a);
    var s := Settles(net.ledger, e);
    HappeningKinds(net.ledger, e);
    if s.Some? && f.call == Some(s.value.0) && f.machine.phase.Calling? {
      AnsweredOk(f, net.ledger, net.used, e, net.now, a.at);
    } else {
      BystanderOk(f, net.ledger, net.used, e, net.now, a.at);
    }
  }

  /** Only starting an attempt changes the call a run has. */
  lemma CallAfter(net: Net, a: Action, r: Id)
    requires Legal(net, a) && r in net.flights
    ensures r in Step(net, a).flights
    ensures Step(net, a).flights[r].call ==
      if Attempts(net, a, r) then (if Reaches(net, r) then Some(a.call) else None) else net.flights[r].call
  {
  }

  lemma StepOwnCalls(net: Net, a: Action)
    requires Inv(net) && Legal(net, a)
    ensures OwnCalls(Step(net, a).flights)
  {
    var fs := Step(net, a).flights;
    forall r, s | r in fs && s in fs && fs[r].call.Some? && fs[r].call == fs[s].call ensures r == s {
      if r in net.flights { CallAfter(net, a, r); assert FlightOk(net.flights[r], net.ledger, net.used, net.now); }
      if s in net.flights { CallAfter(net, a, s); assert FlightOk(net.flights[s], net.ledger, net.used, net.now); }
    }
  }

  /** Where a run was accepted stays. */
  lemma PlaceStays(net: Net, a: Action, r: Id)
    requires Legal(net, a) && r in net.flights
    ensures var (f, f') := (net.flights[r], Flights(net, a)[r]); f'.space == f.space && f'.host == f.host
  {
  }

  /** A run that is over or aborted stays so, and one whose host goes is aborted. */
  lemma AbortStays(net: Net, a: Action, r: Id)
    requires Legal(net, a) && r in net.flights
    ensures var (f, f') := (net.flights[r], Flights(net, a)[r]);
      f.machine.phase.Ended? || f.machine.signal.Some? || (a.HostGoes? && f.host == a.host) ==>
        f'.machine.phase.Ended? || f'.machine.signal.Some?
  {
  }

  lemma FirstIsConnected(r: Routes, space: Id, hosts: seq<Id>)
    ensures var f := FirstConnected(r, space, hosts); f.Some? ==> Connected(r, space, f.value)
  {
  }

  lemma StepHostsThere(net: Net, a: Action)
    requires HostsThere(net.flights, net.routes) && Legal(net, a)
    ensures HostsThere(Step(net, a).flights, Step(net, a).routes)
  {
    var net' := Step(net, a);
    forall r | r in net'.flights && !net'.flights[r].machine.phase.Ended? && net'.flights[r].machine.signal.None?
      ensures Connected(net'.routes, net'.flights[r].space, net'.flights[r].host)
    {
      if r in net.flights {
        PlaceStays(net, a, r);
        AbortStays(net, a, r);
        RouteStays(net.routes, a, net.flights[r].space, net.flights[r].host);
      } else {
        FirstIsConnected(net.routes, a.space, Holders(net.routes, a.space, EXECUTION));
      }
    }
  }

  /** Only a host's own leaving disconnects it. */
  lemma RouteStays(routes: Routes, a: Action, space: Id, host: Id)
    requires Connected(routes, space, host) && !(a.HostGoes? && a.host == host)
    ensures Connected(RoutesAfter(routes, a), space, host)
  {
    match a
    case HostComes(h, s, socket, caps, _) => RegisterAt(routes, h, s, socket, caps, space, host, "");
    case HostGoes(h, s, _) => RemoveAt(routes, h, s, space, host, "");
    case _ =>
  }

  lemma StepInv(net: Net, a: Action)
    requires Inv(net) && Legal(net, a)
    ensures Inv(Step(net, a))
  {
    LedgerStep(net.ledger, net.used, HappeningOf(net, a));
    StepOwnCalls(net, a);
    StepHostsThere(net, a);
    forall r | r in Step(net, a).flights
      ensures FlightOk(Step(net, a).flights[r], Step(net, a).ledger, Step(net, a).used, a.at)
    {
      if r in net.flights {
        OneFlightOk(net, a, r);
      } else {
        NothingHappens(net.ledger);
        BegunOk(a.space, First(net.routes, a.space, EXECUTION).value, a.cfg, a.signal, net.ledger, net.used, a.at);
      }
    }
  }

  lemma {:induction false} Reachable(tr: seq<Action>, ns: seq<Net>, n: nat)
    requires Behaviour(tr, ns) && n <= |tr|
    ensures Inv(ns[n])
  {
    if n > 0 {
      Reachable(tr, ns, n - 1);
      assert Next(tr, ns, n - 1);
      StepInv(ns[n - 1], tr[n - 1]);
    }
  }

  // ---------- how long a run lasts ----------

  lemma AttemptsBound(f: Flight)
    requires R.Coherent(f.cfg, f.machine, f.log) && !f.machine.phase.Ended?
    ensures f.machine.dispatches <= R.Attempts(f.cfg) && |f.log| <= R.Attempts(f.cfg) - 1
  {
  }

  lemma WakeBound(f: Flight, k: nat)
    requires Growing(f.cfg) && !f.machine.phase.Ended? && OnTime(f)
    requires f.machine.dispatches <= k && |f.log| < k
    ensures f.wake - f.begun <= k as real * 30000.0 + SumDelays(f.cfg, k - 1)
  {
    SumGrows(f.cfg, |f.log|, k - 1);
  }

  /** A run that is not over has been going for less than the timeouts of its attempts and its pauses,
      which are less than as many caps and less than the geometric sum. */
  ghost predicate WithinTime(f: Flight, now: real) {
    var k := R.Attempts(f.cfg);
    && now - f.begun <= k as real * 30000.0 + SumDelays(f.cfg, k - 1)
    && SumDelays(f.cfg, k - 1) <= (k - 1) as real * f.cfg.maxDelayMs
    && SumDelays(f.cfg, k - 1) <= Geometric(f.cfg, k - 1)
  }

  lemma FlightWithinTime(f: Flight, k: nat, now: real)
    requires Growing(f.cfg) && !f.machine.phase.Ended? && OnTime(f) && now <= f.wake
    requires f.machine.dispatches <= k == R.Attempts(f.cfg) && |f.log| < k
    ensures WithinTime(f, now)
  {
    WakeBound(f, k);
    SumBelowGeometric(f.cfg, k - 1);
  }

  /** With the dispatcher's timer on every call, whatever the hosts answer and whoever aborts, a run is
      over in time. */
  lemma RunEndsInTime(tr: seq<Action>, ns: seq<Net>, n: nat, run: Id)
    requires Behaviour(tr, ns) && n <= |tr| && run in ns[n].flights
    requires Growing(ns[n].flights[run].cfg) && !ns[n].flights[run].machine.phase.Ended?
    ensures WithinTime(ns[n].flights[run], ns[n].now)
  {
    Reachable(tr, ns, n);
    var f := ns[n].flights[run];
    assert FlightOk(f, ns[n].ledger, ns[n].used, ns[n].now);
    AttemptsBound(f);
    FlightWithinTime(f, R.Attempts(f.cfg), ns[n].now);
  }

  /** So an execution that the route dispatches, without a configuration, is over after 30 s. */
  lemma RouteRunEndsIn30s(tr: seq<Action>, ns: seq<Net>, n: nat, run: Id)
    requires Behaviour(tr, ns) && n <= |tr| && run in ns[n].flights
    requires ns[n].flights[run].cfg == R.Resolve(None) && !ns[n].flights[run].machine.phase.Ended?
    ensures ns[n].now - ns[n].flights[run].begun <= 30000.0
  {
    DefaultsGrow(None);
    RunEndsInTime(tr, ns, n, run);
  }

  // ---------- every attempt is sent ----------

  /** An attempt always finds its host connected: its call is sent, on the socket routed then. So no
      execution fails because its host is not connected; losing the host cancels it before. */
  lemma EveryAttemptIsSent(tr: seq<Action>, ns: seq<Net>, i: nat, run: Id)
    requires Behaviour(tr, ns) && i < |tr| && Attempts(ns[i], tr[i], run)
    ensures Reaches(ns[i], run) && HappeningOf(ns[i], tr[i]) == C.Send(tr[i].call, tr[i].title, tr[i].at)
    ensures run in ns[i + 1].flights && ns[i + 1].flights[run].call == Some(tr[i].call) && tr[i].call in ns[i + 1].ledger.pending && tr[i].call in ns[i + 1].used
    ensures tr[i].call in ns[i + 1].wires && ns[i + 1].wires[tr[i].call] == SocketOf(ns[i], run)
  {
    Reachable(tr, ns, i);
    assert Next(tr, ns, i);
    CallAfter(ns[i], tr[i], run);
  }

  // ---------- where a result comes from ----------

  /** The actions so far as the dispatcher's calls see them. */
  function Seen(tr: seq<Action>, ns: seq<Net>, n: nat): (h: seq<C.Happening>)
    requires n <= |tr| < |ns|
    ensures |h| == n && forall i :: 0 <= i < n ==> h[i] == HappeningOf(ns[i], tr[i])
  {
    if n == 0 then [] else Seen(tr, ns, n - 1) + [HappeningOf(ns[n - 1], tr[n - 1])]
  }

  lemma {:induction false} LedgerIsSeen(tr: seq<Action>, ns: seq<Net>, n: nat)
    requires Behaviour(tr, ns) && n <= |tr|
    ensures ns[n].ledger == C.After(Seen(tr, ns, n))
  {
    if n > 0 {
      LedgerIsSeen(tr, ns, n - 1);
      assert Next(tr, ns, n - 1);
      assert Seen(tr, ns, n)[..n - 1] == Seen(tr, ns, n - 1);
    }
  }

  lemma {:induction false} UsedStays(tr: seq<Action>, ns: seq<Net>, m: nat, n: nat)
    requires Behaviour(tr, ns) && m <= n <= |tr|
    ensures ns[m].used <= ns[n].used
    decreases n
  {
    if m < n {
      UsedStays(tr, ns, m, n - 1);
      assert Next(tr, ns, n - 1);
    }
  }

  lemma SentOnce(tr: seq<Action>, ns: seq<Net>, i: nat, j: nat)
    requires Behaviour(tr, ns) && i < j < |tr|
    requires HappeningOf(ns[i], tr[i]).Send? && HappeningOf(ns[j], tr[j]).Send?
    ensures HappeningOf(ns[i], tr[i]).call != HappeningOf(ns[j], tr[j]).call
  {
    assert Next(tr, ns, i) && Next(tr, ns, j);
    UsedStays(tr, ns, i + 1, j);
  }

  /** No call is ever written a second time. */
  lemma {:induction false} WireStays(tr: seq<Action>, ns: seq<Net>, m: nat, n: nat, call: Id)
    requires Behaviour(tr, ns) && m <= n <= |tr| && call in ns[m].used && call in ns[m].wires
    ensures call in ns[n].wires && ns[n].wires[call] == ns[m].wires[call]
    decreases n
  {
    if m < n {
      WireStays(tr, ns, m, n - 1, call);
      UsedStays(tr, ns, m, n - 1);
      assert Next(tr, ns, n - 1);
    }
  }

  /** Action i started the last attempt of the run before moment n. */
  ghost predicate LastAttempt(tr: seq<Action>, ns: seq<Net>, i: nat, n: nat, run: Id) {
    i < n <= |tr| < |ns| && Attempts(ns[i], tr[i], run) && forall j :: i < j < n ==> !Attempts(ns[j], tr[j], run)
  }

  lemma {:induction false} CallIsLastAttempts(tr: seq<Action>, ns: seq<Net>, n: nat, run: Id) returns (i: nat)
    requires Behaviour(tr, ns) && n <= |tr| && run in ns[n].flights && ns[n].flights[run].call.Some?
    ensures LastAttempt(tr, ns, i, n, run) && ns[n].flights[run].call == Some(tr[i].call)
  {
    assert n > 0;
    assert Next(tr, ns, n - 1);
    if run in ns[n - 1].flights { CallAfter(ns[n - 1], tr[n - 1], run); }
    if Attempts(ns[n - 1], tr[n - 1], run) {
      i := n - 1;
    } else {
      i := CallIsLastAttempts(tr, ns, n - 1, run);
    }
  }

  ghost predicate HasValue(net: Net, run: Id) {
    run in net.flights && net.flights[run].machine.phase.Ended? && net.flights[run].machine.phase.outcome.Value?
  }

  /** A run with a value has made an attempt. */
  lemma ValueHasAttempt(tr: seq<Action>, ns: seq<Net>, n: nat, run: Id) returns (i: nat)
    requires Behaviour(tr, ns) && n <= |tr| && HasValue(ns[n], run)
    ensures LastAttempt(tr, ns, i, n, run)
  {
    Reachable(tr, ns, n);
    assert FlightOk(ns[n].flights[run], ns[n].ledger, ns[n].used, ns[n].now);
    i := CallIsLastAttempts(tr, ns, n, run);
  }

  lemma OneLastAttempt(tr: seq<Action>, ns: seq<Net>, i: nat, j: nat, n: nat, run: Id)
    requires LastAttempt(tr, ns, i, n, run) && LastAttempt(tr, ns, j, n, run)
    ensures i == j
  {
  }

  /** The last attempt's call was sent, on the socket then routed for the run's host. */
  ghost predicate LastCallSent(tr: seq<Action>, ns: seq<Net>, i: nat, n: nat, run: Id)
    requires i < n <= |tr| < |ns|
  {
    && tr[i].Continue? && Reaches(ns[i], run)
    && tr[i].call in ns[n].wires && ns[n].wires[tr[i].call] == SocketOf(ns[i], run)
  }

  lemma LastCallWasSent(tr: seq<Action>, ns: seq<Net>, i: nat, n: nat, run: Id)
    requires Behaviour(tr, ns) && LastAttempt(tr, ns, i, n, run)
    ensures LastCallSent(tr, ns, i, n, run)
  {
    EveryAttemptIsSent(tr, ns, i, run);
    WireStays(tr, ns, i + 1, n, tr[i].call);
  }

  /** Where the answer of a run comes from: the settlement of its last attempt's call is what that call's
      own messages made of it. */
  lemma AnswerIsOwn(tr: seq<Action>, ns: seq<Net>, i: nat, n: nat, run: Id, s: C.Settlement)
    requires Behaviour(tr, ns) && n <= |tr| && run in ns[n].flights && LastAttempt(tr, ns, i, n, run)
    requires AnsweredWith(ns[n].flights[run], ns[n].ledger, s)
    ensures var own := C.Own(Seen(tr, ns, n)[i + 1..], tr[i].call);
      var t := C.FirstFinal(own);
      && t < |own| && C.Concerns(own[t], tr[i].call)
      && C.SettledBy(s, own[t], C.ChunksOf(own[..t]), tr[i].title, tr[i].call)
  {
    Reachable(tr, ns, n);
    var f := ns[n].flights[run];
    assert FlightOk(f, ns[n].ledger, ns[n].used, ns[n].now);
    var last := CallIsLastAttempts(tr, ns, n, run);
    OneLastAttempt(tr, ns, i, last, n, run);
    EveryAttemptIsSent(tr, ns, i, run);
    LedgerIsSeen(tr, ns, n);
    var h, call := Seen(tr, ns, n), tr[i].call;
    assert h[i] == C.Send(call, tr[i].title, tr[i].at);
    OnlySend(tr, ns, i, n);
    C.CallFollowsItsOwnMessages(h, i, call);
    C.SettledByFinal(ns[n].ledger, call, h[i].title, h[i].now + C.CALL_TIMEOUT_MS, h[i + 1..], s);
  }

  lemma OnlySend(tr: seq<Action>, ns: seq<Net>, i: nat, n: nat)
    requires Behaviour(tr, ns) && i < n <= |tr| && HappeningOf(ns[i], tr[i]).Send?
    ensures forall j :: 0 <= j < n && Seen(tr, ns, n)[j].Send? && Seen(tr, ns, n)[j].call == HappeningOf(ns[i], tr[i]).call ==> j == i
  {
    var h := Seen(tr, ns, n);
    forall j | 0 <= j < n && h[j].Send? && h[j].call == HappeningOf(ns[i], tr[i]).call ensures j == i {
      if j < i { SentOnce(tr, ns, j, i); } else if i < j { SentOnce(tr, ns, i, j); }
    }
  }

  /** A run that ended with a value: its last attempt's call was sent, on the socket then routed for its
      host, and `done(0)` carries exactly what arrived for that call before its result: no data, the one
      chunk, or the JSON list of all chunks in order, whatever else was going on. */
  lemma ResultIsOwnChunks(tr: seq<Action>, ns: seq<Net>, i: nat, n: nat, run: Id)
    requires Behaviour(tr, ns) && n <= |tr| && HasValue(ns[n], run) && LastAttempt(tr, ns, i, n, run)
    ensures LastCallSent(tr, ns, i, n, run)
    ensures var own := C.Own(Seen(tr, ns, n)[i + 1..], tr[i].call);
      var t := C.FirstFinal(own);
      t < |own| && own[t] == C.Receive(Some(tr[i].call), C.Result)
    ensures var own := C.Own(Seen(tr, ns, n)[i + 1..], tr[i].call);
      var chunks := C.ChunksOf(own[..C.FirstFinal(own)]);
      R.Closing(ns[n].flights[run].machine.phase.outcome) == [Done(0, Some(
        if chunks == [] then "" else if |chunks| == 1 then chunks[0] else "[" + Joined(chunks) + "]"))]
  {
    LastCallWasSent(tr, ns, i, n, run);
    Reachable(tr, ns, n);
    var f := ns[n].flights[run];
    assert FlightOk(f, ns[n].ledger, ns[n].used, ns[n].now);
    var p :| AnsweredWith(f, ns[n].ledger, C.Resolved(p)) && f.machine.phase.outcome.data == Rendered(p);
    AnswerIsOwn(tr, ns, i, n, run, C.Resolved(p));
  }

  /** The text of a list is its items' texts with commas between them. */
  lemma {:induction false} JoinedParts(a: seq<Data>, b: seq<Data>)
    requires a != [] && b != []
    ensures Joined(a + b) == Joined(a) + "," + Joined(b) && (|a| == 1 ==> Joined(a) == a[0])
    decreases |b|
  {
    var init, last := b[..|b| - 1], b[|b| - 1];
    assert (a + b)[..|a + b| - 1] == a + init;
    if init == [] {
      assert a + init == a;
    } else {
      JoinedParts(a, init);
      assert Joined(a) + "," + Joined(init) + "," + last == Joined(a) + "," + (Joined(init) + "," + last);
    }
  }

  ghost predicate HasError(net: Net, run: Id) {
    run in net.flights && net.flights[run].machine.phase.Ended? && net.flights[run].machine.phase.outcome.Failed?
  }

  /** A run that failed: the text of its error event is what its last attempt's call was rejected with:
      the host's error message, the text of whatever else it sent, or the dispatcher's own on a timeout. */
  lemma ErrorIsOwnFailure(tr: seq<Action>, ns: seq<Net>, i: nat, n: nat, run: Id)
    requires Behaviour(tr, ns) && n <= |tr| && HasError(ns[n], run) && LastAttempt(tr, ns, i, n, run)
    ensures var own := C.Own(Seen(tr, ns, n)[i + 1..], tr[i].call);
      var t := C.FirstFinal(own);
      t < |own| && (own[t] == C.Timeout(tr[i].call) || (own[t].Receive? && own[t].request == Some(tr[i].call) && own[t].msg.Fail?))
    ensures var own := C.Own(Seen(tr, ns, n)[i + 1..], tr[i].call);
      var e := own[C.FirstFinal(own)];
      R.Closing(ns[n].flights[run].machine.phase.outcome) == [Error(
        if e.Timeout? then "Call timed out: " + tr[i].title + " (requestId: " + tr[i].call + ")"
        else if e.msg.fault.NoFault? then "Unknown error"
        else if e.msg.fault.ObjectFault? && e.msg.fault.message.Some? then e.msg.fault.message.value
        else e.msg.fault.text), Done(1, None)]
  {
    Reachable(tr, ns, n);
    var f := ns[n].flights[run];
    assert FlightOk(f, ns[n].ledger, ns[n].used, ns[n].now);
    AnswerIsOwn(tr, ns, i, n, run, C.Rejected(f.machine.phase.outcome.message));
  }

  /** A call times out 30 s after it was sent, no sooner and no later. */
  lemma TimeoutAt30s(tr: seq<Action>, ns: seq<Net>, n: nat) returns (i: nat)
    requires Behaviour(tr, ns) && n < |tr| && tr[n].CallDue?
    ensures i < n && HappeningOf(ns[i], tr[i]).Send? && HappeningOf(ns[i], tr[i]).call == tr[n].call
    ensures tr[n].at == HappeningOf(ns[i], tr[i]).now + 30000.0
  {
    assert Next(tr, ns, n);
    Reachable(tr, ns, n);
    LedgerIsSeen(tr, ns, n);
    i := C.PendingWasSent(Seen(tr, ns, n), tr[n].call);
    OnlySend(tr, ns, i, n);
    assert CallOk(ns[n].ledger, ns[n].used, tr[n].call);
    C.PendingAsSent(Seen(tr, ns, n), i, tr[n].call);
  }

  /** No two runs ever have the same call, so a result answers one run at most. */
  lemma NoSharedCall(tr: seq<Action>, ns: seq<Net>, n: nat, r: Id, s: Id)
    requires Behaviour(tr, ns) && n <= |tr| && r in ns[n].flights && s in ns[n].flights && r != s
    ensures ns[n].flights[r].call.Some? ==> ns[n].flights[r].call != ns[n].flights[s].call
  {
    Reachable(tr, ns, n);
  }

  // ---------- a run is the retry machine ----------

  /** What an action is to one run's machine. */
  function StimuliFor(net: Net, a: Action, r: Id): seq<R.Stimulus>
    requires r in net.flights
  {
    var f := net.flights[r];
    var reply := Settles(net.ledger, HappeningOf(net, a));
    if a.Continue? && a.run == r then
      if Attempts(net, a, r) && !Reaches(net, r) then
        [R.Proceed, R.CallRejects(ErrorObject("Host not connected: " + f.host + " (namespace: " + f.space + ")"))]
      else [R.Proceed]
    else if a.PauseDue? && a.run == r then [R.TimerFires]
    else if a.AbortRun? && a.run == r then [R.Abort(a.reason)]
    else if a.HostGoes? && a.host == f.host && !f.machine.phase.Ended? then [R.Abort("disconnect")]
    else if reply.Some? && f.call == Some(reply.value.0) && f.machine.phase.Calling? then [Reply(reply.value.1)]
    else []
  }

  function TapeOf(tr: seq<Action>, ns: seq<Net>, n: nat, r: Id): seq<R.Stimulus>
    requires n <= |tr| < |ns|
  {
    if n == 0 then []
    else TapeOf(tr, ns, n - 1, r) + if r in ns[n - 1].flights then StimuliFor(ns[n - 1], tr[n - 1], r) else []
  }

  /** What the stimuli of an action do to a run is what the retry machine does on them. */
  lemma StepDrives(net: Net, a: Action, r: Id)
    requires Legal(net, a) && r in net.flights
    ensures var (f, f') := (net.flights[r], Flights(net, a)[r]);
      var (m, out) := R.Drive(f.cfg, f.machine, StimuliFor(net, a, r));
      f'.cfg == f.cfg && f'.machine == m && f'.log == f.log + out
  {
    var f := net.flights[r];
    assert f.log + [] == f.log;
    NothingHappens(net.ledger);
    HappeningKinds(net.ledger, HappeningOf(net, a));
    if OfRun(a, r) {
      OwnActionDrives(net, a, r);
    } else if a.OtherCall? || a.Arrive? || a.CallDue? {
      var s := StimuliFor(net, a, r);
      if s != [] { DriveOne(f.cfg, f.machine, s[0]); assert s == [s[0]]; }
    } else if a.HostGoes? {
      DriveOne(f.cfg, f.machine, R.Abort("disconnect"));
    } else {
      OthersUnchanged(net, a, r);
    }
  }

  lemma DriveOne(cfg: R.Config, m: R.Machine, s: R.Stimulus)
    ensures R.Drive(cfg, m, [s]) == R.Step(cfg, m, s)
  {
    assert [s] == [s] + [];
    R.DriveFrom(cfg, m, s, []);
    assert R.Step(cfg, m, s).1 + [] == R.Step(cfg, m, s).1;
  }

  lemma OwnActionDrives(net: Net, a: Action, r: Id)
    requires Legal(net, a) && r in net.flights && OfRun(a, r)
    ensures var (f, f') := (net.flights[r], Flights(net, a)[r]);
      var (m, out) := R.Drive(f.cfg, f.machine, StimuliFor(net, a, r));
      f'.cfg == f.cfg && f'.machine == m && f'.log == f.log + out
  {
    var f := net.flights[r];
    assert f.log + [] == f.log;
    match a
    case PauseDue(_, _) => DriveOne(f.cfg, f.machine, R.TimerFires);
    case AbortRun(_, reason, _) => DriveOne(f.cfg, f.machine, R.Abort(reason));
    case Continue(_, _, _, _) =>
      DriveOne(f.cfg, f.machine, R.Proceed);
      if Attempts(net, a, r) && !Reaches(net, r) {
        var failed := R.CallRejects(ErrorObject(C.NotConnectedText(f.host, f.space)));
        assert [R.Proceed, failed] == [R.Proceed] + [failed];
        R.DriveFrom(f.cfg, f.machine, R.Proceed, [failed]);
        DriveOne(f.cfg, R.Step(f.cfg, f.machine, R.Proceed).0, failed);
      }
  }

  /** A run accepted by action b is at every moment where the retry machine is on the stimuli it was given
      since: its attempts' calls settling, its pauses ending, aborts and its own code going on. */
  lemma {:induction false} RunIsTheMachine(tr: seq<Action>, ns: seq<Net>, b: nat, n: nat, r: Id)
    requires Behaviour(tr, ns) && b < n <= |tr| && tr[b].Begin? && tr[b].run == r && r in ns[b + 1].flights
    ensures r in ns[n].flights && ns[n].flights[r].cfg == tr[b].cfg
    ensures (ns[n].flights[r].machine, ns[n].flights[r].log) == R.Drive(tr[b].cfg, R.Start(tr[b].signal), TapeOf(tr, ns, n, r))
    decreases n
  {
    assert Next(tr, ns, n - 1);
    if n == b + 1 {
      NotBegunYet(tr, ns, b, r);
    } else {
      RunIsTheMachine(tr, ns, b, n - 1, r);
      StepDrives(ns[n - 1], tr[n - 1], r);
      R.DriveAppend(tr[b].cfg, R.Start(tr[b].signal), TapeOf(tr, ns, n - 1, r), StimuliFor(ns[n - 1], tr[n - 1], r));
    }
  }

  lemma {:induction false} NotBegunYet(tr: seq<Action>, ns: seq<Net>, n: nat, r: Id)
    requires Behaviour(tr, ns) && n <= |tr| && r !in ns[n].flights
    ensures TapeOf(tr, ns, n, r) == []
  {
    if n > 0 {
      assert Next(tr, ns, n - 1);
      NotBegunYet(tr, ns, n - 1, r);
    }
  }

  /** An execution is accepted exactly when a host with the capability is there, on the one chosen, fresh. */
  lemma BeginsOnFirstHost(net: Net, a: Action)
    requires Legal(net, a) && a.Begin?
    ensures var (first, net') := (First(net.routes, a.space, "execution"), Step(net, a));
      && (a.run in net'.flights <==> first.Some?)
      && (first.Some? ==>
            net'.flights[a.run] == Flight(a.space, first.value, a.cfg, R.Machine(R.Starting(1), a.signal, 0), [], None, a.at, a.at))
  {
  }

  /** A call that is sent is waited for until its timer, 30 s on. */
  lemma AttemptWaits30s(net: Net, a: Action)
    requires Legal(net, a) && a.Continue? && Attempts(net, a, a.run) && Reaches(net, a.run)
    ensures var f := Step(net, a).flights[a.run];
      f.machine.phase == R.Calling(net.flights[a.run].machine.phase.attempt) && f.call == Some(a.call) && f.wake == a.at + 30000.0
  {
  }

  /** A pause lasts its delay. */
  lemma PauseLastsItsDelay(net: Net, a: Action)
    requires Legal(net, a) && a.Continue? && Step(net, a).flights[a.run].machine.phase.Pausing?
    ensures var f := Step(net, a).flights[a.run];
      f.wake == a.at + MaxReal(R.Delay(f.cfg, f.machine.phase.attempt), 0.0)
  {
  }
}
