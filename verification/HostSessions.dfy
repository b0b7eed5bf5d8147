/** Host sockets: what opening, using and closing one does to the registry and the dispatcher together.
    Each callback is one step; the process starts from a registry whose hosts are all unconnected. */
module HostSessions {
  import opened Collections
  import opened Messages
  import opened HostStore
  import H = HostStates
  import I = HostInvariants
  import E = HostEffects
  import R = Routing
  import D = Dispatcher
  import Reg = HostRegistries
  import B = AdaptiveBuffers

  // ---------- what a host may do ----------

  /** A client that registered over HTTP. */
  datatype Client = Client(name: string, capabilities: seq<string>)

  predicate KnownCapability(c: string) {
    c == "filesystem" || c == "git" || c == "editor-context" || c == "execution"
  }

  function Validated(caps: seq<string>): (known: seq<string>)
    ensures forall c :: c in known <==> c in caps && KnownCapability(c)
  {
    if caps == [] then []
    else (if KnownCapability(caps[0]) then [caps[0]] else []) + Validated(caps[1..])
  }

  /** A registered client's capabilities are those it registered with, whatever its hello claims. */
  function Effective(client: Option<Client>, hello: seq<string>): seq<string> {
    match client
    case Some(c) => Validated(c.capabilities)
    case None => Validated(hello)
  }

  // ---------- the step system ----------

  datatype Line = Line(key: Key, lastHeartbeat: int)

  datatype Gate = Gate(registry: H.Registry, routes: R.Routes, lines: map<Id, Line>)

  datatype Action =
    | Hello(conn: Id, key: Key, client: Option<Client>, hello: seq<string>, now: int)
    | Beat(conn: Id, now: int)
    | Watch(conn: Id, now: int)
    | Close(conn: Id, now: int)
    | Other(op: H.Op)

  /** What else happens to the registry while the process lives. */
  predicate Elsewhere(op: H.Op) {
    op.RegisterHost? || op.GraceFires? || op.Look? || op.ResolveToken? || op.Deregister?
  }

  ghost predicate Legal(g: Gate, a: Action) {
    match a
    case Hello(conn, _, _, _, _) => conn !in g.lines
    case Beat(conn, _) => conn in g.lines
    case Watch(conn, _) => conn in g.lines
    case Close(conn, _) => conn in g.lines
    case Other(op) => Elsewhere(op) && H.Legal(g.registry, op)
  }

  function Announced(a: Action): H.Op
    requires a.Hello?
  {
    H.EnsureRegistered(a.key, if a.client.Some? then a.client.value.name else a.key.1, Effective(a.client, a.hello), a.now)
  }

  /** What an action does to the registry. */
  function Registered(g: Gate, a: Action): H.Registry
    requires a.Hello? || a.Other? || a.conn in g.lines
  {
    match a
    case Hello(conn, key, _, _, now) => H.Step(H.Step(g.registry, Announced(a)), H.SetOnline(key, conn, now))
    case Beat(conn, now) => H.Step(g.registry, H.Heartbeat(g.lines[conn].key, now))
    case Watch(conn, now) =>
      if now - g.lines[conn].lastHeartbeat > 40000 then H.Step(g.registry, H.MarkDegraded(g.lines[conn].key)) else g.registry
    case Close(conn, now) => H.Step(g.registry, H.SetOffline(g.lines[conn].key, conn, now))
    case Other(op) => H.Step(g.registry, op)
  }

  function Step(g: Gate, a: Action): Gate
    requires a.Hello? || a.Other? || a.conn in g.lines
  {
    match a
    case Hello(conn, key, client, hello, now) =>
      Gate(Registered(g, a), R.Register(g.routes, key.1, key.0, conn, Effective(client, hello)), g.lines[conn := Line(key, now)])
    case Beat(conn, now) =>
      g.(registry := Registered(g, a), lines := g.lines[conn := g.lines[conn].(lastHeartbeat := now)])
    case Close(conn, _) =>
      Gate(Registered(g, a), R.Remove(g.routes, g.lines[conn].key.1, g.lines[conn].key.0), g.lines - {conn})
    case _ => g.(registry := Registered(g, a))
  }

  ghost predicate Next(tr: seq<Action>, gs: seq<Gate>, i: nat)
    requires i < |tr| < |gs|
  {
    Legal(gs[i], tr[i]) && gs[i + 1] == Step(gs[i], tr[i])
  }

  ghost predicate Behaviour(tr: seq<Action>, gs: seq<Gate>) {
    && |gs| == |tr| + 1 && Fresh(gs[0])
    && forall i :: 0 <= i < |tr| ==> Next(tr, gs, i)
  }

  /** A process that has just restored its registry. */
  ghost predicate Fresh(g: Gate) {
    && I.Inv(g.registry) && g.routes == R.NO_ROUTES && g.lines == map[]
    && forall k :: k in g.registry.hosts ==> g.registry.hosts[k].connections == []
  }

  // ---------- one host's socket, three ways ----------

  ghost predicate Listed(g: Gate, k: Key, conn: Id) {
    k in g.registry.hosts && g.registry.hosts[k].connections == [conn]
  }

  ghost predicate Routed(g: Gate, k: Key, conn: Id) {
    R.Connected(g.routes, k.0, k.1) && g.routes.connections[k.0][k.1] == conn
  }

  ghost predicate Open(g: Gate, k: Key, conn: Id) {
    conn in g.lines && g.lines[conn].key == k
  }

  function Connections(r: H.Registry, k: Key): seq<Id> {
    if k in r.hosts then r.hosts[k].connections else []
  }

  lemma WarmConnections(r: H.Registry, key: Key, k: Key)
    ensures Connections(H.Warmed(r, key), k) == Connections(r, k)
    ensures H.Found(r, key).Some? ==> key in H.Warmed(r, key).hosts
  {
  }

  lemma EnsureConnections(r: H.Registry, op: H.Op, k: Key)
    requires op.EnsureRegistered? && I.Keyed(r)
    ensures Connections(H.Step(r, op), k) == Connections(r, k) && op.key in H.Step(r, op).hosts
  {
    WarmConnections(r, op.key, k);
  }

  lemma ElsewhereConnections(r: H.Registry, op: H.Op, k: Key)
    requires Elsewhere(op) && H.Legal(r, op)
    ensures Connections(H.Step(r, op), k) == if op == H.Deregister(k) then [] else Connections(r, k)
  {
    if op.Look? { WarmConnections(r, op.key, k); }
  }

  lemma DegradeConnections(r: H.Registry, key: Key, k: Key)
    ensures Connections(H.Step(r, H.MarkDegraded(key)), k) == Connections(r, k)
  {
    WarmConnections(r, key, k);
  }

  lemma OnlineConnections(r: H.Registry, key: Key, conn: Id, now: int, k: Key)
    ensures Connections(H.WentOnline(r, key, conn, now), k) == if k == key && key in r.hosts then [conn] else Connections(r, k)
  {
  }

  lemma OfflineConnections(r: H.Registry, key: Key, conn: Id, now: int, k: Key)
    ensures Connections(H.WentOffline(r, key, conn, now), k) == if k == key then Without(Connections(r, k), conn) else Connections(r, k)
  {
  }

  /** The sockets a host is listed with after an action. */
  lemma ConnectionsAfter(g: Gate, a: Action, k: Key)
    requires Legal(g, a) && I.Inv(g.registry)
    ensures Connections(Step(g, a).registry, k) ==
      if a.Hello? && a.key == k then [a.conn]
      else if a.Close? && g.lines[a.conn].key == k then Without(Connections(g.registry, k), a.conn)
      else if a == Other(H.Deregister(k)) then []
      else Connections(g.registry, k)
  {
    match a
    case Hello(conn, key, _, _, now) =>
      EnsureConnections(g.registry, Announced(a), k);
      OnlineConnections(H.Step(g.registry, Announced(a)), key, conn, now, k);
    case Close(conn, now) => OfflineConnections(g.registry, g.lines[conn].key, conn, now, k);
    case Watch(conn, _) => DegradeConnections(g.registry, g.lines[conn].key, k);
    case Other(op) => ElsewhereConnections(g.registry, op, k);
    case Beat(_, _) =>
  }

  lemma RoutedAfter(g: Gate, a: Action, k: Key, conn: Id)
    requires Legal(g, a)
    ensures Routed(Step(g, a), k, conn) <==>
      if a.Hello? && a.key == k then conn == a.conn else !(a.Close? && g.lines[a.conn].key == k) && Routed(g, k, conn)
  {
    match a
    case Hello(c, key, client, hello, _) => R.RegisterAt(g.routes, key.1, key.0, c, Effective(client, hello), k.0, k.1, "");
    case Close(c, _) => R.RemoveAt(g.routes, g.lines[c].key.1, g.lines[c].key.0, k.0, k.1, "");
    case _ =>
  }

  lemma OpenAfter(g: Gate, a: Action, k: Key, conn: Id)
    requires Legal(g, a)
    ensures Open(Step(g, a), k, conn) <==>
      if a.Hello? && a.conn == conn then a.key == k else !(a.Close? && a.conn == conn) && Open(g, k, conn)
  {
  }

  lemma StepKeepsInv(g: Gate, a: Action)
    requires Legal(g, a) && I.Inv(g.registry)
    ensures I.Inv(Step(g, a).registry)
  {
    match a
    case Hello(conn, key, _, _, now) =>
      I.StepInv(g.registry, Announced(a));
      I.StepInv(H.Step(g.registry, Announced(a)), H.SetOnline(key, conn, now));
    case Beat(conn, now) => I.StepInv(g.registry, H.Heartbeat(g.lines[conn].key, now));
    case Watch(conn, now) => I.StepInv(g.registry, H.MarkDegraded(g.lines[conn].key));
    case Close(conn, now) => I.StepInv(g.registry, H.SetOffline(g.lines[conn].key, conn, now));
    case Other(op) => I.StepInv(g.registry, op);
  }

  lemma {:induction false} Reachable(tr: seq<Action>, gs: seq<Gate>, n: nat)
    requires Behaviour(tr, gs) && n <= |tr|
    ensures I.Inv(gs[n].registry)
  {
    if n > 0 {
      Reachable(tr, gs, n - 1);
      assert Next(tr, gs, n - 1);
      StepKeepsInv(gs[n - 1], tr[n - 1]);
    }
  }

  // ---------- since the last hello ----------

  predicate Greets(a: Action, k: Key) {
    a.Hello? && a.key == k
  }

  ghost predicate Shuts(g: Gate, a: Action, k: Key) {
    a.Close? && Open(g, k, a.conn)
  }

  /** Action s is the last hello of the host before moment n. */
  ghost predicate LastHello(tr: seq<Action>, s: nat, n: nat, k: Key) {
    s < n <= |tr| && Greets(tr[s], k) && forall j :: s < j < n ==> !Greets(tr[j], k)
  }

  /** Since action s and before moment n: the socket was not closed, */
  ghost predicate Stays(tr: seq<Action>, s: nat, n: nat, conn: Id)
    requires n <= |tr|
  {
    forall j :: s < j < n ==> !(tr[j].Close? && tr[j].conn == conn)
  }

  /** no other socket of the host was closed, */
  ghost predicate OthersStay(tr: seq<Action>, gs: seq<Gate>, s: nat, n: nat, k: Key, conn: Id)
    requires n <= |tr| < |gs|
  {
    forall j :: s < j < n && Shuts(gs[j], tr[j], k) ==> tr[j].conn == conn
  }

  /** and the host was not deregistered. */
  ghost predicate Kept(tr: seq<Action>, s: nat, n: nat, k: Key)
    requires n <= |tr|
  {
    forall j :: s < j < n ==> tr[j] != Other(H.Deregister(k))
  }

  ghost predicate LineFollows(g: Gate, k: Key, conn: Id, stays: bool) {
    Open(g, k, conn) <==> stays
  }

  ghost predicate RouteFollows(g: Gate, k: Key, conn: Id, unshut: bool) {
    forall c :: Routed(g, k, c) <==> c == conn && unshut
  }

  ghost predicate ListFollows(g: Gate, k: Key, conn: Id, listed: bool) {
    Connections(g.registry, k) == if listed then [conn] else []
  }

  lemma HelloStarts(g: Gate, a: Action)
    requires Legal(g, a) && a.Hello? && I.Inv(g.registry)
    ensures LineFollows(Step(g, a), a.key, a.conn, true)
    ensures RouteFollows(Step(g, a), a.key, a.conn, true)
    ensures ListFollows(Step(g, a), a.key, a.conn, true)
  {
    ConnectionsAfter(g, a, a.key);
    OpenAfter(g, a, a.key, a.conn);
    forall c ensures Routed(Step(g, a), a.key, c) <==> c == a.conn { RoutedAfter(g, a, a.key, c); }
  }

  lemma RouteContinues(g: Gate, a: Action, k: Key, conn: Id, unshut: bool)
    requires Legal(g, a) && !Greets(a, k) && RouteFollows(g, k, conn, unshut)
    ensures RouteFollows(Step(g, a), k, conn, unshut && !Shuts(g, a, k))
  {
    forall c ensures Routed(Step(g, a), k, c) <==> c == conn && unshut && !Shuts(g, a, k) { RoutedAfter(g, a, k, c); }
  }

  lemma ListContinues(g: Gate, a: Action, k: Key, conn: Id, stays: bool, kept: bool)
    requires Legal(g, a) && I.Inv(g.registry) && !Greets(a, k)
    requires LineFollows(g, k, conn, stays) && ListFollows(g, k, conn, stays && kept)
    ensures ListFollows(Step(g, a), k, conn,
      stays && !(a.Close? && a.conn == conn) && kept && a != Other(H.Deregister(k)))
  {
    ConnectionsAfter(g, a, k);
  }

  /** Over every behaviour, sockets overlapping or not: from a host's last hello on, its socket is open
      until it is closed; calls go to it, and to no other, until any socket of the host is closed; and
      the registry lists the host with it, and with no other, until it is closed or the host deregistered. */
  lemma {:induction false} SinceLastHello(tr: seq<Action>, gs: seq<Gate>, s: nat, n: nat, k: Key)
    requires Behaviour(tr, gs) && LastHello(tr, s, n, k)
    ensures var conn := tr[s].conn;
      && (Open(gs[n], k, conn) <==> Stays(tr, s, n, conn))
      && (forall c :: Routed(gs[n], k, c) <==> c == conn && Stays(tr, s, n, conn) && OthersStay(tr, gs, s, n, k, conn))
      && Connections(gs[n].registry, k) == (if Stays(tr, s, n, conn) && Kept(tr, s, n, k) then [conn] else [])
    decreases n
  {
    var conn, m := tr[s].conn, n - 1;
    assert Next(tr, gs, m);
    Reachable(tr, gs, m);
    if s == m {
      HelloStarts(gs[m], tr[m]);
    } else {
      assert LastHello(tr, s, m, k) && !Greets(tr[m], k);
      SinceLastHello(tr, gs, s, m, k);
      var stays, others, kept := Stays(tr, s, m, conn), OthersStay(tr, gs, s, m, k, conn), Kept(tr, s, m, k);
      assert LineFollows(gs[m], k, conn, stays);
      OpenAfter(gs[m], tr[m], k, conn);
      RouteContinues(gs[m], tr[m], k, conn, stays && others);
      ListContinues(gs[m], tr[m], k, conn, stays, kept);
      assert Stays(tr, s, n, conn) <==> stays && !(tr[m].Close? && tr[m].conn == conn);
      assert OthersStay(tr, gs, s, n, k, conn) <==> others && (Shuts(gs[m], tr[m], k) ==> tr[m].conn == conn);
      assert Kept(tr, s, n, k) <==> kept && tr[m] != Other(H.Deregister(k));
    }
  }

  ghost predicate Silent(tr: seq<Action>, n: nat, k: Key)
    requires n <= |tr|
  {
    forall j :: 0 <= j < n ==> !Greets(tr[j], k)
  }

  /** A host that has not said hello has no open socket, no route and no listed socket. */
  lemma {:induction false} NothingBeforeHello(tr: seq<Action>, gs: seq<Gate>, n: nat, k: Key)
    requires Behaviour(tr, gs) && n <= |tr| && Silent(tr, n, k)
    ensures forall c :: !Open(gs[n], k, c) && !Routed(gs[n], k, c)
    ensures Connections(gs[n].registry, k) == []
  {
    if n > 0 {
      var m := n - 1;
      NothingBeforeHello(tr, gs, m, k);
      Reachable(tr, gs, m);
      assert Next(tr, gs, m) && !Greets(tr[m], k);
      ConnectionsAfter(gs[m], tr[m], k);
      forall c ensures !Open(gs[n], k, c) && !Routed(gs[n], k, c) {
        OpenAfter(gs[m], tr[m], k, c);
        RoutedAfter(gs[m], tr[m], k, c);
      }
    }
  }

  lemma {:induction false} FindLastHello(tr: seq<Action>, n: nat, k: Key) returns (s: Option<nat>)
    requires n <= |tr|
    ensures if s.Some? then LastHello(tr, s.value, n, k) else Silent(tr, n, k)
  {
    if n == 0 { return None; }
    if Greets(tr[n - 1], k) { return Some(n - 1); }
    s := FindLastHello(tr, n - 1, k);
  }

  /** The registry shows the host as online on this socket. */
  ghost predicate Shown(g: Gate, k: Key, conn: Id) {
    Listed(g, k, conn) && g.registry.hosts[k].status == Online
  }

  lemma OnlineSaidHello(tr: seq<Action>, gs: seq<Gate>, n: nat, k: Key) returns (s: nat)
    requires Behaviour(tr, gs) && n <= |tr|
    requires k in gs[n].registry.hosts && gs[n].registry.hosts[k].status == Online
    ensures LastHello(tr, s, n, k)
  {
    Reachable(tr, gs, n);
    assert I.StatusOk(gs[n].registry.hosts[k], k in gs[n].registry.timers);
    var last := FindLastHello(tr, n, k);
    if last.None? { NothingBeforeHello(tr, gs, n, k); }
    s := last.value;
  }

  /** A host shown as online is shown with one socket, that of its last hello, which is open; and it can
      be called, and then on that socket, exactly when no other socket of the host was closed since. */
  lemma OnlineIsCallable(tr: seq<Action>, gs: seq<Gate>, s: nat, n: nat, k: Key)
    requires Behaviour(tr, gs) && LastHello(tr, s, n, k)
    requires k in gs[n].registry.hosts && gs[n].registry.hosts[k].status == Online
    ensures Shown(gs[n], k, tr[s].conn) && Open(gs[n], k, tr[s].conn)
    ensures R.Connected(gs[n].routes, k.0, k.1) <==> OthersStay(tr, gs, s, n, k, tr[s].conn)
    ensures R.Connected(gs[n].routes, k.0, k.1) ==> Routed(gs[n], k, tr[s].conn)
  {
    Reachable(tr, gs, n);
    assert I.StatusOk(gs[n].registry.hosts[k], k in gs[n].registry.timers);
    SinceLastHello(tr, gs, s, n, k);
    assert Routed(gs[n], k, tr[s].conn) <==> OthersStay(tr, gs, s, n, k, tr[s].conn);
    if R.Connected(gs[n].routes, k.0, k.1) { assert Routed(gs[n], k, gs[n].routes.connections[k.0][k.1]); }
  }

  /** Open, called and listed: of a host's open sockets only that of the last hello is ever called or
      listed, the one exactly unless another was closed since, the other exactly unless the host was
      deregistered since. */
  lemma OneSocketThreeWays(tr: seq<Action>, gs: seq<Gate>, s: nat, n: nat, k: Key, conn: Id)
    requires Behaviour(tr, gs) && LastHello(tr, s, n, k)
    ensures Routed(gs[n], k, conn) <==>
      Open(gs[n], k, conn) && conn == tr[s].conn && OthersStay(tr, gs, s, n, k, conn)
    ensures Listed(gs[n], k, conn) <==>
      Open(gs[n], k, conn) && conn == tr[s].conn && Kept(tr, s, n, k)
  {
    SinceLastHello(tr, gs, s, n, k);
    assert Listed(gs[n], k, conn) <==> Connections(gs[n].registry, k) == [conn];
  }

  /** The host opens no second socket while it has one open. */
  ghost predicate OneAtATime(tr: seq<Action>, gs: seq<Gate>, n: nat, k: Key)
    requires n <= |tr| < |gs|
  {
    forall i :: 0 <= i < n && Greets(tr[i], k) ==> forall c :: !Open(gs[i], k, c)
  }

  lemma {:induction false} OnlyLastIsOpen(tr: seq<Action>, gs: seq<Gate>, s: nat, n: nat, k: Key, conn: Id)
    requires Behaviour(tr, gs) && LastHello(tr, s, n, k) && OneAtATime(tr, gs, n, k) && Open(gs[n], k, conn)
    ensures conn == tr[s].conn
    decreases n
  {
    assert Next(tr, gs, n - 1);
    OpenAfter(gs[n - 1], tr[n - 1], k, conn);
    if s < n - 1 {
      assert LastHello(tr, s, n - 1, k) && !Greets(tr[n - 1], k);
      OnlyLastIsOpen(tr, gs, s, n - 1, k, conn);
    }
  }

  /** So a host that opens one socket at a time is called on exactly the socket it has open. */
  lemma OneAtATimeIsCallable(tr: seq<Action>, gs: seq<Gate>, s: nat, n: nat, k: Key, conn: Id)
    requires Behaviour(tr, gs) && LastHello(tr, s, n, k) && OneAtATime(tr, gs, n, k)
    ensures Routed(gs[n], k, conn) <==> Open(gs[n], k, conn)
    ensures Listed(gs[n], k, conn) <==> Open(gs[n], k, conn) && Kept(tr, s, n, k)
  {
    OneSocketThreeWays(tr, gs, s, n, k, conn);
    if Open(gs[n], k, conn) {
      OnlyLastIsOpen(tr, gs, s, n, k, conn);
      forall j | s < j < n && Shuts(gs[j], tr[j], k) ensures tr[j].conn == conn {
        assert LastHello(tr, s, j, k);
        OnlyLastIsOpen(tr, gs, s, j, k, tr[j].conn);
      }
    }
  }

  lemma HelloGoesOnline(g: Gate, a: Action)
    requires a.Hello? && I.Keyed(g.registry)
    ensures Shown(Step(g, a), a.key, a.conn)
  {
    EnsureConnections(g.registry, Announced(a), a.key);
  }

  lemma OtherClosesStaysOnline(g: Gate, a: Action, conn: Id)
    requires a.Close? && Legal(g, a) && conn != a.conn && Shown(g, g.lines[a.conn].key, conn)
    ensures Shown(Step(g, a), g.lines[a.conn].key, conn)
  {
  }

  /** With two sockets open at once it can be shown online and have no route: the older one is closed. */
  lemma OnlineButNotCallable(g: Gate, k: Key) returns (tr: seq<Action>, gs: seq<Gate>)
    requires Fresh(g)
    ensures Behaviour(tr, gs) && |tr| == 3
    ensures Open(gs[3], k, "b") && Shown(gs[3], k, "b") && !R.Connected(gs[3].routes, k.0, k.1)
  {
    tr, gs := Extended([], [g], Hello("a", k, None, [], 0));
    tr, gs := Extended(tr, gs, Hello("b", k, None, [], 0));
    Reachable(tr, gs, 1);
    HelloGoesOnline(gs[1], tr[1]);
    assert Open(gs[2], k, "a") && Open(gs[2], k, "b");
    OtherClosesStaysOnline(gs[2], Close("a", 0), "b");
    R.RemoveAt(gs[2].routes, k.1, k.0, k.0, k.1, "");
    tr, gs := Extended(tr, gs, Close("a", 0));
  }

  lemma Extended(tr: seq<Action>, gs: seq<Gate>, a: Action) returns (tr': seq<Action>, gs': seq<Gate>)
    requires Behaviour(tr, gs) && Legal(gs[|tr|], a)
    ensures tr' == tr + [a] && gs' == gs + [Step(gs[|tr|], a)]
    ensures Behaviour(tr', gs')
  {
    var next := Step(gs[|tr|], a);
    tr', gs' := tr + [a], gs + [next];
    forall i | 0 <= i < |tr'| ensures Next(tr', gs', i) {
      if i < |tr| {
        assert Next(tr, gs, i);
        NextStays(tr, gs, a, next, i);
      }
    }
  }

  lemma NextStays(tr: seq<Action>, gs: seq<Gate>, a: Action, next: Gate, i: nat)
    requires i < |tr| == |gs| - 1 && Next(tr, gs, i)
    ensures Next(tr + [a], gs + [next], i)
  {
    assert (tr + [a])[i] == tr[i] && (gs + [next])[i] == gs[i] && (gs + [next])[i + 1] == gs[i + 1];
  }

  /** Even so, no socket is listed for a host or called that is not an open socket of that host. */
  ghost predicate Safe(g: Gate, k: Key, conn: Id) {
    Routed(g, k, conn) || conn in Connections(g.registry, k) ==> Open(g, k, conn)
  }

  lemma StepSafe(g: Gate, a: Action, k: Key, conn: Id)
    requires Legal(g, a) && I.Inv(g.registry) && Safe(g, k, conn)
    ensures Safe(Step(g, a), k, conn)
  {
    ConnectionsAfter(g, a, k);
    RoutedAfter(g, a, k, conn);
    OpenAfter(g, a, k, conn);
  }

  lemma {:induction false} NoClosedSocketIsUsed(tr: seq<Action>, gs: seq<Gate>, n: nat, k: Key, conn: Id)
    requires Behaviour(tr, gs) && n <= |tr|
    ensures Safe(gs[n], k, conn)
  {
    if n > 0 {
      NoClosedSocketIsUsed(tr, gs, n - 1, k, conn);
      Reachable(tr, gs, n - 1);
      assert Next(tr, gs, n - 1);
      StepSafe(gs[n - 1], tr[n - 1], k, conn);
    }
  }

  // ---------- what a host may be called for ----------

  ghost predicate Holds(g: Gate, k: Key, cap: string) {
    k.1 in R.Holders(g.routes, k.0, cap)
  }

  /** A hello that gives the host the capability: a known one, from its client record if it has one and
      else from its own claim. */
  predicate Bestows(a: Action, k: Key, cap: string) {
    && Greets(a, k)
    && cap in {"filesystem", "git", "editor-context", "execution"}
    && cap in (if a.client.Some? then a.client.value.capabilities else a.hello)
  }

  lemma EffectiveExactly(client: Option<Client>, hello: seq<string>, cap: string)
    ensures cap in Effective(client, hello) <==>
      && cap in {"filesystem", "git", "editor-context", "execution"}
      && cap in (if client.Some? then client.value.capabilities else hello)
  {
  }

  lemma HoldsAfterHello(g: Gate, a: Action, k: Key, cap: string)
    requires a.Hello?
    ensures Holds(Step(g, a), k, cap) <==> Bestows(a, k, cap) || Holds(g, k, cap)
  {
    EffectiveExactly(a.client, a.hello, cap);
    R.RegisterAt(g.routes, a.key.1, a.key.0, a.conn, Effective(a.client, a.hello), k.0, k.1, cap);
  }

  lemma HoldsAfterClose(g: Gate, a: Action, k: Key, cap: string)
    requires a.Close? && a.conn in g.lines
    ensures Holds(Step(g, a), k, cap) <==> !Shuts(g, a, k) && Holds(g, k, cap)
  {
    var key := g.lines[a.conn].key;
    R.RemoveAt(g.routes, key.1, key.0, k.0, k.1, cap);
  }

  lemma HoldsAfter(g: Gate, a: Action, k: Key, cap: string)
    requires Legal(g, a)
    ensures Holds(Step(g, a), k, cap) <==>
      Bestows(a, k, cap) || (!Shuts(g, a, k) && Holds(g, k, cap))
  {
    if a.Hello? {
      HoldsAfterHello(g, a, k, cap);
    } else if a.Close? {
      HoldsAfterClose(g, a, k, cap);
    } else {
      assert Step(g, a).routes == g.routes;
    }
  }

  lemma HoldsNext(tr: seq<Action>, gs: seq<Gate>, n: nat, k: Key, cap: string)
    requires Behaviour(tr, gs) && 0 < n <= |tr|
    ensures Holds(gs[n], k, cap) <==>
      Bestows(tr[n - 1], k, cap) || (!Shuts(gs[n - 1], tr[n - 1], k) && Holds(gs[n - 1], k, cap))
  {
    assert Next(tr, gs, n - 1);
    HoldsAfter(gs[n - 1], tr[n - 1], k, cap);
  }

  /** Hello i gave the host the capability, and no socket of the host was closed since. */
  ghost predicate Grants(tr: seq<Action>, gs: seq<Gate>, i: nat, n: nat, k: Key, cap: string)
    requires i < n <= |tr| < |gs|
  {
    Bestows(tr[i], k, cap) && forall j :: i < j < n ==> !Shuts(gs[j], tr[j], k)
  }

  ghost predicate Given(tr: seq<Action>, gs: seq<Gate>, n: nat, k: Key, cap: string)
    requires n <= |tr| < |gs|
  {
    exists i :: 0 <= i < n && Grants(tr, gs, i, n, k, cap)
  }

  lemma GrantsSnoc(tr: seq<Action>, gs: seq<Gate>, i: nat, n: nat, k: Key, cap: string)
    requires i < n <= |tr| < |gs|
    ensures Grants(tr, gs, i, n, k, cap) <==>
      if i == n - 1 then Bestows(tr[i], k, cap) else Grants(tr, gs, i, n - 1, k, cap) && !Shuts(gs[n - 1], tr[n - 1], k)
  {
  }

  lemma GivenSnoc(tr: seq<Action>, gs: seq<Gate>, n: nat, k: Key, cap: string)
    requires 0 < n <= |tr| < |gs|
    ensures Given(tr, gs, n, k, cap) <==>
      Bestows(tr[n - 1], k, cap) || (!Shuts(gs[n - 1], tr[n - 1], k) && Given(tr, gs, n - 1, k, cap))
  {
    GrantsSnoc(tr, gs, n - 1, n, k, cap);
    if !Shuts(gs[n - 1], tr[n - 1], k) && Given(tr, gs, n - 1, k, cap) {
      var i :| 0 <= i < n - 1 && Grants(tr, gs, i, n - 1, k, cap);
      GrantsSnoc(tr, gs, i, n, k, cap);
    }
    if Given(tr, gs, n, k, cap) {
      var i :| 0 <= i < n && Grants(tr, gs, i, n, k, cap);
      GrantsSnoc(tr, gs, i, n, k, cap);
    }
  }

  lemma NothingHeldYet(g: Gate, k: Key, cap: string)
    requires g.routes == R.NO_ROUTES
    ensures !Holds(g, k, cap)
  {
  }

  lemma HoldsOneMore(tr: seq<Action>, gs: seq<Gate>, n: nat, k: Key, cap: string)
    requires Behaviour(tr, gs) && 0 < n <= |tr|
    requires Holds(gs[n - 1], k, cap) <==> Given(tr, gs, n - 1, k, cap)
    ensures Holds(gs[n], k, cap) <==> Given(tr, gs, n, k, cap)
  {
    HoldsNext(tr, gs, n, k, cap);
    GivenSnoc(tr, gs, n, k, cap);
  }

  /** Over every behaviour: a host holds exactly the capabilities some hello of it gave it since a socket
      of it was last closed. */
  lemma {:induction false} HoldsWhatHellosGave(tr: seq<Action>, gs: seq<Gate>, n: nat, k: Key, cap: string)
    requires Behaviour(tr, gs) && n <= |tr|
    ensures Holds(gs[n], k, cap) <==> Given(tr, gs, n, k, cap)
  {
    if n == 0 {
      NothingHeldYet(gs[0], k, cap);
    } else {
      HoldsWhatHellosGave(tr, gs, n - 1, k, cap);
      HoldsOneMore(tr, gs, n, k, cap);
    }
  }

  /** A host that only ever says hello as a registered client can be called for nothing it did not
      register: whatever its hellos claim, what it holds is known and in one of its client records. */
  lemma ClientsHoldOnlyWhatTheyRegistered(tr: seq<Action>, gs: seq<Gate>, n: nat, k: Key, cap: string)
    requires Behaviour(tr, gs) && n <= |tr| && Holds(gs[n], k, cap)
    requires forall i :: 0 <= i < n && Greets(tr[i], k) ==> tr[i].client.Some?
    ensures KnownCapability(cap)
    ensures exists i :: 0 <= i < n && Greets(tr[i], k) && cap in tr[i].client.value.capabilities
  {
    HoldsWhatHellosGave(tr, gs, n, k, cap);
    var i :| 0 <= i < n && Grants(tr, gs, i, n, k, cap);
    assert Greets(tr[i], k) && cap in tr[i].client.value.capabilities && KnownCapability(cap);
  }

  // ---------- silence ----------

  predicate HeardOn(a: Action, conn: Id) {
    (a.Hello? || a.Beat?) && a.conn == conn
  }

  /** Action j is the last by which the host was heard on the socket. */
  ghost predicate LastHeard(tr: seq<Action>, j: nat, n: nat, conn: Id) {
    j < n <= |tr| && HeardOn(tr[j], conn) && forall i :: j < i < n ==> !HeardOn(tr[i], conn)
  }

  lemma LineAfter(g: Gate, a: Action, conn: Id)
    requires Legal(g, a) && conn in Step(g, a).lines
    ensures if HeardOn(a, conn) then Step(g, a).lines[conn].lastHeartbeat == a.now
            else conn in g.lines && Step(g, a).lines[conn] == g.lines[conn]
  {
  }

  /** A line remembers when its host was last heard. */
  lemma {:induction false} LineRemembers(tr: seq<Action>, gs: seq<Gate>, n: nat, conn: Id) returns (j: nat)
    requires Behaviour(tr, gs) && n <= |tr| && conn in gs[n].lines
    ensures LastHeard(tr, j, n, conn) && gs[n].lines[conn].lastHeartbeat == tr[j].now
  {
    assert n > 0;
    assert Next(tr, gs, n - 1);
    LineAfter(gs[n - 1], tr[n - 1], conn);
    if HeardOn(tr[n - 1], conn) {
      j := n - 1;
    } else {
      j := LineRemembers(tr, gs, n - 1, conn);
    }
  }

  lemma OneLastHeard(tr: seq<Action>, i: nat, j: nat, n: nat, conn: Id)
    requires LastHeard(tr, i, n, conn) && LastHeard(tr, j, n, conn)
    ensures i == j
  {
  }

  /** The watchdog finds a host degraded that has been silent for more than 40 s, heartbeat and hello
      counted, and otherwise changes nothing. */
  lemma SilentHostIsDegraded(tr: seq<Action>, gs: seq<Gate>, j: nat, n: nat, conn: Id)
    requires Behaviour(tr, gs) && n < |tr| && tr[n].Watch? && tr[n].conn == conn && LastHeard(tr, j, n, conn)
    ensures if tr[n].now - tr[j].now > 40000 then
        conn in gs[n].lines && E.Flagged(gs[n].registry, gs[n + 1].registry, gs[n].lines[conn].key)
        && gs[n + 1].routes == gs[n].routes && gs[n + 1].lines == gs[n].lines
      else gs[n + 1] == gs[n]
  {
    assert Next(tr, gs, n);
    var last := LineRemembers(tr, gs, n, conn);
    OneLastHeard(tr, j, last, n, conn);
    E.DegradeEffect(gs[n].registry, gs[n].lines[conn].key);
  }

  /** A heartbeat: the host was seen now, the line heard now, and nothing else. */
  lemma BeatEffect(g: Gate, conn: Id, now: int)
    requires conn in g.lines
    ensures var g' := Step(g, Beat(conn, now));
      && E.Seen(g.registry, g'.registry, g.lines[conn].key, now) && g'.routes == g.routes
      && g'.lines == g.lines[conn := Line(g.lines[conn].key, now)]
  {
    E.HeartbeatEffect(g.registry, g.lines[conn].key, now);
  }

  /** A hello: the host is online on this socket alone, seen now, with no timer, called by its client's name
      if it is new; its line is open; and its calls go to this socket. */
  lemma HelloEffect(g: Gate, a: Action)
    requires a.Hello? && I.Inv(g.registry)
    ensures var (g', k) := (Step(g, a), a.key);
      && Shown(g', k, a.conn) && g'.registry.hosts[k].lastSeen == a.now && k !in g'.registry.timers
      && (H.Found(g.registry, k).None? ==> g'.registry.hosts[k].profile.name == if a.client.Some? then a.client.value.name else k.1)
      && g'.lines == g.lines[a.conn := Line(k, a.now)] && Routed(g', k, a.conn)
  {
    var r1 := H.Step(g.registry, Announced(a));
    I.StepInv(g.registry, Announced(a));
    EnsureConnections(g.registry, Announced(a), a.key);
    E.SetOnlineEffect(r1, a.key, a.conn, a.now);
    if H.Found(g.registry, a.key).None? { E.AnnounceNewEffect(g.registry, Announced(a)); }
    R.RegisterAt(g.routes, a.key.1, a.key.0, a.conn, Effective(a.client, a.hello), a.key.0, a.key.1, "");
  }

  /** A close: the host loses its route and this connection, and with the last one enters its grace period. */
  lemma CloseEffect(g: Gate, conn: Id, now: int)
    requires conn in g.lines && I.Keyed(g.registry)
    ensures var (g', k) := (Step(g, Close(conn, now)), g.lines[conn].key);
      && g'.lines == g.lines - {conn} && !R.Connected(g'.routes, k.0, k.1)
      && (if k !in g.registry.hosts then g'.registry == g.registry
          else if E.OnlyConnection(g.registry.hosts[k], conn) then E.LostLast(g.registry, g'.registry, k, now)
          else E.LostOne(g.registry, g'.registry, k, conn, now))
  {
    var k := g.lines[conn].key;
    E.SetOfflineEffect(g.registry, k, conn, now);
    R.RemoveAt(g.routes, k.1, k.0, k.0, k.1, "");
  }

  // ---------- the handlers ----------

  datatype Outbound = Negotiate(versions: seq<string>) | Connected | Call(call: B.BufferedCall) | Ack

  function CallsOf(calls: seq<B.BufferedCall>): (out: seq<Outbound>)
    ensures |out| == |calls| && forall i :: 0 <= i < |out| ==> out[i] == Call(calls[i])
  {
    if calls == [] then [] else CallsOf(calls[..|calls| - 1]) + [Call(calls[|calls| - 1])]
  }

  class HostSockets {
    const registry: Reg.HostRegistry
    const dispatcher: D.HostCallDispatcher
    const buffer: B.AdaptiveBuffer
    var lines: map<Id, Line>

    ghost function View(): Gate
      reads this, registry, registry.store, dispatcher
    {
      Gate(registry.View(), dispatcher.RouteView(), lines)
    }

    constructor (registry: Reg.HostRegistry, dispatcher: D.HostCallDispatcher, buffer: B.AdaptiveBuffer)
      ensures this.registry == registry && this.dispatcher == dispatcher && this.buffer == buffer && lines == map[]
    {
      this.registry, this.dispatcher, this.buffer := registry, dispatcher, buffer;
      lines := map[];
    }

    /** A hello in a version that is spoken opens the session: the answer, and then every call that was
        waiting for the host, in order and no longer waiting. Any other is answered and changes nothing. */
    method OnHello(conn: Id, key: Key, client: Option<Client>, version: string, hello: Option<seq<string>>, now: int)
      returns (sent: seq<Outbound>)
      requires conn !in lines && buffer.policy.loadThreshold > 0.0
      modifies this, registry, registry.store, dispatcher, buffer
      ensures version != "1.0" ==> View() == old(View()) && buffer.cache == old(buffer.cache) && sent == [Negotiate(["1.0"])]
      ensures version == "1.0" ==>
        && View() == Step(old(View()), Hello(conn, key, client, if hello.Some? then hello.value else [], now))
        && buffer.cache == old(buffer.cache) - {key.1}
        && sent == [Connected] + CallsOf(B.Live(old(buffer.cache), key.1, now))
    {
      if version != "1.0" { return [Negotiate(["1.0"])]; }
      var capabilities := Effective(client, if hello.Some? then hello.value else []);
      BringOnline(conn, key, client, hello, now);
      dispatcher.RegisterConnection(key.1, key.0, conn, capabilities);
      lines := lines[conn := Line(key, now)];
      var buffered := buffer.Flush(key.1, now);
      var calls := Resend(buffered);
      sent := [Connected] + calls;
    }

    /** The registry's part of a hello: known, then online. */
    method BringOnline(conn: Id, key: Key, client: Option<Client>, hello: Option<seq<string>>, now: int)
      modifies registry, registry.store
      ensures registry.View() == Registered(old(View()), Hello(conn, key, client, if hello.Some? then hello.value else [], now))
    {
      var capabilities := Effective(client, if hello.Some? then hello.value else []);
      registry.EnsureRegistered(key, if client.Some? then client.value.name else key.1, capabilities, now);
      registry.SetOnline(key, conn, now);
    }

    /** The loop over the calls that were waiting. */
    static method Resend(buffered: seq<B.BufferedCall>) returns (sent: seq<Outbound>)
      ensures sent == CallsOf(buffered)
    {
      sent := [];
      for i := 0 to |buffered|
        invariant sent == CallsOf(buffered[..i])
      {
        assert buffered[..i + 1][..i] == buffered[..i];
        sent := sent + [Call(buffered[i])];
      }
      assert buffered[..|buffered|] == buffered;
    }

    method OnHeartbeat(conn: Id, now: int) returns (sent: seq<Outbound>)
      requires conn in lines
      modifies this, registry
      ensures View() == Step(old(View()), Beat(conn, now)) && sent == [Ack]
    {
      lines := lines[conn := lines[conn].(lastHeartbeat := now)];
      registry.Heartbeat(lines[conn].key, now);
      sent := [Ack];
    }

    /** The interval that looks for silent hosts. */
    method OnWatchdog(conn: Id, now: int)
      requires conn in lines
      modifies registry, registry.store
      ensures View() == Step(old(View()), Watch(conn, now))
    {
      var elapsed := now - lines[conn].lastHeartbeat;
      if elapsed > 30000 + 10000 { registry.MarkDegraded(lines[conn].key); }
    }

    /** The registry's and the dispatcher's part of a close. */
    method OnClose(conn: Id, now: int)
      requires conn in lines
      modifies this, registry, registry.store, dispatcher
      ensures View() == Step(old(View()), Close(conn, now))
    {
      var key := lines[conn].key;
      dispatcher.RemoveConnection(key.1, key.0);
      registry.SetOffline(key, conn, now);
      lines := lines - {conn};
    }
  }
}
