/** What each operation of the host registry does, said of the fields of the state before and after, and
    what that comes to over histories. */
module HostEffects {
  import opened Collections
  import opened Messages
  import opened HostStore
  import opened HostStates
  import opened HostInvariants
  import opened HostHistory

  // ---------- one host changes ----------

  /** Nothing but one host changed: not another host or timer or row, no index, no token. */
  ghost predicate OnlyHost(r: Registry, r': Registry, k: Key) {
    && r'.graceMs == r.graceMs && r'.tokens == r.tokens && r'.index == r.index && r'.namespaces == r.namespaces
    && (forall x :: x != k ==> (x in r'.hosts <==> x in r.hosts) && (x in r.hosts ==> r'.hosts[x] == r.hosts[x]))
    && (forall x :: x != k ==> (x in r'.timers <==> x in r.timers) && (x in r.timers ==> r'.timers[x] == r.timers[x]))
    && r'.store.Some? == r.store.Some?
    && (r.store.Some? ==> OnlyRow(r.store.value, r'.store.value, k))
  }

  ghost predicate OnlyRow(t: Tables, t': Tables, k: Key) {
    && t'.tokens == t.tokens
    && forall x :: x != k ==> (x in t'.hosts <==> x in t.hosts) && (x in t.hosts ==> t'.hosts[x] == t.hosts[x])
  }

  /** The store has the host as it is cached, as of now, created when it was. */
  ghost predicate SavedNow(r: Registry, r': Registry, k: Key, now: int) {
    k in r'.hosts && (r.store.Some? ==>
      && r'.store.Some? && k in r'.store.value.hosts
      && r'.store.value.hosts[k].profile == r'.hosts[k].profile && r'.store.value.hosts[k].updatedAt == now
      && r'.store.value.hosts[k].createdAt
           == if k in r.store.value.hosts then r.store.value.hosts[k].createdAt else r'.hosts[k].createdAt)
  }

  /** What a host is does not change with its status. */
  ghost predicate SameHost(h: Host, h': Host) {
    (h'.key, h'.profile, h'.createdAt, h'.updatedAt) == (h.key, h.profile, h.createdAt, h.updatedAt)
  }

  /** Online on exactly this connection as of now, no timer armed, saved. */
  ghost predicate CameOnline(r: Registry, r': Registry, k: Key, conn: Id, now: int) {
    && OnlyHost(r, r', k) && k in r.hosts && k in r'.hosts && SameHost(r.hosts[k], r'.hosts[k])
    && r'.hosts[k].status == Online && r'.hosts[k].connections == [conn] && r'.hosts[k].lastSeen == now
    && k !in r'.timers && SavedNow(r, r', k, now)
  }

  /** The last connection is gone: reconnecting without one as of now, its timer armed anew, saved. */
  ghost predicate LostLast(r: Registry, r': Registry, k: Key, now: int) {
    && OnlyHost(r, r', k) && k in r.hosts && k in r'.hosts && SameHost(r.hosts[k], r'.hosts[k])
    && r'.hosts[k].status == Reconnecting && r'.hosts[k].connections == [] && r'.hosts[k].lastSeen == now
    && k in r'.timers && r'.timers[k] == now + r.graceMs && SavedNow(r, r', k, now)
  }

  /** One of several connections is gone: online with the others as of now, its timer and row untouched. */
  ghost predicate LostOne(r: Registry, r': Registry, k: Key, conn: Id, now: int) {
    && OnlyHost(r, r', k) && k in r.hosts && k in r'.hosts && SameHost(r.hosts[k], r'.hosts[k])
    && r'.hosts[k].status == Online && r'.hosts[k].lastSeen == now
    && (forall c :: c in r'.hosts[k].connections <==> c in r.hosts[k].connections && c != conn)
    && (NoDup(r.hosts[k].connections) ==> NoDup(r'.hosts[k].connections))
    && r'.timers == r.timers && r'.store == r.store
  }

  ghost predicate OnlyConnection(h: Host, conn: Id) {
    forall c :: c in h.connections ==> c == conn
  }

  /** A connection that opens takes a known host online on it alone, and an unknown one is left alone. */
  lemma SetOnlineEffect(r: Registry, k: Key, conn: Id, now: int)
    requires Keyed(r)
    ensures var r' := Step(r, SetOnline(k, conn, now));
      if k in r.hosts then CameOnline(r, r', k, conn, now) else r' == r
  {
  }

  lemma NoneLeft(h: Host, conn: Id)
    ensures Without(h.connections, conn) == [] <==> OnlyConnection(h, conn)
  {
    if Without(h.connections, conn) == [] {
      forall c | c in h.connections ensures c == conn { assert c != conn ==> c in Without(h.connections, conn); }
    } else {
      assert Without(h.connections, conn)[0] in Without(h.connections, conn);
    }
  }

  /** A closing connection: the last one listed takes the host into its grace period, another one leaves it
      online, and an unknown host is left alone. */
  lemma SetOfflineEffect(r: Registry, k: Key, conn: Id, now: int)
    requires Keyed(r)
    ensures var r' := Step(r, SetOffline(k, conn, now));
      if k !in r.hosts then r' == r
      else if OnlyConnection(r.hosts[k], conn) then LostLast(r, r', k, now)
      else LostOne(r, r', k, conn, now)
  {
    if k in r.hosts { NoneLeft(r.hosts[k], conn); }
  }

  /** A firing grace timer: it is disarmed, a reconnecting host is offline as of now and saved so, and any
      other is as it was. */
  ghost predicate GraceEnded(r: Registry, r': Registry, k: Key, now: int) {
    && OnlyHost(r, r', k) && k !in r'.timers && (k in r'.hosts <==> k in r.hosts)
    && (k in r.hosts ==>
          if r.hosts[k].status == Reconnecting then
            && SameHost(r.hosts[k], r'.hosts[k]) && r'.hosts[k].connections == r.hosts[k].connections
            && r'.hosts[k].status == Offline && r'.hosts[k].lastSeen == now && SavedNow(r, r', k, now)
          else r'.hosts[k] == r.hosts[k] && r'.store == r.store)
    && (k !in r.hosts ==> r'.store == r.store)
  }

  lemma GraceOnlyHost(r: Registry, k: Key, now: int)
    requires Keyed(r)
    ensures OnlyHost(r, Step(r, GraceFires(k, now)), k)
  {
  }

  lemma GraceEffect(r: Registry, k: Key, now: int)
    requires Keyed(r)
    ensures GraceEnded(r, Step(r, GraceFires(k, now)), k, now)
  {
    GraceOnlyHost(r, k, now);
  }

  /** A heartbeat: the host was seen now, and nothing else. */
  ghost predicate Seen(r: Registry, r': Registry, k: Key, now: int) {
    && OnlyHost(r, r', k) && r'.timers == r.timers && r'.store == r.store && (k in r'.hosts <==> k in r.hosts)
    && (k in r.hosts ==>
          && SameHost(r.hosts[k], r'.hosts[k]) && r'.hosts[k].lastSeen == now
          && r'.hosts[k].status == r.hosts[k].status && r'.hosts[k].connections == r.hosts[k].connections)
  }

  lemma HeartbeatEffect(r: Registry, k: Key, now: int)
    ensures Seen(r, Step(r, Heartbeat(k, now)), k, now)
  {
  }

  /** A look-up leaves a host that is found cached as found, and all else but the index as it was. */
  lemma WarmEffect(r: Registry, k: Key)
    ensures var r' := Warmed(r, k);
      && (r'.graceMs, r'.store, r'.timers, r'.tokens) == (r.graceMs, r.store, r.timers, r.tokens)
      && r'.hosts == (if Found(r, k).Some? then r.hosts[k := Found(r, k).value] else r.hosts)
      && (r'.hosts.Keys != r.hosts.Keys ==> k.1 in IdsOf(r'.index, k.0))
  {
  }

  /** The watchdog: a host that is found is degraded and otherwise as it was found; nothing else changes but
      that it is cached and indexed. */
  ghost predicate Flagged(r: Registry, r': Registry, k: Key) {
    && (r'.graceMs, r'.store, r'.timers, r'.tokens) == (r.graceMs, r.store, r.timers, r.tokens)
    && r'.hosts == (if Found(r, k).Some? then r.hosts[k := Found(r, k).value.(status := Degraded)] else r.hosts)
  }

  lemma DegradeEffect(r: Registry, k: Key)
    ensures Flagged(r, Step(r, MarkDegraded(k)), k)
  {
    WarmEffect(r, k);
    var r1 := Warmed(r, k);
    assert k in r1.hosts <==> Found(r, k).Some?;
    if k in r1.hosts && r1.hosts[k].status == Degraded { assert r1.hosts[k].(status := Degraded) == r1.hosts[k]; }
  }

  /** What is found of a host: the cached descriptor; else its row, as an offline host last seen when the
      row was written; else nothing. */
  lemma FoundEffect(r: Registry, k: Key)
    ensures k in r.hosts ==> Found(r, k) == Some(r.hosts[k])
    ensures k !in r.hosts && r.store.Some? && k in r.store.value.hosts ==>
      var row := r.store.value.hosts[k];
      Found(r, k) == Some(Host(k, row.profile, Offline, row.updatedAt, [], row.createdAt, row.updatedAt))
    ensures k !in r.hosts && (r.store.None? || k !in r.store.value.hosts) ==> Found(r, k) == None
  {
  }

  /** A registration: the host cached offline and unconnected as of now, its token cached, both stored. */
  lemma RegisterEffect(r: Registry, op: Op)
    requires op.RegisterHost?
    ensures var r' := Step(r, op);
      && (r'.hosts, r'.tokens, r'.timers) == (r.hosts[op.key := Host(op.key, Profile(op.name, op.capabilities, op.hostType, None, None),
            Offline, op.now, [], op.now, op.now)], r.tokens[op.token := op.key], r.timers)
      && op.key.1 in IdsOf(r'.index, op.key.0) && r'.namespaces.Some? && op.key.0 in r'.namespaces.value
      && SavedNow(r, r', op.key, op.now)
      && (r.store.Some? ==> r'.store.value.tokens == r.store.value.tokens[op.token := op.key])
  {
  }

  /** A deregistration: neither cached, indexed nor stored, nor any stored token of it; what others have stays. */
  lemma DeregisterEffect(r: Registry, k: Key)
    ensures var r' := Step(r, Deregister(k));
      && r'.hosts == r.hosts - {k} && k.1 !in IdsOf(r'.index, k.0) && r'.tokens == r.tokens && r'.timers == r.timers
      && (forall x: Key :: x != k ==> (x.1 in IdsOf(r'.index, x.0) <==> x.1 in IdsOf(r.index, x.0)))
      && (r.store.Some? ==>
            && r'.store.Some? && r'.store.value.hosts == r.store.value.hosts - {k}
            && forall t :: (t in r'.store.value.tokens <==> t in r.store.value.tokens && r.store.value.tokens[t] != k)
                 && (t in r'.store.value.tokens ==> r'.store.value.tokens[t] == r.store.value.tokens[t]))
  {
  }

  /** An announcement of a host nobody knew: cached, indexed and stored, offline as of now. */
  lemma AnnounceNewEffect(r: Registry, op: Op)
    requires op.EnsureRegistered? && op.key !in r.hosts && (r.store.None? || op.key !in r.store.value.hosts)
    ensures var r' := Step(r, op);
      && r'.hosts == r.hosts[op.key := Host(op.key, Profile(op.name, op.capabilities, None, None, None), Offline, op.now, [], op.now, op.now)]
      && op.key.1 in IdsOf(r'.index, op.key.0) && r'.timers == r.timers && r'.tokens == r.tokens
      && SavedNow(r, r', op.key, op.now)
  {
  }

  /** An announcement of a known host: only capabilities that are given and differ replace its own, as of
      now, in cache and store; it is cached in any case. */
  ghost predicate Renewed(r: Registry, r': Registry, op: Op)
    requires op.EnsureRegistered? && Found(r, op.key).Some?
  {
    var h := Found(r, op.key).value;
    && r'.timers == r.timers && r'.tokens == r.tokens && r'.graceMs == r.graceMs
    && (if op.capabilities != [] && op.capabilities != h.profile.capabilities then
          && r'.hosts == r.hosts[op.key := h.(profile := h.profile.(capabilities := op.capabilities), updatedAt := op.now)]
          && SavedNow(r, r', op.key, op.now)
        else r'.hosts == r.hosts[op.key := h] && r'.store == r.store)
  }

  lemma RenewedIsSaved(r: Registry, h: Host, now: int, r': Registry)
    requires h.key in r'.hosts && r'.hosts[h.key] == h && r'.store == SaveTo(r.store, h, now)
    ensures SavedNow(r, r', h.key, now)
  {
  }

  lemma FoundIsKeyed(r: Registry, k: Key)
    requires Keyed(r) && Found(r, k).Some?
    ensures Found(r, k).value.key == k
  {
  }

  lemma AnnounceKnownEffect(r: Registry, op: Op)
    requires op.EnsureRegistered? && Keyed(r) && Found(r, op.key).Some?
    ensures Renewed(r, Step(r, op), op)
  {
    var h := Found(r, op.key).value;
    FoundIsKeyed(r, op.key);
    AnnouncedFields(r, op, h);
    if op.capabilities != [] && op.capabilities != h.profile.capabilities {
      RenewedIsSaved(r, h.(profile := h.profile.(capabilities := op.capabilities), updatedAt := op.now), op.now, Step(r, op));
    }
  }

  lemma AnnouncedFields(r: Registry, op: Op, h: Host)
    requires op.EnsureRegistered? && Found(r, op.key) == Some(h)
    ensures var (r', h') := (Step(r, op), h.(profile := h.profile.(capabilities := op.capabilities), updatedAt := op.now));
      var changed := op.capabilities != [] && op.capabilities != h.profile.capabilities;
      && (r'.graceMs, r'.timers, r'.tokens) == (r.graceMs, r.timers, r.tokens)
      && r'.hosts == r.hosts[op.key := if changed then h' else h]
      && r'.store == if changed then SaveTo(r.store, h', op.now) else r.store
  {
    WarmEffect(r, op.key);
  }

  // ---------- the grace period, over histories ----------

  /** What can end or renew a grace period. */
  predicate EndsGrace(op: Op, k: Key) {
    match op
    case SetOnline(x, _, _) => x == k
    case SetOffline(x, _, _) => x == k
    case GraceFires(x, _) => x == k
    case MarkDegraded(x) => x == k
    case Deregister(x) => x == k
    case Evict(x) => x == k
    case Restart(_, _, _) => true
    case _ => false
  }

  ghost predicate InGrace(r: Registry, k: Key, due: int) {
    && k in r.hosts && r.hosts[k].status == Reconnecting && r.hosts[k].connections == []
    && k in r.timers && r.timers[k] == due
  }

  lemma AnnounceGoesOn(r: Registry, op: Op, k: Key, due: int)
    requires Keyed(r) && op.EnsureRegistered? && InGrace(r, k, due)
    ensures InGrace(Step(r, op), k, due)
  {
    if Found(r, op.key).Some? { AnnounceKnownEffect(r, op); } else { AnnounceNewEffect(r, op); }
  }

  lemma StatusGoesOn(r: Registry, op: Op, k: Key, due: int)
    requires Keyed(r) && InGrace(r, k, due) && (op.SetOnline? || op.SetOffline? || op.GraceFires?) && op.key != k
    ensures InGrace(Step(r, op), k, due)
  {
    if op.SetOnline? { SetOnlineEffect(r, op.key, op.conn, op.now); }
    if op.SetOffline? { SetOfflineEffect(r, op.key, op.conn, op.now); }
    if op.GraceFires? { GraceEffect(r, op.key, op.now); }
  }

  lemma GraceGoesOn(r: Registry, op: Op, k: Key, due: int)
    requires Keyed(r) && Legal(r, op) && InGrace(r, k, due) && !EndsGrace(op, k)
    ensures InGrace(Step(r, op), k, due)
  {
    match op
    case SetOnline(_, _, _) => StatusGoesOn(r, op, k, due);
    case SetOffline(_, _, _) => StatusGoesOn(r, op, k, due);
    case GraceFires(_, _) => StatusGoesOn(r, op, k, due);
    case Heartbeat(x, now) => HeartbeatEffect(r, x, now);
    case MarkDegraded(x) => DegradeEffect(r, x);
    case Look(x) => WarmEffect(r, x);
    case Deregister(x) => DeregisterEffect(r, x);
    case RegisterHost(_, _, _, _, _, _) => RegisterEffect(r, op);
    case EnsureRegistered(_, _, _, _) => AnnounceGoesOn(r, op, k, due);
    case _ =>
  }

  lemma {:induction false} GraceMsStays(ops: seq<Op>, rs: seq<Registry>, graceMs: int, withStore: bool, n: nat)
    requires Behaviour(ops, rs, graceMs, withStore) && n <= |ops|
    ensures rs[n].graceMs == graceMs
  {
    if n > 0 {
      GraceMsStays(ops, rs, graceMs, withStore, n - 1);
      assert Next(ops, rs, n - 1);
      StepGraceMs(rs[n - 1], ops[n - 1]);
    }
  }

  lemma StepGraceMs(r: Registry, op: Op)
    ensures Step(r, op).graceMs == r.graceMs
  {
    if op.Restart? { RestoreGraceMs(ResetStale(NewProcess(r, op.keepCache)), op.listed, op.now); }
  }

  lemma {:induction false} RestoreGraceMs(r: Registry, listed: seq<Host>, now: int)
    ensures RestoreAll(r, listed, now).graceMs == r.graceMs
    decreases |listed|
  {
    if listed != [] { RestoreGraceMs(r, listed[..|listed| - 1], now); }
  }

  /** A host whose last connection closes, at any moment of any history, is reconnecting, and stays so
      with its timer due the grace period later, until that timer fires, it comes online, loses another
      connection, is degraded, deregistered or evicted, or the process restarts. */
  lemma {:induction false} GraceLasts(ops: seq<Op>, rs: seq<Registry>, graceMs: int, withStore: bool, s: nat, n: nat, k: Key)
    requires Behaviour(ops, rs, graceMs, withStore) && s < n <= |ops|
    requires ops[s].SetOffline? && ops[s].key == k && k in rs[s].hosts && OnlyConnection(rs[s].hosts[k], ops[s].conn)
    requires forall i :: s < i < n ==> !EndsGrace(ops[i], k)
    ensures InGrace(rs[n], k, ops[s].now + graceMs)
    decreases n
  {
    Reachable(ops, rs, graceMs, withStore, n - 1);
    assert Next(ops, rs, n - 1);
    if n == s + 1 {
      GraceMsStays(ops, rs, graceMs, withStore, s);
      SetOfflineEffect(rs[s], k, ops[s].conn, ops[s].now);
    } else {
      GraceLasts(ops, rs, graceMs, withStore, s, n - 1, k);
      GraceGoesOn(rs[n - 1], ops[n - 1], k, ops[s].now + graceMs);
    }
  }

  /** And it goes offline no sooner: when its timer fires the grace period is over. */
  lemma OfflineAfterGrace(ops: seq<Op>, rs: seq<Registry>, graceMs: int, withStore: bool, s: nat, n: nat, k: Key)
    requires Behaviour(ops, rs, graceMs, withStore) && s < n < |ops|
    requires ops[s].SetOffline? && ops[s].key == k && k in rs[s].hosts && OnlyConnection(rs[s].hosts[k], ops[s].conn)
    requires forall i :: s < i < n ==> !EndsGrace(ops[i], k)
    requires ops[n].GraceFires? && ops[n].key == k
    ensures ops[n].now >= ops[s].now + graceMs
    ensures k in rs[n + 1].hosts && rs[n + 1].hosts[k].status == Offline && k !in rs[n + 1].timers
  {
    GraceLasts(ops, rs, graceMs, withStore, s, n, k);
    Reachable(ops, rs, graceMs, withStore, n);
    assert Next(ops, rs, n);
    GraceEffect(rs[n], k, ops[n].now);
  }

  /** Only a firing timer or a restart takes a reconnecting host offline. */
  lemma OnlyGraceGoesOffline(ops: seq<Op>, rs: seq<Registry>, graceMs: int, withStore: bool, n: nat, k: Key)
    requires Behaviour(ops, rs, graceMs, withStore) && n < |ops|
    requires k in rs[n].hosts && rs[n].hosts[k].status == Reconnecting
    requires k in rs[n + 1].hosts && rs[n + 1].hosts[k].status == Offline
    ensures ops[n].Restart? || (ops[n].GraceFires? && ops[n].key == k && k in rs[n].timers && rs[n].timers[k] <= ops[n].now)
  {
    Reachable(ops, rs, graceMs, withStore, n);
    assert Next(ops, rs, n) && StatusOk(rs[n].hosts[k], k in rs[n].timers);
    var op, r := ops[n], rs[n];
    if op.SetOnline? { SetOnlineEffect(r, op.key, op.conn, op.now); assert r.hosts[k].key == k; }
    if op.SetOffline? { SetOfflineEffect(r, op.key, op.conn, op.now); }
    if op.MarkDegraded? { DegradeEffect(r, op.key); }
    if !EndsGrace(op, k) { GraceGoesOn(r, op, k, r.timers[k]); }
  }

  /** A restart that keeps the cache, without a store: every online or reconnecting host is offline with no
      connection, every other one and all else is as it was, and no timer is armed. */
  lemma RestartEffect(r: Registry, op: Op)
    requires Inv(r) && r.store.None? && op.Restart? && op.keepCache
    ensures var r' := Step(r, op);
      && (r'.graceMs, r'.tokens, r'.index, r'.namespaces, r'.store) == (r.graceMs, r.tokens, r.index, r.namespaces, None)
      && r'.timers == map[] && r'.hosts.Keys == r.hosts.Keys
      && forall k :: k in r.hosts ==>
           if r.hosts[k].status == Online || r.hosts[k].status == Reconnecting then
             && SameHost(r.hosts[k], r'.hosts[k]) && r'.hosts[k].lastSeen == r.hosts[k].lastSeen
             && r'.hosts[k].status == Offline && r'.hosts[k].connections == []
           else r'.hosts[k] == r.hosts[k]
  {
    assert forall k :: k in r.hosts ==> Tracked(r, k);
  }

  // ---------- what is known of hosts ----------

  /** At every moment, whatever was evicted, the hosts that `get` finds are exactly those registered and
      not deregistered, each as it was registered and last announced. */
  lemma KnownHostsAreFound(ops: seq<Op>, rs: seq<Registry>, graceMs: int, n: nat, k: Key)
    requires Behaviour(ops, rs, graceMs, true) && n <= |ops|
    ensures var d := Directory(ops[..n]);
      && (Found(rs[n], k).Some? <==> k in d)
      && (k in d ==> Found(rs[n], k).value.profile == d[k].profile && Found(rs[n], k).value.createdAt == d[k].createdAt)
  {
    StoreIsDirectory(ops, rs, graceMs, n);
    Reachable(ops, rs, graceMs, true, n);
    if k in rs[n].hosts { assert Matches(rs[n].hosts[k], rs[n].store.value.hosts[k]); }
  }
}
