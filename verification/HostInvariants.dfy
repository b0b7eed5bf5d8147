/** What holds of the host registry in every reachable state. */
module HostInvariants {
  import opened Collections
  import opened Messages
  import opened HostStore
  import opened HostStates

  ghost predicate Keyed(r: Registry) {
    forall k :: k in r.hosts ==> r.hosts[k].key == k
  }

  /** A cached host is in its namespace's index, the namespace is tracked, and nothing is listed twice. */
  ghost predicate IndexOk(r: Registry) {
    && (forall k :: k in r.hosts ==> Tracked(r, k))
    && (forall ns :: ns in r.index ==> NoDup(r.index[ns]))
    && (r.namespaces.Some? ==> NoDup(r.namespaces.value))
  }

  ghost predicate Tracked(r: Registry, k: Key) {
    k.1 in IdsOf(r.index, k.0) && r.namespaces.Some? && k.0 in r.namespaces.value
  }

  /** The status machine of one host. */
  predicate StatusOk(h: Host, armed: bool) {
    match h.status
    case Online => |h.connections| == 1 && !armed
    case Offline => h.connections == []
    case Reconnecting => h.connections == [] && armed
    case Degraded => |h.connections| <= 1 && (h.connections != [] ==> !armed)
  }

  ghost predicate StatusesOk(r: Registry) {
    forall k :: k in r.hosts ==> StatusOk(r.hosts[k], k in r.timers)
  }

  /** The cache holds stored hosts as they are stored, and no token against the store. */
  ghost predicate StoreOk(r: Registry) {
    r.store.Some? ==>
      var t := r.store.value;
      && Integrity(t)
      && (forall k :: k in r.hosts ==> k in t.hosts && Matches(r.hosts[k], t.hosts[k]))
      && (forall x :: x in r.tokens && x in t.tokens ==> r.tokens[x] == t.tokens[x])
  }

  predicate Matches(h: Host, row: Row) {
    h.profile == row.profile && h.createdAt == row.createdAt
  }

  ghost predicate Inv(r: Registry) {
    Keyed(r) && IndexOk(r) && StatusesOk(r) && StoreOk(r)
  }

  // ---------- the index ----------

  lemma AddToIndexTracks(r: Registry, key: Key)
    ensures var r' := AddToIndex(r, key);
      && r' == r.(index := r'.index, namespaces := r'.namespaces)
      && Tracked(r', key)
      && (forall k :: Tracked(r', k) ==> k == key || k.1 in IdsOf(r.index, k.0))
      && (forall k :: Tracked(r, k) ==> Tracked(r', k))
      && (forall k: Key :: k.1 in IdsOf(r'.index, k.0) <==> k == key || k.1 in IdsOf(r.index, k.0))
    ensures (forall ns :: ns in r.index ==> NoDup(r.index[ns])) ==>
      forall ns :: ns in AddToIndex(r, key).index ==> NoDup(AddToIndex(r, key).index[ns])
    ensures (r.namespaces.Some? ==> NoDup(r.namespaces.value)) ==> NoDup(AddToIndex(r, key).namespaces.value)
  {
  }

  lemma AddKeepsInv(r: Registry, key: Key)
    requires Keyed(r) && StatusesOk(r) && StoreOk(r)
    requires forall k :: k in r.hosts && k != key ==> Tracked(r, k)
    requires forall ns :: ns in r.index ==> NoDup(r.index[ns])
    requires r.namespaces.Some? ==> NoDup(r.namespaces.value)
    ensures Inv(AddToIndex(r, key))
  {
    AddToIndexTracks(r, key);
  }

  /** Caching a host and indexing it keeps everything, if the host itself is in order. */
  lemma CacheKeepsInv(r: Registry, h: Host, tokens: map<Token, Key>, store: Option<Tables>)
    requires Inv(r) && StatusOk(h, h.key in r.timers)
    requires StoreOk(Cached(r, h).(tokens := tokens, store := store))
    ensures Inv(AddToIndex(Cached(r, h).(tokens := tokens, store := store), h.key))
  {
    AddKeepsInv(Cached(r, h).(tokens := tokens, store := store), h.key);
  }

  // ---------- one step ----------

  lemma RegisterKeepsInv(r: Registry, op: Op)
    requires Inv(r) && op.RegisterHost? && Legal(r, op)
    ensures Inv(Registered(r, op))
  {
    var h := NewHost(op.key, Profile(op.name, op.capabilities, op.hostType, None, None), op.now);
    var saved := SaveTo(r.store, h, op.now);
    var store := if saved.Some? then Some(Exec(saved.value, UpsertToken(op.token, op.key))) else None;
    CacheKeepsInv(r, h, r.tokens[op.token := op.key], store);
  }

  lemma WarmKeepsInv(r: Registry, key: Key)
    requires Inv(r)
    ensures Inv(Warmed(r, key))
  {
    if key !in r.hosts && Found(r, key).Some? {
      var h := Found(r, key).value;
      assert Cached(r, h).(tokens := r.tokens, store := r.store) == Cached(r, h);
      CacheKeepsInv(r, h, r.tokens, r.store);
    }
  }

  /** Replacing a cached host by one in order that keeps its creation time, saved or else unchanged
      for the store, with at most its own timer changed. */
  lemma ReplaceKeepsInv(r: Registry, r': Registry, h: Host, save: bool, now: int)
    requires Inv(r) && h.key in r.hosts && StatusOk(h, h.key in r'.timers)
    requires h.createdAt == r.hosts[h.key].createdAt && (!save ==> h.profile == r.hosts[h.key].profile)
    requires forall k :: k != h.key ==> (k in r'.timers <==> k in r.timers)
    requires r'.hosts == r.hosts[h.key := h] && r'.index == r.index && r'.namespaces == r.namespaces
    requires r'.tokens == r.tokens && r'.store == if save then SaveTo(r.store, h, now) else r.store
    ensures Inv(r')
  {
    assert IndexOk(r') by { ReplaceKeepsIndex(r, r', h); }
    assert StoreOk(r') by { ReplaceKeepsStore(r, r', h, save, now); }
    assert StatusesOk(r') by { ReplaceKeepsStatuses(r, r', h); }
  }

  lemma ReplaceKeepsStatuses(r: Registry, r': Registry, h: Host)
    requires StatusesOk(r) && StatusOk(h, h.key in r'.timers)
    requires r'.hosts == r.hosts[h.key := h] && forall k :: k != h.key ==> (k in r'.timers <==> k in r.timers)
    ensures StatusesOk(r')
  {
  }

  lemma ReplaceKeepsIndex(r: Registry, r': Registry, h: Host)
    requires IndexOk(r) && h.key in r.hosts
    requires r'.hosts == r.hosts[h.key := h] && r'.index == r.index && r'.namespaces == r.namespaces
    ensures IndexOk(r')
  {
    assert forall k :: k in r'.hosts ==> Tracked(r, k);
  }

  lemma ReplaceKeepsStore(r: Registry, r': Registry, h: Host, save: bool, now: int)
    requires StoreOk(r) && h.key in r.hosts
    requires h.createdAt == r.hosts[h.key].createdAt && (!save ==> h.profile == r.hosts[h.key].profile)
    requires r'.hosts == r.hosts[h.key := h] && r'.tokens == r.tokens
    requires r'.store == if save then SaveTo(r.store, h, now) else r.store
    ensures StoreOk(r')
  {
  }

  lemma DegradeKeepsInv(r: Registry, key: Key)
    requires Inv(r)
    ensures Inv(Step(r, MarkDegraded(key)))
  {
    WarmKeepsInv(r, key);
    DegradeWarmedKeepsInv(Warmed(r, key), key);
  }

  lemma DegradeWarmedKeepsInv(r: Registry, key: Key)
    requires Inv(r) && (key in r.hosts ==> r.hosts[key].key == key)
    ensures key in r.hosts ==> Inv(r.(hosts := r.hosts[key := r.hosts[key].(status := Degraded)]))
  {
    if key in r.hosts {
      var h := r.hosts[key].(status := Degraded);
      assert StatusOk(r.hosts[key], key in r.timers);
      ReplaceKeepsInv(r, r.(hosts := r.hosts[key := h]), h, false, 0);
    }
  }

  lemma EnsureNewKeepsInv(r: Registry, op: Op)
    requires Inv(r) && op.EnsureRegistered? && Found(r, op.key).None?
    ensures Inv(Ensured(r, op))
  {
    var h := NewHost(op.key, Profile(op.name, op.capabilities, None, None, None), op.now);
    var store := SaveTo(r.store, h, op.now);
    assert Cached(r, h).(tokens := r.tokens, store := store) == Cached(r, h).(store := store);
    CacheKeepsInv(r, h, r.tokens, store);
  }

  lemma EnsureKnownKeepsInv(r: Registry, op: Op)
    requires Inv(r) && op.EnsureRegistered? && Found(r, op.key).Some?
    ensures Inv(Ensured(r, op))
  {
    WarmKeepsInv(r, op.key);
    var r1, existing := Warmed(r, op.key), Found(r, op.key).value;
    assert r1.hosts[op.key] == existing && existing.key == op.key;
    RenewKeepsInv(r1, op.key, op.capabilities, op.now);
  }

  lemma RenewKeepsInv(r: Registry, key: Key, capabilities: seq<string>, now: int)
    requires Inv(r) && key in r.hosts
    ensures var h := r.hosts[key].(profile := r.hosts[key].profile.(capabilities := capabilities), updatedAt := now);
      Inv(r.(hosts := r.hosts[key := h], store := SaveTo(r.store, h, now)))
  {
    var h := r.hosts[key].(profile := r.hosts[key].profile.(capabilities := capabilities), updatedAt := now);
    assert StatusOk(r.hosts[key], key in r.timers);
    ReplaceKeepsInv(r, r.(hosts := r.hosts[key := h], store := SaveTo(r.store, h, now)), h, true, now);
  }

  lemma OnlineKeepsInv(r: Registry, key: Key, conn: Id, now: int)
    requires Inv(r)
    ensures Inv(WentOnline(r, key, conn, now))
  {
    if key in r.hosts {
      var r' := WentOnline(r, key, conn, now);
      ReplaceKeepsInv(r, r', r'.hosts[key], true, now);
    }
  }

  lemma OfflineKeepsInv(r: Registry, key: Key, conn: Id, now: int)
    requires Inv(r)
    ensures Inv(WentOffline(r, key, conn, now))
  {
    if key in r.hosts {
      var r' := WentOffline(r, key, conn, now);
      var rest := Without(r.hosts[key].connections, conn);
      assert StatusOk(r.hosts[key], key in r.timers);
      ReplaceKeepsInv(r, r', r'.hosts[key], rest == [], now);
    }
  }

  lemma GraceKeepsInv(r: Registry, key: Key, now: int)
    requires Inv(r)
    ensures Inv(GraceOver(r, key, now))
  {
    var r' := GraceOver(r, key, now);
    if key in r.hosts {
      assert StatusOk(r.hosts[key], key in r.timers);
      ReplaceKeepsInv(r, r', r'.hosts[key], r.hosts[key].status == Reconnecting, now);
    }
  }

  lemma HeartbeatKeepsInv(r: Registry, key: Key, now: int)
    requires Inv(r)
    ensures Inv(Step(r, Heartbeat(key, now)))
  {
    if key in r.hosts {
      var r' := Step(r, Heartbeat(key, now));
      assert StatusOk(r.hosts[key], key in r.timers);
      ReplaceKeepsInv(r, r', r'.hosts[key], false, now);
    }
  }

  lemma EvictKeepsInv(r: Registry, key: Key)
    requires Inv(r)
    ensures Inv(r.(hosts := r.hosts - {key}))
  {
  }

  lemma ResolveKeepsInv(r: Registry, token: Token)
    requires Inv(r)
    ensures Inv(Step(r, ResolveToken(token)))
  {
  }

  lemma DeregisterKeepsStore(r: Registry, key: Key)
    requires StoreOk(r)
    ensures StoreOk(Deregistered(r, key))
  {
  }

  lemma DeregisterKeepsIndex(r: Registry, key: Key)
    requires IndexOk(r)
    ensures IndexOk(Deregistered(r, key))
  {
    forall k | k in r.hosts && k != key ensures Tracked(Deregistered(r, key), k) { assert Tracked(r, k); }
  }

  lemma RemovalKeepsInv(r: Registry, op: Op)
    requires Inv(r) && (op.Deregister? || op.Evict? || op.ResolveToken?)
    ensures Inv(Step(r, op))
  {
    match op
    case Deregister(key) =>
      DeregisterKeepsStore(r, key);
      DeregisterKeepsIndex(r, key);
    case Evict(key) => EvictKeepsInv(r, key);
    case ResolveToken(token) => ResolveKeepsInv(r, token);
  }

  lemma ResetKeepsInv(r: Registry)
    requires Keyed(r) && IndexOk(r) && StoreOk(r)
    requires forall k :: k in r.hosts ==> |r.hosts[k].connections| <= 1
    requires forall k :: k in r.hosts && r.hosts[k].status == Offline ==> r.hosts[k].connections == []
    requires r.timers == map[]
    ensures Inv(ResetStale(r))
  {
    forall k | k in r.hosts ensures Walked(r, k) { assert Tracked(r, k); }
  }

  lemma RestoreOneKeepsInv(r: Registry, h: Host, now: int)
    requires Inv(r) && r.store.Some? && h.key in r.store.value.hosts && Matches(h, r.store.value.hosts[h.key])
    requires r.timers == map[]
    ensures Inv(RestoreOne(r, h, now))
  {
    var h', store := AsOffline(h), SaveTo(r.store, AsOffline(h), now);
    assert Cached(r, h').(tokens := r.tokens, store := store) == Cached(r, h').(store := store);
    CacheKeepsInv(r, h', r.tokens, store);
  }

  ghost predicate Distinct(listed: seq<Host>) {
    forall i, j :: 0 <= i < j < |listed| ==> listed[i].key != listed[j].key
  }

  ghost predicate AllStored(listed: seq<Host>, t: Tables) {
    forall i :: 0 <= i < |listed| ==> listed[i].key in t.hosts && Matches(listed[i], t.hosts[listed[i].key])
  }

  /** The cache after restoring the list: the listed hosts offline, the others as they were. */
  ghost predicate CacheRestored(hosts: map<Key, Host>, listed: seq<Host>, hosts': map<Key, Host>) {
    && (forall i :: 0 <= i < |listed| ==>
          listed[i].key in hosts' && hosts'[listed[i].key] == AsOffline(listed[i]))
    && (forall k :: k in hosts' && (forall i :: 0 <= i < |listed| ==> listed[i].key != k) ==>
          k in hosts && hosts'[k] == hosts[k])
  }

  lemma CacheOneMore(hosts: map<Key, Host>, listed: seq<Host>, hosts': map<Key, Host>, h: Host)
    requires CacheRestored(hosts, listed, hosts') && Distinct(listed + [h])
    ensures CacheRestored(hosts, listed + [h], hosts'[h.key := AsOffline(h)])
  {
    var more := listed + [h];
    assert more[|listed|] == h;
    forall i | 0 <= i < |listed| ensures more[i] == listed[i] && more[i].key != h.key {}
  }

  /** Where restoring a list leads from r. */
  ghost predicate RestoredFrom(r: Registry, listed: seq<Host>, r': Registry) {
    && Inv(r') && r'.timers == map[] && r'.tokens == r.tokens && r.store.Some? && r'.store.Some?
    && CacheRestored(r.hosts, listed, r'.hosts)
    && SameRows(r.store.value, r'.store.value)
  }

  lemma RestoreOneFields(r: Registry, h: Host, now: int)
    requires r.store.Some? && h.key in r.store.value.hosts && Matches(h, r.store.value.hosts[h.key])
    ensures var r' := RestoreOne(r, h, now);
      && r'.hosts == r.hosts[h.key := AsOffline(h)] && r'.timers == r.timers && r'.tokens == r.tokens
      && r'.store.Some? && SameRows(r.store.value, r'.store.value)
  {
  }

  lemma RestoreOneMore(r: Registry, listed: seq<Host>, r1: Registry, h: Host, now: int)
    requires RestoredFrom(r, listed, r1) && Distinct(listed + [h])
    requires h.key in r.store.value.hosts && Matches(h, r.store.value.hosts[h.key])
    ensures RestoredFrom(r, listed + [h], RestoreOne(r1, h, now))
  {
    assert Inv(RestoreOne(r1, h, now)) by { RestoreOneKeepsInv(r1, h, now); }
    RestoreOneFields(r1, h, now);
    assert CacheRestored(r.hosts, listed + [h], RestoreOne(r1, h, now).hosts) by {
      CacheOneMore(r.hosts, listed, r1.hosts, h);
    }
  }

  /** Restoring what the store listed: every row is cached as it is stored, offline and indexed; other
      cached hosts and all rows but for their update time stay as they were. */
  lemma {:induction false} RestoreAllExact(r: Registry, listed: seq<Host>, now: int)
    requires Inv(r) && r.store.Some? && r.timers == map[]
    requires Distinct(listed) && AllStored(listed, r.store.value)
    ensures RestoredFrom(r, listed, RestoreAll(r, listed, now))
    decreases |listed|
  {
    if listed != [] {
      var init, last := listed[..|listed| - 1], listed[|listed| - 1];
      assert listed == init + [last];
      RestoreAllExact(r, init, now);
      RestoreOneMore(r, init, RestoreAll(r, init, now), last, now);
    }
  }

  /** The same rows and tokens, up to the time of the last update. */
  ghost predicate SameRows(t: Tables, t': Tables) {
    && t'.tokens == t.tokens && t'.hosts.Keys == t.hosts.Keys
    && forall k :: k in t.hosts ==> t'.hosts[k].profile == t.hosts[k].profile && t'.hosts[k].createdAt == t.hosts[k].createdAt
  }

  lemma NewProcessInv(r: Registry, keepCache: bool)
    requires Inv(r)
    ensures var r1 := ResetStale(NewProcess(r, keepCache)); Inv(r1) && r1.store == r.store && r1.timers == map[]
  {
    assert forall k :: k in r.hosts ==> StatusOk(r.hosts[k], k in r.timers);
    ResetKeepsInv(NewProcess(r, keepCache));
  }

  lemma ListedAreStored(t: Tables, listed: seq<Host>)
    requires Listing(t, t.hosts.Keys, listed)
    ensures Distinct(listed) && AllStored(listed, t)
  {
  }

  lemma RestartKeepsInv(r: Registry, op: Op)
    requires Inv(r) && op.Restart? && Legal(r, op)
    ensures Inv(Step(r, op))
  {
    NewProcessInv(r, op.keepCache);
    if r.store.Some? {
      ListedAreStored(r.store.value, op.listed);
      RestoreAllExact(ResetStale(NewProcess(r, op.keepCache)), op.listed, op.now);
    }
  }

  lemma StepInv(r: Registry, op: Op)
    requires Inv(r) && Legal(r, op)
    ensures Inv(Step(r, op))
  {
    match op
    case RegisterHost(_, _, _, _, _, _) => RegisterKeepsInv(r, op);
    case SetOnline(key, conn, now) => OnlineKeepsInv(r, key, conn, now);
    case SetOffline(key, conn, now) => OfflineKeepsInv(r, key, conn, now);
    case GraceFires(key, now) => GraceKeepsInv(r, key, now);
    case Heartbeat(key, now) => HeartbeatKeepsInv(r, key, now);
    case Look(key) => WarmKeepsInv(r, key);
    case MarkDegraded(key) => DegradeKeepsInv(r, key);
    case EnsureRegistered(_, _, _, _) =>
      if Found(r, op.key).Some? { EnsureKnownKeepsInv(r, op); } else { EnsureNewKeepsInv(r, op); }
    case Restart(_, _, _) => RestartKeepsInv(r, op);
    case _ => RemovalKeepsInv(r, op);
  }

  lemma {:induction false} Reachable(ops: seq<Op>, rs: seq<Registry>, graceMs: int, withStore: bool, n: nat)
    requires Behaviour(ops, rs, graceMs, withStore) && n <= |ops|
    ensures Inv(rs[n]) && rs[n].store.Some? == withStore
  {
    if n > 0 {
      Reachable(ops, rs, graceMs, withStore, n - 1);
      assert Next(ops, rs, n - 1);
      StepInv(rs[n - 1], ops[n - 1]);
      StoreStays(rs[n - 1], ops[n - 1]);
    }
  }

  lemma {:induction false} RestoreKeepsStore(r: Registry, listed: seq<Host>, now: int)
    ensures RestoreAll(r, listed, now).store.Some? == r.store.Some?
    decreases |listed|
  {
    if listed != [] { RestoreKeepsStore(r, listed[..|listed| - 1], now); }
  }

  lemma StoreStays(r: Registry, op: Op)
    ensures Step(r, op).store.Some? == r.store.Some?
  {
    if op.Restart? { RestoreKeepsStore(ResetStale(NewProcess(r, op.keepCache)), op.listed, op.now); }
  }
}
