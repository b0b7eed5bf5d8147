/** The host registry as a step system over its cache, index, timers and store. Each operation is one
    step: the reads and writes of one call on the asynchronous cache are taken as uninterrupted. */
module HostStates {
  import opened Collections
  import opened Messages
  import opened HostStore

  datatype Registry = Registry(
    graceMs: int,
    hosts: map<Key, Host>,             // cached descriptors
    tokens: map<Token, Key>,           // cached tokens
    index: map<Id, seq<Id>>,           // cached host ids of a namespace
    namespaces: Option<seq<Id>>,       // cached list of namespaces
    timers: map<Key, int>,             // armed grace timers and when they are due
    store: Option<Tables>)

  function Empty(graceMs: int, store: Option<Tables>): Registry {
    Registry(graceMs, map[], map[], map[], None, map[], store)
  }

  datatype Op =
    | RegisterHost(key: Key, token: Token, name: string, capabilities: seq<string>, hostType: Option<HostType>, now: int)
    | SetOnline(key: Key, conn: Id, now: int)
    | SetOffline(key: Key, conn: Id, now: int)
    | GraceFires(key: Key, now: int)
    | Heartbeat(key: Key, now: int)
    | Look(key: Key)
    | ResolveToken(token: Token)
    | Deregister(key: Key)
    | EnsureRegistered(key: Key, name: string, capabilities: seq<string>, now: int)
    | MarkDegraded(key: Key)
    | Evict(key: Key)
    | Restart(keepCache: bool, listed: seq<Host>, now: int)

  // ---------- cache and store helpers ----------

  function SaveTo(store: Option<Tables>, h: Host, now: int): Option<Tables> {
    if store.Some? then Some(Exec(store.value, UpsertHost(h, now))) else None
  }

  function IdsOf(index: map<Id, seq<Id>>, ns: Id): seq<Id> {
    if ns in index then index[ns] else []
  }

  function AddToIndex(r: Registry, key: Key): Registry {
    var names := if r.namespaces.Some? then r.namespaces.value else [];
    r.(index := if key.1 in IdsOf(r.index, key.0) then r.index else r.index[key.0 := IdsOf(r.index, key.0) + [key.1]],
       namespaces := if key.0 in names then r.namespaces else Some(names + [key.0]))
  }

  function RemoveFromIndex(r: Registry, key: Key): Registry {
    r.(index := r.index[key.0 := Without(IdsOf(r.index, key.0), key.1)])
  }

  function Cached(r: Registry, h: Host): Registry {
    r.(hosts := r.hosts[h.key := h])
  }

  // ---------- operations ----------

  function NewHost(key: Key, profile: Profile, now: int): Host {
    Host(key, profile, Offline, now, [], now, now)
  }

  function Registered(r: Registry, op: Op): Registry
    requires op.RegisterHost?
  {
    var h := NewHost(op.key, Profile(op.name, op.capabilities, op.hostType, None, None), op.now);
    var saved := SaveTo(r.store, h, op.now);
    var store := if saved.Some? then Some(Exec(saved.value, UpsertToken(op.token, op.key))) else None;
    AddToIndex(Cached(r, h).(tokens := r.tokens[op.token := op.key], store := store), op.key)
  }

  function WentOnline(r: Registry, key: Key, conn: Id, now: int): Registry {
    if key !in r.hosts then r
    else
      var h := r.hosts[key].(status := Online, lastSeen := now, connections := [conn]);
      r.(hosts := r.hosts[key := h], timers := r.timers - {key}, store := SaveTo(r.store, h, now))
  }

  function WentOffline(r: Registry, key: Key, conn: Id, now: int): Registry {
    if key !in r.hosts then r
    else
      var rest := Without(r.hosts[key].connections, conn);
      if rest != [] then
        r.(hosts := r.hosts[key := r.hosts[key].(status := Online, lastSeen := now, connections := rest)])
      else
        var h := r.hosts[key].(status := Reconnecting, lastSeen := now, connections := []);
        r.(hosts := r.hosts[key := h], timers := r.timers[key := now + r.graceMs], store := SaveTo(r.store, h, now))
  }

  function GraceOver(r: Registry, key: Key, now: int): Registry {
    var r1 := r.(timers := r.timers - {key});
    if key in r.hosts && r.hosts[key].status == Reconnecting then
      var h := r.hosts[key].(status := Offline, lastSeen := now);
      r1.(hosts := r.hosts[key := h], store := SaveTo(r.store, h, now))
    else r1
  }

  /** `get`: the cached descriptor, or the stored one as offline. */
  function Found(r: Registry, key: Key): Option<Host> {
    if key in r.hosts then Some(r.hosts[key])
    else if r.store.Some? && key in r.store.value.hosts then
      Some(AsOffline(RowToDescriptor(key, r.store.value.hosts[key])))
    else None
  }

  /** What `get` leaves behind: a stored host is cached and indexed. */
  function Warmed(r: Registry, key: Key): Registry {
    if key in r.hosts || Found(r, key).None? then r
    else AddToIndex(Cached(r, Found(r, key).value), key)
  }

  function Resolved(r: Registry, token: Token): Option<Key> {
    if token in r.tokens then Some(r.tokens[token])
    else if r.store.Some? && token in r.store.value.tokens then Some(r.store.value.tokens[token])
    else None
  }

  function Deregistered(r: Registry, key: Key): Registry {
    RemoveFromIndex(
      r.(hosts := r.hosts - {key}, store := if r.store.Some? then Some(Deleted(r.store.value, key)) else None), key)
  }

  function Ensured(r: Registry, op: Op): Registry
    requires op.EnsureRegistered?
  {
    match Found(r, op.key)
    case Some(existing) =>
      var r1 := Warmed(r, op.key);
      if op.capabilities != [] && existing.profile.capabilities != op.capabilities then
        var h := existing.(profile := existing.profile.(capabilities := op.capabilities), updatedAt := op.now);
        r1.(hosts := r1.hosts[op.key := h], store := SaveTo(r1.store, h, op.now))
      else r1
    case None =>
      var h := NewHost(op.key, Profile(op.name, op.capabilities, None, None, None), op.now);
      AddToIndex(Cached(r, h).(store := SaveTo(r.store, h, op.now)), op.key)
  }

  // ---------- restart ----------

  predicate Stale(h: Host) {
    h.status == Online || h.status == Reconnecting
  }

  /** The walk over the namespaces, and their host ids, reaches this host. */
  predicate Walked(r: Registry, key: Key) {
    key.0 in (if r.namespaces.Some? then r.namespaces.value else ["default"]) && key.1 in IdsOf(r.index, key.0)
  }

  function ResetStale(r: Registry): Registry {
    r.(hosts := map k | k in r.hosts :: if Walked(r, k) && Stale(r.hosts[k]) then AsOffline(r.hosts[k]) else r.hosts[k])
  }

  function RestoreOne(r: Registry, h: Host, now: int): Registry {
    AddToIndex(Cached(r, AsOffline(h)).(store := SaveTo(r.store, AsOffline(h), now)), h.key)
  }

  function RestoreAll(r: Registry, listed: seq<Host>, now: int): Registry {
    if listed == [] then r
    else RestoreOne(RestoreAll(r, listed[..|listed| - 1], now), listed[|listed| - 1], now)
  }

  /** `restore`: reset what is stale, then bring back what the store lists. */
  function Restored(r: Registry, listed: seq<Host>, now: int): Registry {
    if r.store.None? then ResetStale(r) else RestoreAll(ResetStale(r), listed, now)
  }

  /** A new process: no timer survives; the cache does, or does not. */
  function NewProcess(r: Registry, keepCache: bool): Registry {
    if keepCache then r.(timers := map[]) else Empty(r.graceMs, r.store)
  }

  function Step(r: Registry, op: Op): Registry {
    match op
    case RegisterHost(_, _, _, _, _, _) => Registered(r, op)
    case SetOnline(key, conn, now) => WentOnline(r, key, conn, now)
    case SetOffline(key, conn, now) => WentOffline(r, key, conn, now)
    case GraceFires(key, now) => GraceOver(r, key, now)
    case Heartbeat(key, now) =>
      if key in r.hosts then r.(hosts := r.hosts[key := r.hosts[key].(lastSeen := now)]) else r
    case Look(key) => Warmed(r, key)
    case ResolveToken(token) =>
      if Resolved(r, token).Some? then r.(tokens := r.tokens[token := Resolved(r, token).value]) else r
    case Deregister(key) => Deregistered(r, key)
    case EnsureRegistered(_, _, _, _) => Ensured(r, op)
    case MarkDegraded(key) =>
      var r1 := Warmed(r, key);
      if key in r1.hosts && r1.hosts[key].status != Degraded then
        r1.(hosts := r1.hosts[key := r1.hosts[key].(status := Degraded)])
      else r1
    case Evict(key) => r.(hosts := r.hosts - {key})
    case Restart(keepCache, listed, now) => Restored(NewProcess(r, keepCache), listed, now)
  }

  /** Fresh ids are fresh, a timer fires when it is due, and the store lists its rows. */
  ghost predicate Legal(r: Registry, op: Op) {
    match op
    case RegisterHost(key, token, _, _, _, _) =>
      && Found(r, key).None? && Resolved(r, token).None?
      && (r.store.Some? ==> token !in r.store.value.tokens)
    case GraceFires(key, now) => key in r.timers && r.timers[key] <= now
    case Restart(_, listed, _) =>
      if r.store.Some? then Listing(r.store.value, r.store.value.hosts.Keys, listed) else listed == []
    case _ => true
  }

  ghost predicate Next(ops: seq<Op>, rs: seq<Registry>, i: nat)
    requires i < |ops| < |rs|
  {
    Legal(rs[i], ops[i]) && rs[i + 1] == Step(rs[i], ops[i])
  }

  /** A history of the registry through any number of processes, from an empty cache and store. */
  ghost predicate Behaviour(ops: seq<Op>, rs: seq<Registry>, graceMs: int, withStore: bool) {
    && |rs| == |ops| + 1
    && rs[0] == Empty(graceMs, if withStore then Some(NO_ROWS) else None)
    && forall i :: 0 <= i < |ops| ==> Next(ops, rs, i)
  }
}
