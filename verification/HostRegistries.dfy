/** HostRegistry: a hot cache over a durable store. Every method moves the registry's view as the
    corresponding step of the registry's step system. */
module HostRegistries {
  import opened Collections
  import opened Messages
  import opened HostStore
  import opened HostStates
  import opened HostHistory
  import opened HostInvariants
  import opened HostEffects

  const DEFAULT_RECONNECT_GRACE_MS: int := 10000

  datatype Cache = Cache(hosts: map<Key, Host>, tokens: map<Token, Key>, index: map<Id, seq<Id>>, namespaces: Option<seq<Id>>)

  class HostRegistry {
    const store: SqliteHostStore?
    const reconnectGraceMs: int
    var cache: Cache
    var graceTimers: map<Key, int>

    ghost function View(): Registry
      reads this, store
    {
      Registry(reconnectGraceMs, cache.hosts, cache.tokens, cache.index, cache.namespaces, graceTimers, Stored())
    }

    ghost function Stored(): Option<Tables>
      reads this, store
    {
      if store == null then None else Some(store.View())
    }

    /** A new process over the cache and the store it finds. */
    constructor (found: Cache, store: SqliteHostStore?, grace: Option<int>)
      ensures this.store == store && cache == found && graceTimers == map[]
      ensures reconnectGraceMs == (if grace.Some? then grace.value else 10000)
    {
      this.store := store;
      reconnectGraceMs := if grace.Some? then grace.value else DEFAULT_RECONNECT_GRACE_MS;
      cache := found;
      graceTimers := map[];
    }

    method Restore(now: int) returns (count: nat, ghost listed: seq<Host>)
      requires graceTimers == map[]
      modifies this, store
      ensures Legal(old(View()), HostStates.Restart(true, listed, now))
      ensures View() == Step(old(View()), HostStates.Restart(true, listed, now))
      ensures count == |listed|
    {
      ResetStaleHosts();
      if store == null { return 0, []; }
      var hosts := store.ListAll();
      listed := hosts;
      RestoreHosts(hosts, now);
      count := |hosts|;
    }

    /** The loop over the stored hosts. */
    method RestoreHosts(hosts: seq<Host>, now: int)
      requires store != null
      modifies this`cache, store
      ensures View() == RestoreAll(old(View()), hosts, now)
    {
      for i := 0 to |hosts|
        invariant View() == RestoreAll(old(View()), hosts[..i], now)
      {
        RestoreHost(hosts[i], now);
        assert hosts[..i + 1][..i] == hosts[..i];
      }
      assert hosts[..|hosts|] == hosts;
    }

    method RestoreHost(host: Host, now: int)
      requires store != null
      modifies this`cache, store
      ensures View() == RestoreOne(old(View()), host, now)
    {
      var offline := host.(status := Offline, connections := []);
      cache := cache.(hosts := cache.hosts[offline.key := offline]);
      store.Save(offline, now);
      AddToIndex(offline.key);
    }

    method ResetStaleHosts()
      modifies this`cache
      ensures View() == ResetStale(old(View()))
    {
      var namespaces := if cache.namespaces.Some? then cache.namespaces.value else ["default"];
      ghost var before := cache;
      ResetNone(before);
      for i := 0 to |namespaces|
        invariant cache == before.(hosts := ResetSoFar(before, namespaces[..i], "", []))
      {
        ResetHosts(namespaces[i], before, namespaces[..i]);
        ResetNamespace(before, namespaces, i, IdsOf(before.index, namespaces[i]));
      }
      assert namespaces[..|namespaces|] == namespaces;
      ResetComplete(old(View()), before, namespaces);
    }

    /** The inner loop, over the host ids of one namespace. */
    method ResetHosts(ns: Id, ghost before: Cache, ghost done: seq<Id>)
      requires cache == before.(hosts := ResetSoFar(before, done, "", []))
      modifies this`cache
      ensures cache == before.(hosts := ResetSoFar(before, done, ns, IdsOf(before.index, ns)))
    {
      var hostIds := if ns in cache.index then cache.index[ns] else [];
      ResetNoIds(before, done, ns);
      for j := 0 to |hostIds|
        invariant cache == before.(hosts := ResetSoFar(before, done, ns, hostIds[..j]))
      {
        var key := (ns, hostIds[j]);
        ResetOneMore(before, done, ns, hostIds, j);
        if key in cache.hosts && (cache.hosts[key].status == Online || cache.hosts[key].status == Reconnecting) {
          cache := cache.(hosts := cache.hosts[key := cache.hosts[key].(status := Offline, connections := [])]);
        }
      }
      assert hostIds[..|hostIds|] == hostIds;
    }

    method Register(hostId: Id, machineToken: Token, name: string, namespaceId: Id, capabilities: seq<string>,
                    hostType: Option<HostType>, now: int)
      returns (descriptor: Host)
      modifies this, store
      ensures View() == Step(old(View()),
        RegisterHost((namespaceId, hostId), machineToken, name, capabilities, hostType, now))
      ensures Found(View(), (namespaceId, hostId)) == Some(descriptor)
      ensures Resolved(View(), machineToken) == Some((namespaceId, hostId))
    {
      var key := (namespaceId, hostId);
      descriptor := Host(key, Profile(name, capabilities, hostType, None, None), Offline, now, [], now, now);
      if store != null {
        store.Save(descriptor, now);
        store.SaveToken(machineToken, key);
      }
      cache := cache.(hosts := cache.hosts[key := descriptor], tokens := cache.tokens[machineToken := key]);
      AddToIndex(key);
    }

    method SetOnline(key: Key, connectionId: Id, now: int)
      modifies this, store
      ensures View() == Step(old(View()), HostStates.SetOnline(key, connectionId, now))
      ensures Keyed(old(View())) ==>
        if key in old(cache).hosts then CameOnline(old(View()), View(), key, connectionId, now) else View() == old(View())
    {
      ghost var r := View();
      if Keyed(r) { SetOnlineEffect(r, key, connectionId, now); }
      if key !in cache.hosts { return; }
      if key in graceTimers { graceTimers := graceTimers - {key}; }
      var updated := cache.hosts[key].(status := Online, lastSeen := now, connections := [connectionId]);
      cache := cache.(hosts := cache.hosts[key := updated]);
      if store != null { store.Save(updated, now); }
    }

    method SetOffline(key: Key, connectionId: Id, now: int)
      modifies this, store
      ensures View() == Step(old(View()), HostStates.SetOffline(key, connectionId, now))
      ensures Keyed(old(View())) ==>
        if key !in old(cache).hosts then View() == old(View())
        else if OnlyConnection(old(cache).hosts[key], connectionId) then LostLast(old(View()), View(), key, now)
        else LostOne(old(View()), View(), key, connectionId, now)
    {
      if Keyed(View()) { SetOfflineEffect(View(), key, connectionId, now); }
      if key !in cache.hosts { return; }
      var host := cache.hosts[key];
      var connections := Without(host.connections, connectionId);
      if |connections| > 0 {
        cache := cache.(hosts := cache.hosts[key := host.(status := Online, lastSeen := now, connections := connections)]);
        return;
      }
      var reconnecting := host.(status := Reconnecting, lastSeen := now, connections := []);
      cache := cache.(hosts := cache.hosts[key := reconnecting]);
      if store != null { store.Save(reconnecting, now); }
      graceTimers := graceTimers[key := now + reconnectGraceMs];
    }

    /** What the grace timer of a host does when it fires. */
    method OnGraceOver(key: Key, now: int)
      modifies this, store
      ensures View() == Step(old(View()), GraceFires(key, now))
      ensures Keyed(old(View())) ==> GraceEnded(old(View()), View(), key, now)
    {
      if Keyed(View()) { GraceEffect(View(), key, now); }
      graceTimers := graceTimers - {key};
      if key in cache.hosts && cache.hosts[key].status == Reconnecting {
        var offline := cache.hosts[key].(status := Offline, lastSeen := now);
        cache := cache.(hosts := cache.hosts[key := offline]);
        if store != null { store.Save(offline, now); }
      }
    }

    method Heartbeat(key: Key, now: int)
      modifies this`cache
      ensures View() == Step(old(View()), HostStates.Heartbeat(key, now))
      ensures Seen(old(View()), View(), key, now)
    {
      HeartbeatEffect(View(), key, now);
      if key !in cache.hosts { return; }
      cache := cache.(hosts := cache.hosts[key := cache.hosts[key].(lastSeen := now)]);
    }

    method Get(key: Key) returns (host: Option<Host>)
      modifies this`cache, store
      ensures View() == Step(old(View()), Look(key))
      ensures host == Found(old(View()), key) == Found(View(), key)
    {
      if key in cache.hosts { return Some(cache.hosts[key]); }
      if store == null { return None; }
      var stored := store.Get(key);
      if stored.None? { return None; }
      var offline := stored.value.(status := Offline, connections := []);
      cache := cache.(hosts := cache.hosts[key := offline]);
      AddToIndex(key);
      return Some(offline);
    }

    method ResolveToken(token: Token) returns (owner: Option<Key>)
      modifies this`cache, store
      ensures View() == Step(old(View()), HostStates.ResolveToken(token))
      ensures owner == Resolved(old(View()), token)
    {
      if token in cache.tokens { return Some(cache.tokens[token]); }
      if store == null { return None; }
      owner := store.ResolveToken(token);
      if owner.Some? { cache := cache.(tokens := cache.tokens[token := owner.value]); }
    }

    /** The answer of `list`, and that listing changes nothing. */
    method List(namespaceId: Id) returns (result: seq<Host>)
      modifies store
      ensures View() == old(View())
      ensures store == null ==> result == CachedOnly(View(), namespaceId, IdsOf(cache.index, namespaceId))
      ensures store != null ==>
        exists persisted :: Listing(store.View(), KeysOf(store.hosts, namespaceId), persisted) && result == Enriched(View(), persisted)
    {
      result := [];
      if store != null {
        var persisted := store.List(namespaceId);
        for i := 0 to |persisted|
          invariant result == Enriched(View(), persisted[..i])
        {
          var key := (namespaceId, persisted[i].key.1);
          assert persisted[..i + 1][..i] == persisted[..i];
          result := result +
            [if key in cache.hosts then cache.hosts[key] else persisted[i].(status := Offline, connections := [])];
        }
        assert persisted[..|persisted|] == persisted;
        return;
      }
      var hostIds := if namespaceId in cache.index then cache.index[namespaceId] else [];
      for i := 0 to |hostIds|
        invariant result == CachedOnly(View(), namespaceId, hostIds[..i])
      {
        assert hostIds[..i + 1][..i] == hostIds[..i];
        if (namespaceId, hostIds[i]) in cache.hosts { result := result + [cache.hosts[(namespaceId, hostIds[i])]]; }
      }
      assert hostIds[..|hostIds|] == hostIds;
    }

    /** True exactly when the store had the host; the host is then gone with all its tokens there. */
    method Deregister(key: Key) returns (deleted: bool)
      modifies this`cache, store
      ensures View() == Step(old(View()), HostStates.Deregister(key))
      ensures deleted <==> store != null && key in old(View()).store.value.hosts
      ensures Found(View(), key).None?
      ensures store != null ==> forall t :: t in store.tokens ==> store.tokens[t] != key
    {
      deleted := false;
      if store != null { deleted := store.Delete(key); }
      cache := cache.(hosts := cache.hosts - {key});
      RemoveFromIndex(key);
    }

    method EnsureRegistered(key: Key, name: string, capabilities: seq<string>, now: int)
      modifies this`cache, store
      ensures View() == Step(old(View()), HostStates.EnsureRegistered(key, name, capabilities, now))
      ensures Found(View(), key).Some?
    {
      var existing := Get(key);
      if existing.Some? {
        if |capabilities| > 0 && existing.value.profile.capabilities != capabilities {
          var updated := existing.value.(
            profile := existing.value.profile.(capabilities := capabilities), updatedAt := now);
          if store != null { store.Save(updated, now); }
          cache := cache.(hosts := cache.hosts[key := updated]);
        }
        return;
      }
      var descriptor := Host(key, Profile(name, capabilities, None, None, None), Offline, now, [], now, now);
      if store != null { store.Save(descriptor, now); }
      cache := cache.(hosts := cache.hosts[key := descriptor]);
      AddToIndex(key);
    }

    /** The heartbeat watchdog, once a host has been silent for too long. */
    method MarkDegraded(key: Key)
      modifies this`cache, store
      ensures View() == Step(old(View()), HostStates.MarkDegraded(key))
      ensures Flagged(old(View()), View(), key)
    {
      DegradeEffect(View(), key);
      var host := Get(key);
      if host.Some? && host.value.status != Degraded {
        cache := cache.(hosts := cache.hosts[key := host.value.(status := Degraded)]);
      }
    }

    method AddToIndex(key: Key)
      modifies this`cache
      ensures View() == HostStates.AddToIndex(old(View()), key)
    {
      var hostIds := if key.0 in cache.index then cache.index[key.0] else [];
      if key.1 !in hostIds { cache := cache.(index := cache.index[key.0 := hostIds + [key.1]]); }
      var namespaces := if cache.namespaces.Some? then cache.namespaces.value else [];
      if key.0 !in namespaces { cache := cache.(namespaces := Some(namespaces + [key.0])); }
    }

    method RemoveFromIndex(key: Key)
      modifies this`cache
      ensures View() == HostStates.RemoveFromIndex(old(View()), key)
    {
      var hostIds := if key.0 in cache.index then cache.index[key.0] else [];
      cache := cache.(index := cache.index[key.0 := Without(hostIds, key.1)]);
    }
  }

  predicate Reached(cache: Cache, key: Key, done: seq<Id>, ns: Id, ids: seq<Id>) {
    (key.0 in done && key.1 in IdsOf(cache.index, key.0)) || (key.0 == ns && key.1 in ids)
  }

  /** The cached hosts once the walk has done some namespaces, and some host ids of another. */
  function ResetSoFar(cache: Cache, done: seq<Id>, ns: Id, ids: seq<Id>): map<Key, Host> {
    map k | k in cache.hosts ::
      if Reached(cache, k, done, ns, ids) && Stale(cache.hosts[k]) then AsOffline(cache.hosts[k]) else cache.hosts[k]
  }

  lemma ResetOneMore(cache: Cache, done: seq<Id>, ns: Id, ids: seq<Id>, j: nat)
    requires j < |ids|
    ensures var (hosts, key) := (ResetSoFar(cache, done, ns, ids[..j]), (ns, ids[j]));
      ResetSoFar(cache, done, ns, ids[..j + 1])
        == (if key in hosts && Stale(hosts[key]) then hosts[key := AsOffline(hosts[key])] else hosts)
  {
    assert ids[..j + 1] == ids[..j] + [ids[j]];
  }

  lemma ResetNoIds(cache: Cache, done: seq<Id>, ns: Id)
    ensures ResetSoFar(cache, done, ns, []) == ResetSoFar(cache, done, "", [])
  {
  }

  lemma ResetNone(cache: Cache)
    ensures ResetSoFar(cache, [], "", []) == cache.hosts
  {
  }

  lemma ResetComplete(r: Registry, cache: Cache, namespaces: seq<Id>)
    requires r.hosts == cache.hosts && r.index == cache.index && r.namespaces == cache.namespaces
    requires namespaces == if r.namespaces.Some? then r.namespaces.value else ["default"]
    ensures ResetStale(r).hosts == ResetSoFar(cache, namespaces, "", [])
  {
  }

  lemma ResetNamespace(cache: Cache, namespaces: seq<Id>, i: nat, ids: seq<Id>)
    requires i < |namespaces| && ids == IdsOf(cache.index, namespaces[i])
    ensures ResetSoFar(cache, namespaces[..i], namespaces[i], ids) == ResetSoFar(cache, namespaces[..i + 1], "", [])
  {
    assert namespaces[..i + 1] == namespaces[..i] + [namespaces[i]];
  }
}
