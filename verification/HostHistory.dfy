/** What the registry's state means in terms of its history, across crashes and restarts. */
module HostHistory {
  import opened Collections
  import opened Messages
  import opened HostStore
  import opened HostStates
  import opened HostInvariants

  // ---------- the directory a history describes ----------

  datatype Entry = Entry(profile: Profile, createdAt: int)

  function DirectoryStep(d: map<Key, Entry>, op: Op): map<Key, Entry> {
    match op
    case RegisterHost(key, _, name, capabilities, hostType, now) =>
      d[key := Entry(Profile(name, capabilities, hostType, None, None), now)]
    case EnsureRegistered(key, name, capabilities, now) =>
      if key !in d then d[key := Entry(Profile(name, capabilities, None, None, None), now)]
      else if capabilities == [] then d
      else d[key := d[key].(profile := d[key].profile.(capabilities := capabilities))]
    case Deregister(key) => d - {key}
    case _ => d
  }

  /** The hosts registered and not deregistered, as registered and last re-announced. */
  function Directory(ops: seq<Op>): map<Key, Entry> {
    if ops == [] then map[] else DirectoryStep(Directory(ops[..|ops| - 1]), ops[|ops| - 1])
  }

  function TokenStep(b: map<Token, Key>, op: Op): map<Token, Key> {
    match op
    case RegisterHost(key, token, _, _, _, _) => b[token := key]
    case Deregister(key) => map t | t in b && b[t] != key :: b[t]
    case _ => b
  }

  /** The tokens issued to those hosts. */
  function TokenBook(ops: seq<Op>): map<Token, Key> {
    if ops == [] then map[] else TokenStep(TokenBook(ops[..|ops| - 1]), ops[|ops| - 1])
  }

  ghost predicate Stores(t: Tables, d: map<Key, Entry>) {
    && t.hosts.Keys == d.Keys
    && forall k :: k in d ==> t.hosts[k].profile == d[k].profile && t.hosts[k].createdAt == d[k].createdAt
  }

  lemma RestartKeepsRows(r: Registry, op: Op)
    requires Inv(r) && op.Restart? && Legal(r, op) && r.store.Some?
    ensures RestoredFrom(ResetStale(NewProcess(r, op.keepCache)), op.listed, Step(r, op))
  {
    NewProcessInv(r, op.keepCache);
    ListedAreStored(r.store.value, op.listed);
    RestoreAllExact(ResetStale(NewProcess(r, op.keepCache)), op.listed, op.now);
    assert Step(r, op) == RestoreAll(ResetStale(NewProcess(r, op.keepCache)), op.listed, op.now);
  }

  lemma WarmKeepsStore(r: Registry, key: Key)
    ensures Warmed(r, key).store == r.store
  {
  }

  /** Saving a host that is in the directory as the directory has it changes nothing there. */
  lemma SaveKeepsDirectory(t: Tables, h: Host, now: int, d: map<Key, Entry>)
    requires Stores(t, d) && h.key in d && h.profile == d[h.key].profile
    ensures Stores(Exec(t, UpsertHost(h, now)), d)
  {
  }

  lemma SaveChangesProfile(t: Tables, h: Host, now: int, d: map<Key, Entry>)
    requires Stores(t, d)
    ensures var e := if h.key in d then d[h.key].(profile := h.profile) else Entry(h.profile, h.createdAt);
      Stores(Exec(t, UpsertHost(h, now)), d[h.key := e])
  {
  }

  /** The store after an operation is the directory and the token book after it. */
  ghost predicate Follows(r': Registry, d: map<Key, Entry>, b: map<Token, Key>) {
    r'.store.Some? && Stores(r'.store.value, d) && r'.store.value.tokens == b
  }

  lemma EnsureNewStores(r: Registry, op: Op, d: map<Key, Entry>, b: map<Token, Key>)
    requires op.EnsureRegistered? && Follows(r, d, b) && Found(r, op.key).None?
    ensures Follows(Ensured(r, op), DirectoryStep(d, op), b)
  {
    SaveChangesProfile(r.store.value, NewHost(op.key, Profile(op.name, op.capabilities, None, None, None), op.now), op.now, d);
  }

  /** A known host is found as the directory has it. */
  lemma FoundAsStored(r: Registry, key: Key, d: map<Key, Entry>)
    requires StoreOk(r) && Keyed(r) && r.store.Some? && Stores(r.store.value, d) && Found(r, key).Some?
    ensures key in d && Found(r, key).value.key == key && Found(r, key).value.profile == d[key].profile
  {
  }

  lemma EnsureKnownStores(r: Registry, op: Op, d: map<Key, Entry>, b: map<Token, Key>)
    requires StoreOk(r) && Keyed(r)
    requires op.EnsureRegistered? && Follows(r, d, b) && Found(r, op.key).Some?
    ensures Follows(Ensured(r, op), DirectoryStep(d, op), b)
  {
    WarmKeepsStore(r, op.key);
    FoundAsStored(r, op.key, d);
    if op.capabilities == [] {
    } else if d[op.key].profile.capabilities == op.capabilities {
      assert d[op.key := d[op.key]] == d;
    } else {
      SaveChangesProfile(r.store.value, EnsuredHost(r, op), op.now, d);
    }
  }

  /** Saving a cached host under another status keeps the directory. */
  lemma SaveCachedStores(r: Registry, h: Host, now: int, r': Registry, d: map<Key, Entry>, b: map<Token, Key>)
    requires StoreOk(r) && Keyed(r) && Follows(r, d, b)
    requires h.key in r.hosts && h.profile == r.hosts[h.key].profile && r'.store == SaveTo(r.store, h, now)
    ensures Follows(r', d, b)
  {
    assert h.key in r.store.value.hosts && Matches(r.hosts[h.key], r.store.value.hosts[h.key]);
    SaveKeepsDirectory(r.store.value, h, now, d);
  }

  lemma OnlineStores(r: Registry, key: Key, conn: Id, now: int, d: map<Key, Entry>, b: map<Token, Key>)
    requires StoreOk(r) && Keyed(r) && Follows(r, d, b)
    ensures Follows(WentOnline(r, key, conn, now), d, b)
  {
    var r' := WentOnline(r, key, conn, now);
    if key in r.hosts { SaveCachedStores(r, r'.hosts[key], now, r', d, b); }
  }

  lemma OfflineStores(r: Registry, key: Key, conn: Id, now: int, d: map<Key, Entry>, b: map<Token, Key>)
    requires StoreOk(r) && Keyed(r) && Follows(r, d, b)
    ensures Follows(WentOffline(r, key, conn, now), d, b)
  {
    var r' := WentOffline(r, key, conn, now);
    if key in r.hosts && Without(r.hosts[key].connections, conn) == [] { SaveCachedStores(r, r'.hosts[key], now, r', d, b); }
  }

  lemma GraceStores(r: Registry, key: Key, now: int, d: map<Key, Entry>, b: map<Token, Key>)
    requires StoreOk(r) && Keyed(r) && Follows(r, d, b)
    ensures Follows(GraceOver(r, key, now), d, b)
  {
    var r' := GraceOver(r, key, now);
    if key in r.hosts && r.hosts[key].status == Reconnecting { SaveCachedStores(r, r'.hosts[key], now, r', d, b); }
  }

  lemma RestartStores(r: Registry, op: Op, d: map<Key, Entry>, b: map<Token, Key>)
    requires Inv(r) && op.Restart? && Legal(r, op) && Follows(r, d, b)
    ensures Follows(Step(r, op), d, b)
  {
    RestartKeepsRows(r, op);
  }

  lemma RegisterStores(r: Registry, op: Op, d: map<Key, Entry>, b: map<Token, Key>)
    requires Inv(r) && op.RegisterHost? && Legal(r, op) && Follows(r, d, b)
    ensures Follows(Registered(r, op), DirectoryStep(d, op), TokenStep(b, op))
  {
    SaveChangesProfile(r.store.value, NewHost(op.key, Profile(op.name, op.capabilities, op.hostType, None, None), op.now), op.now, d);
  }

  lemma DeregisterStores(r: Registry, op: Op, d: map<Key, Entry>, b: map<Token, Key>)
    requires op.Deregister? && Follows(r, d, b)
    ensures Follows(Deregistered(r, op.key), DirectoryStep(d, op), TokenStep(b, op))
  {
  }

  lemma QuietStores(r: Registry, op: Op, d: map<Key, Entry>, b: map<Token, Key>)
    requires op.Heartbeat? || op.ResolveToken? || op.Evict? || op.Look? || op.MarkDegraded?
    requires Follows(r, d, b)
    ensures Follows(Step(r, op), DirectoryStep(d, op), TokenStep(b, op))
  {
    if op.Look? || op.MarkDegraded? { WarmKeepsStore(r, op.key); }
  }

  lemma StepStores(r: Registry, op: Op, d: map<Key, Entry>, b: map<Token, Key>)
    requires Inv(r) && Legal(r, op) && Follows(r, d, b)
    ensures Follows(Step(r, op), DirectoryStep(d, op), TokenStep(b, op))
  {
    match op
    case Restart(_, _, _) => RestartStores(r, op, d, b);
    case RegisterHost(_, _, _, _, _, _) => RegisterStores(r, op, d, b);
    case EnsureRegistered(_, _, _, _) =>
      if Found(r, op.key).Some? { EnsureKnownStores(r, op, d, b); } else { EnsureNewStores(r, op, d, b); }
    case SetOnline(key, conn, now) => OnlineStores(r, key, conn, now, d, b);
    case SetOffline(key, conn, now) => OfflineStores(r, key, conn, now, d, b);
    case GraceFires(key, now) => GraceStores(r, key, now, d, b);
    case Deregister(_) => DeregisterStores(r, op, d, b);
    case _ => QuietStores(r, op, d, b);
  }

  /** At every moment of every history the store is exactly the directory. */
  lemma {:induction false} StoreIsDirectory(ops: seq<Op>, rs: seq<Registry>, graceMs: int, n: nat)
    requires Behaviour(ops, rs, graceMs, true) && n <= |ops|
    ensures rs[n].store.Some? && Stores(rs[n].store.value, Directory(ops[..n]))
    ensures rs[n].store.value.tokens == TokenBook(ops[..n])
  {
    if n > 0 {
      StoreIsDirectory(ops, rs, graceMs, n - 1);
      Reachable(ops, rs, graceMs, true, n - 1);
      assert Next(ops, rs, n - 1);
      assert ops[..n][..n - 1] == ops[..n - 1];
      StepStores(rs[n - 1], ops[n - 1], Directory(ops[..n - 1]), TokenBook(ops[..n - 1]));
    }
  }

  /** Crash and restore: after a restart, with or without the cache surviving, the cached hosts are
      exactly those registered and not deregistered, with the same name, capabilities, type and
      creation time, offline, unconnected and indexed; and the count returned is their number. */
  lemma RestoreRoundTrip(ops: seq<Op>, rs: seq<Registry>, graceMs: int, n: nat)
    requires Behaviour(ops, rs, graceMs, true) && n < |ops| && ops[n].Restart?
    ensures var (d, r) := (Directory(ops[..n]), rs[n + 1]);
      && r.hosts.Keys == d.Keys && |ops[n].listed| == |d|
      && r.timers == map[]
      && forall k :: k in d ==>
           && r.hosts[k].profile == d[k].profile && r.hosts[k].createdAt == d[k].createdAt
           && r.hosts[k].status == Offline && r.hosts[k].connections == [] && Tracked(r, k)
  {
    StoreIsDirectory(ops, rs, graceMs, n);
    Reachable(ops, rs, graceMs, true, n);
    assert Next(ops, rs, n);
    RestartKeepsRows(rs[n], ops[n]);
    ListingSize(rs[n].store.value, rs[n].store.value.hosts.Keys, ops[n].listed);
    forall k | k in rs[n].store.value.hosts
      ensures k in rs[n + 1].hosts && rs[n + 1].hosts[k] == AsOffline(RowToDescriptor(k, rs[n].store.value.hosts[k]))
    {
      ListedIsRestored(rs[n].store.value, ResetStale(NewProcess(rs[n], ops[n].keepCache)).hosts, ops[n].listed, rs[n + 1].hosts, k);
    }
  }

  lemma ListedIsRestored(t: Tables, hosts: map<Key, Host>, listed: seq<Host>, hosts': map<Key, Host>, k: Key)
    requires Listing(t, t.hosts.Keys, listed) && CacheRestored(hosts, listed, hosts') && k in t.hosts
    ensures k in hosts' && hosts'[k] == AsOffline(RowToDescriptor(k, t.hosts[k]))
  {
    var i :| 0 <= i < |listed| && listed[i].key == k;
  }

  /** A token of a host that is not deregistered resolves to it at all times, from cache or store. */
  lemma TokensOfLiveHostsResolve(ops: seq<Op>, rs: seq<Registry>, graceMs: int, n: nat, token: Token)
    requires Behaviour(ops, rs, graceMs, true) && n <= |ops| && token in TokenBook(ops[..n])
    ensures Resolved(rs[n], token) == Some(TokenBook(ops[..n])[token])
  {
    StoreIsDirectory(ops, rs, graceMs, n);
    Reachable(ops, rs, graceMs, true, n);
  }

  /** After a restart without the cache those are the only tokens that resolve. */
  lemma OnlyLiveTokensSurviveCrash(ops: seq<Op>, rs: seq<Registry>, graceMs: int, n: nat, token: Token)
    requires Behaviour(ops, rs, graceMs, true) && n < |ops| && ops[n].Restart? && !ops[n].keepCache
    ensures Resolved(rs[n + 1], token).Some? <==> token in TokenBook(ops[..n])
  {
    StoreIsDirectory(ops, rs, graceMs, n);
    Reachable(ops, rs, graceMs, true, n);
    assert Next(ops, rs, n);
    RestartKeepsRows(rs[n], ops[n]);
  }

  // ---------- the status machine ----------

  /** In every reachable state: online is one connection and no armed timer, offline and reconnecting
      are none, reconnecting waits for an armed timer; so a timer that is armed belongs to no online
      host, and firing it changes exactly a host that is still reconnecting, to offline. */
  lemma StatusMachine(ops: seq<Op>, rs: seq<Registry>, graceMs: int, withStore: bool, n: nat, k: Key, now: int)
    requires Behaviour(ops, rs, graceMs, withStore) && n <= |ops| && k in rs[n].hosts
    ensures var (r, h) := (rs[n], rs[n].hosts[k]);
      && (h.status == Online ==> |h.connections| == 1 && k !in r.timers)
      && (h.status == Offline || h.status == Reconnecting ==> h.connections == [])
      && (h.status == Reconnecting ==> k in r.timers)
      && (k in r.timers ==> h.status != Online && h.connections == [])
      && GraceOver(r, k, now).hosts
           == (if h.status == Reconnecting then r.hosts[k := h.(status := Offline, lastSeen := now)] else r.hosts)
  {
    Reachable(ops, rs, graceMs, withStore, n);
    assert StatusOk(rs[n].hosts[k], k in rs[n].timers);
  }

  // ---------- index, list and get ----------

  /** Without eviction the index holds exactly the cached hosts. */
  ghost predicate IndexExact(r: Registry) {
    forall k: Key :: k.1 in IdsOf(r.index, k.0) <==> k in r.hosts
  }

  lemma AddKeepsExact(r: Registry, h: Host, rest: Registry)
    requires IndexExact(r) && rest.hosts == r.hosts[h.key := h] && rest.index == r.index
    ensures IndexExact(AddToIndex(rest, h.key))
  {
    AddToIndexTracks(rest, h.key);
  }

  lemma {:induction false} RestoreKeepsExact(r: Registry, listed: seq<Host>, now: int)
    requires IndexExact(r)
    ensures IndexExact(RestoreAll(r, listed, now))
    decreases |listed|
  {
    if listed != [] {
      var r1, h := RestoreAll(r, listed[..|listed| - 1], now), AsOffline(listed[|listed| - 1]);
      RestoreKeepsExact(r, listed[..|listed| - 1], now);
      AddKeepsExact(r1, h, Cached(r1, h).(store := SaveTo(r1.store, h, now)));
    }
  }

  lemma WarmKeepsExact(r: Registry, key: Key)
    requires IndexExact(r)
    ensures IndexExact(Warmed(r, key))
  {
    if key !in r.hosts && Found(r, key).Some? { AddKeepsExact(r, Found(r, key).value, Cached(r, Found(r, key).value)); }
  }

  lemma RegisterKeepsExact(r: Registry, op: Op)
    requires IndexExact(r) && op.RegisterHost?
    ensures IndexExact(Registered(r, op))
  {
    var h := NewHost(op.key, Profile(op.name, op.capabilities, op.hostType, None, None), op.now);
    AddKeepsExact(r, h, Cached(r, h).(tokens := r.tokens[op.token := op.key], store := Registered(r, op).store));
  }

  lemma EnsureKeepsExact(r: Registry, op: Op)
    requires IndexExact(r) && op.EnsureRegistered?
    ensures IndexExact(Ensured(r, op))
  {
    if Found(r, op.key).Some? {
      WarmKeepsExact(r, op.key);
    } else {
      var h := EnsuredHost(r, op);
      AddKeepsExact(r, h, Cached(r, h).(store := SaveTo(r.store, h, op.now)));
    }
  }

  lemma RestartKeepsExact(r: Registry, op: Op)
    requires IndexExact(r) && op.Restart?
    ensures IndexExact(Step(r, op))
  {
    var r1 := ResetStale(NewProcess(r, op.keepCache));
    assert IndexExact(r1);
    RestoreKeepsExact(r1, op.listed, op.now);
  }

  lemma SameIndexKeepsExact(r: Registry, r': Registry)
    requires IndexExact(r) && r'.index == r.index && r'.hosts.Keys == r.hosts.Keys
    ensures IndexExact(r')
  {
  }

  lemma DeregisterKeepsExact(r: Registry, key: Key)
    requires IndexExact(r)
    ensures IndexExact(Deregistered(r, key))
  {
  }

  lemma DegradeFields(r: Registry, key: Key)
    ensures var (r1, r2) := (Warmed(r, key), Step(r, MarkDegraded(key)));
      r2.index == r1.index && r2.hosts.Keys == r1.hosts.Keys
  {
  }

  lemma DegradeKeepsExact(r: Registry, key: Key)
    requires IndexExact(r)
    ensures IndexExact(Step(r, MarkDegraded(key)))
  {
    DegradeFields(r, key);
    WarmKeepsExact(r, key);
    SameIndexKeepsExact(Warmed(r, key), Step(r, MarkDegraded(key)));
  }

  lemma UpdatesKeepHosts(r: Registry, op: Op)
    requires op.SetOnline? || op.SetOffline? || op.GraceFires? || op.Heartbeat? || op.ResolveToken?
    ensures Step(r, op).index == r.index && Step(r, op).hosts.Keys == r.hosts.Keys
  {
  }

  lemma StepKeepsExact(r: Registry, op: Op)
    requires IndexExact(r) && !op.Evict?
    ensures IndexExact(Step(r, op))
  {
    match op
    case Restart(_, _, _) => RestartKeepsExact(r, op);
    case RegisterHost(_, _, _, _, _, _) => RegisterKeepsExact(r, op);
    case EnsureRegistered(_, _, _, _) => EnsureKeepsExact(r, op);
    case Look(key) => WarmKeepsExact(r, key);
    case MarkDegraded(key) => DegradeKeepsExact(r, key);
    case Deregister(key) => DeregisterKeepsExact(r, key);
    case _ =>
      UpdatesKeepHosts(r, op);
      SameIndexKeepsExact(r, Step(r, op));
  }

  /** With no eviction, at every moment each index is duplicate-free and holds exactly the cached hosts
      of its namespace, which is tracked as soon as it has one. */
  lemma {:induction false} IndexHoldsTheCachedHosts(ops: seq<Op>, rs: seq<Registry>, graceMs: int, withStore: bool, n: nat)
    requires Behaviour(ops, rs, graceMs, withStore) && n <= |ops|
    requires forall i :: 0 <= i < n ==> !ops[i].Evict?
    ensures IndexExact(rs[n]) && IndexOk(rs[n])
  {
    Reachable(ops, rs, graceMs, withStore, n);
    if n > 0 {
      IndexHoldsTheCachedHosts(ops, rs, graceMs, withStore, n - 1);
      Reachable(ops, rs, graceMs, withStore, n - 1);
      assert Next(ops, rs, n - 1);
      StepKeepsExact(rs[n - 1], ops[n - 1]);
    }
  }

  /** `list` over a store: its rows, with the live descriptor where one is cached. */
  function Enriched(r: Registry, listed: seq<Host>): seq<Host> {
    if listed == [] then []
    else
      var h := listed[|listed| - 1];
      Enriched(r, listed[..|listed| - 1]) + [if h.key in r.hosts then r.hosts[h.key] else AsOffline(h)]
  }

  /** `list` without a store: the indexed hosts that are cached. */
  function CachedOnly(r: Registry, ns: Id, ids: seq<Id>): seq<Host> {
    if ids == [] then []
    else
      var k := (ns, ids[|ids| - 1]);
      CachedOnly(r, ns, ids[..|ids| - 1]) + (if k in r.hosts then [r.hosts[k]] else [])
  }

  /** The answer lists each known host of the namespace once, and each as `get` returns it. */
  ghost predicate ListsKnownHosts(r: Registry, ns: Id, answer: seq<Host>) {
    && (forall i :: 0 <= i < |answer| ==> answer[i].key.0 == ns && Found(r, answer[i].key) == Some(answer[i]))
    && (forall k: Key :: k.0 == ns && Found(r, k).Some? ==> Lists(answer, k))
    && (forall i, j :: 0 <= i < j < |answer| ==> answer[i].key != answer[j].key)
  }

  lemma {:induction false} EnrichedAt(r: Registry, listed: seq<Host>)
    ensures |Enriched(r, listed)| == |listed|
    ensures forall i :: 0 <= i < |listed| ==>
      Enriched(r, listed)[i] == if listed[i].key in r.hosts then r.hosts[listed[i].key] else AsOffline(listed[i])
    decreases |listed|
  {
    if listed != [] { EnrichedAt(r, listed[..|listed| - 1]); }
  }

  /** Each answer is for a host of the namespace, as `get` returns it. */
  lemma AnswersAreFound(r: Registry, ns: Id, listed: seq<Host>, i: nat)
    requires Keyed(r) && r.store.Some? && Listing(r.store.value, KeysOf(r.store.value.hosts, ns), listed)
    requires i < |Enriched(r, listed)|
    ensures var a := Enriched(r, listed)[i]; a.key.0 == ns && Found(r, a.key) == Some(a)
  {
    EnrichedAt(r, listed);
    ListedIsFound(r, ns, listed, i);
  }

  /** Each host found is answered. */
  lemma FoundIsAnswered(r: Registry, ns: Id, listed: seq<Host>, k: Key)
    requires Keyed(r) && StoreOk(r) && r.store.Some? && Listing(r.store.value, KeysOf(r.store.value.hosts, ns), listed)
    requires k.0 == ns && Found(r, k).Some?
    ensures Lists(Enriched(r, listed), k)
  {
    FoundIsStored(r, k);
    assert k in KeysOf(r.store.value.hosts, ns);
    var i :| 0 <= i < |listed| && listed[i].key == k;
    EnrichedAt(r, listed);
    ListedIsFound(r, ns, listed, i);
    assert Enriched(r, listed)[i].key == k;
  }

  lemma AnswersAreDistinct(r: Registry, ns: Id, listed: seq<Host>)
    requires Keyed(r) && r.store.Some? && Listing(r.store.value, KeysOf(r.store.value.hosts, ns), listed)
    ensures var answer := Enriched(r, listed); forall i, j :: 0 <= i < j < |answer| ==> answer[i].key != answer[j].key
  {
    EnrichedAt(r, listed);
    forall i | 0 <= i < |listed| ensures Enriched(r, listed)[i].key == listed[i].key { ListedIsFound(r, ns, listed, i); }
  }

  lemma StoredListAgreesWithGet(r: Registry, ns: Id, listed: seq<Host>)
    requires Inv(r) && r.store.Some? && Listing(r.store.value, KeysOf(r.store.value.hosts, ns), listed)
    ensures ListsKnownHosts(r, ns, Enriched(r, listed))
  {
    var answer := Enriched(r, listed);
    forall i | 0 <= i < |answer| ensures answer[i].key.0 == ns && Found(r, answer[i].key) == Some(answer[i]) {
      AnswersAreFound(r, ns, listed, i);
    }
    forall k: Key | k.0 == ns && Found(r, k).Some? ensures Lists(answer, k) { FoundIsAnswered(r, ns, listed, k); }
    AnswersAreDistinct(r, ns, listed);
  }

  lemma FoundIsStored(r: Registry, k: Key)
    requires StoreOk(r) && r.store.Some? && Found(r, k).Some?
    ensures k in r.store.value.hosts
  {
    assert k in r.hosts ==> k in r.store.value.hosts && Matches(r.hosts[k], r.store.value.hosts[k]);
  }

  lemma ListedIsFound(r: Registry, ns: Id, listed: seq<Host>, i: nat)
    requires Keyed(r) && r.store.Some? && Listing(r.store.value, KeysOf(r.store.value.hosts, ns), listed) && i < |listed|
    ensures var k := listed[i].key;
      var answer := if k in r.hosts then r.hosts[k] else AsOffline(listed[i]);
      answer.key == k && k.0 == ns && Found(r, k) == Some(answer)
  {
    assert listed[i].key in KeysOf(r.store.value.hosts, ns);
  }

  lemma {:induction false} CachedOnlyExact(r: Registry, ns: Id, ids: seq<Id>)
    requires Keyed(r) && NoDup(ids)
    ensures var a := CachedOnly(r, ns, ids);
      && (forall i :: 0 <= i < |a| ==> a[i].key.0 == ns && a[i].key.1 in ids && a[i].key in r.hosts && r.hosts[a[i].key] == a[i])
      && (forall x :: x in ids && (ns, x) in r.hosts ==> r.hosts[(ns, x)] in a)
      && (forall i, j :: 0 <= i < j < |a| ==> a[i].key != a[j].key)
    decreases |ids|
  {
    if ids != [] {
      var init, last := ids[..|ids| - 1], ids[|ids| - 1];
      CachedOnlyExact(r, ns, init);
      assert ids == init + [last];
      assert forall x :: x in init ==> x in ids;
    }
  }

  lemma CachedListAgreesWithGet(r: Registry, ns: Id)
    requires Inv(r) && r.store.None?
    ensures ListsKnownHosts(r, ns, CachedOnly(r, ns, IdsOf(r.index, ns)))
  {
    var ids := IdsOf(r.index, ns);
    CachedOnlyExact(r, ns, ids);
    var a := CachedOnly(r, ns, ids);
    forall k: Key | k.0 == ns && Found(r, k).Some? ensures exists i :: 0 <= i < |a| && a[i].key == k {
      assert Tracked(r, k) && k == (ns, k.1);
      assert r.hosts[k] in a;
    }
  }

  // ---------- restore from any cache ----------

  lemma {:induction false} RestoreSettles(r: Registry, listed: seq<Host>, now: int)
    requires forall k :: k in r.hosts ==> Tracked(r, k)
    requires r.store.Some? && Distinct(listed)
    ensures Settled(RestoreAll(ResetStale(r), listed, now))
    ensures CacheRestored(ResetStale(r).hosts, listed, RestoreAll(ResetStale(r), listed, now).hosts)
    decreases |listed|
  {
    if listed == [] {
      ResetSettles(r);
    } else {
      var init, last := listed[..|listed| - 1], listed[|listed| - 1];
      assert listed == init + [last];
      RestoreSettles(r, init, now);
      var r1 := RestoreAll(ResetStale(r), init, now);
      CacheOneMore(ResetStale(r).hosts, init, r1.hosts, last);
      RestoreOneSettles(r1, last, now);
    }
  }

  /** The nested walk is complete: from any cache whose index covers its hosts, agreeing with the store
      or not, no host is left online or reconnecting; and every stored host is cached as stored, offline,
      unconnected, indexed and tracked, as many as the count that is returned. */
  lemma RestoreIsComplete(r: Registry, listed: seq<Host>, now: int)
    requires forall k :: k in r.hosts ==> Tracked(r, k)
    requires r.store.Some? && Listing(r.store.value, r.store.value.hosts.Keys, listed)
    ensures var (rows, r') := (r.store.value.hosts, Restored(r, listed, now));
      && Settled(r') && |listed| == |rows|
      && forall k :: k in rows ==>
           k in r'.hosts && r'.hosts[k] == AsOffline(RowToDescriptor(k, rows[k])) && Tracked(r', k)
  {
    var t, r' := r.store.value, Restored(r, listed, now);
    RestoreSettles(r, listed, now);
    ListingSize(t, t.hosts.Keys, listed);
    forall k | k in t.hosts
      ensures k in r'.hosts && r'.hosts[k] == AsOffline(RowToDescriptor(k, t.hosts[k])) && Tracked(r', k)
    {
      ListedIsRestored(t, ResetStale(r).hosts, listed, r'.hosts, k);
    }
  }

  /** No cached host claims a live connection, and each is indexed in a tracked namespace. */
  ghost predicate Settled(r: Registry) {
    forall k :: k in r.hosts ==> r.hosts[k].status != Online && r.hosts[k].status != Reconnecting && Tracked(r, k)
  }

  /** The reset alone, which is all there is without a store: the index leads it to every host. */
  lemma ResetSettles(r: Registry)
    requires forall k :: k in r.hosts ==> Tracked(r, k)
    ensures Settled(ResetStale(r))
  {
    forall k | k in r.hosts ensures Walked(r, k) && Tracked(ResetStale(r), k) {
      assert Tracked(r, k);
    }
  }

  lemma RestoreOneSettles(r: Registry, h: Host, now: int)
    requires Settled(r)
    ensures Settled(RestoreOne(r, h, now))
  {
    AddToIndexTracks(Cached(r, AsOffline(h)).(store := SaveTo(r.store, AsOffline(h), now)), h.key);
  }

  // ---------- the SQL statements of an operation ----------

  function Upserts(listed: seq<Host>, now: int): seq<Statement> {
    if listed == [] then []
    else Upserts(listed[..|listed| - 1], now) + [UpsertHost(AsOffline(listed[|listed| - 1]), now)]
  }

  /** The statements an operation sends to the database, in order. */
  function Sql(r: Registry, op: Op): seq<Statement> {
    match op
    case RegisterHost(key, token, name, capabilities, hostType, now) =>
      [UpsertHost(NewHost(key, Profile(name, capabilities, hostType, None, None), now), now), UpsertToken(token, key)]
    case SetOnline(key, _, now) => if key in r.hosts then [UpsertHost(Step(r, op).hosts[key], now)] else []
    case SetOffline(key, conn, now) =>
      if key in r.hosts && Without(r.hosts[key].connections, conn) == [] then [UpsertHost(Step(r, op).hosts[key], now)]
      else []
    case GraceFires(key, now) =>
      if key in r.hosts && r.hosts[key].status == Reconnecting then [UpsertHost(Step(r, op).hosts[key], now)] else []
    case EnsureRegistered(key, _, capabilities, now) =>
      var found := Found(r, key);
      if found.None? || (capabilities != [] && found.value.profile.capabilities != capabilities) then
        [UpsertHost(EnsuredHost(r, op), now)]
      else []
    case Deregister(key) => [DeleteTokensOf(key), DeleteHost(key)]
    case Restart(_, listed, now) => Upserts(listed, now)
    case _ => []
  }

  function EnsuredHost(r: Registry, op: Op): Host
    requires op.EnsureRegistered?
  {
    match Found(r, op.key)
    case Some(existing) => existing.(profile := existing.profile.(capabilities := op.capabilities), updatedAt := op.now)
    case None => NewHost(op.key, Profile(op.name, op.capabilities, None, None, None), op.now)
  }

  lemma {:induction false} UpsertsAreRestore(r: Registry, listed: seq<Host>, now: int)
    requires r.store.Some?
    ensures RestoreAll(r, listed, now).store == Some(ExecAll(r.store.value, Upserts(listed, now)))
    decreases |listed|
  {
    if listed != [] {
      var us := Upserts(listed, now);
      assert us[..|us| - 1] == Upserts(listed[..|listed| - 1], now);
      UpsertsAreRestore(r, listed[..|listed| - 1], now);
    }
  }

  lemma ExecOne(t: Tables, s: Statement)
    ensures ExecAll(t, [s]) == Exec(t, s)
  {
    assert ExecAll(t, [s][..0]) == t;
  }

  lemma ExecTwo(t: Tables, a: Statement, b: Statement)
    ensures ExecAll(t, [a, b]) == Exec(Exec(t, a), b)
  {
    ExecOne(t, a);
    assert [a, b][..1] == [a];
  }

  lemma FewStatements(r: Registry, op: Op)
    requires r.store.Some? && !op.Restart?
    ensures var ss := Sql(r, op);
      && |ss| <= 2
      && (|ss| == 0 ==> Step(r, op).store == r.store)
      && (|ss| == 1 ==> Step(r, op).store == Some(Exec(r.store.value, ss[0])))
      && (|ss| == 2 ==> Step(r, op).store == Some(Exec(Exec(r.store.value, ss[0]), ss[1])))
  {
  }

  /** Executing an operation's statements gives the store after the operation. */
  lemma SqlIsTheStore(r: Registry, op: Op)
    requires r.store.Some?
    ensures Step(r, op).store == Some(ExecAll(r.store.value, Sql(r, op)))
  {
    if op.Restart? {
      UpsertsAreRestore(ResetStale(NewProcess(r, op.keepCache)), op.listed, op.now);
    } else {
      FewStatements(r, op);
      ExecFew(r.store.value, Sql(r, op));
    }
  }

  lemma ExecFew(t: Tables, ss: seq<Statement>)
    requires |ss| <= 2
    ensures |ss| == 0 ==> ExecAll(t, ss) == t
    ensures |ss| == 1 ==> ExecAll(t, ss) == Exec(t, ss[0])
    ensures |ss| == 2 ==> ExecAll(t, ss) == Exec(Exec(t, ss[0]), ss[1])
  {
    if |ss| == 1 {
      ExecOne(t, ss[0]);
      assert ss == [ss[0]];
    } else if |ss| == 2 {
      ExecTwo(t, ss[0], ss[1]);
      assert ss == [ss[0], ss[1]];
    }
  }

  lemma {:induction false} AllUpsertsSafe(t: Tables, listed: seq<Host>, now: int, i: nat)
    requires Integrity(t) && i <= |Upserts(listed, now)|
    ensures Integrity(ExecAll(t, Upserts(listed, now)[..i]))
    decreases |listed|
  {
    var us := Upserts(listed, now);
    if listed != [] {
      var vs := Upserts(listed[..|listed| - 1], now);
      if i <= |vs| {
        assert us[..i] == vs[..i];
        AllUpsertsSafe(t, listed[..|listed| - 1], now, i);
      } else {
        assert us[..i] == us && us[..|us| - 1] == vs == vs[..|vs|];
        AllUpsertsSafe(t, listed[..|listed| - 1], now, |vs|);
      }
    }
  }

  lemma FewKeepIntegrity(r: Registry, op: Op)
    requires Inv(r) && r.store.Some? && Legal(r, op) && !op.Restart?
    ensures var (t, ss) := (r.store.value, Sql(r, op));
      && Integrity(t) && |ss| <= 2
      && (|ss| >= 1 ==> Integrity(Exec(t, ss[0])))
      && (|ss| == 2 ==> Integrity(Exec(Exec(t, ss[0]), ss[1])))
  {
  }

  /** Store integrity after every single statement: wherever a crash cuts an operation short, each token
      row names an existing host row. */
  lemma IntegrityAfterEveryStatement(r: Registry, op: Op, i: nat)
    requires Inv(r) && r.store.Some? && Legal(r, op) && i <= |Sql(r, op)|
    ensures Integrity(ExecAll(r.store.value, Sql(r, op)[..i]))
  {
    if op.Restart? {
      AllUpsertsSafe(r.store.value, op.listed, op.now, i);
    } else {
      FewKeepIntegrity(r, op);
      ExecFew(r.store.value, Sql(r, op)[..i]);
    }
  }
}
