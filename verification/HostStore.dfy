/** SqliteHostStore: two tables with upsert semantics, and the statements that change them. */
module HostStore {
  import opened Collections
  import opened Messages

  /** A host is known by its namespace and its id. */
  type Key = (Id, Id)
  type Token = string

  datatype HostType = Local | Cloud
  datatype Status = Offline | Online | Reconnecting | Degraded

  /** The part of a descriptor the store keeps as it is given. */
  datatype Profile = Profile(
    name: string,
    capabilities: seq<string>,
    hostType: Option<HostType>,
    workspaces: Option<seq<string>>,
    plugins: Option<seq<string>>)

  datatype Host = Host(
    key: Key,
    profile: Profile,
    status: Status,
    lastSeen: int,
    connections: seq<Id>,
    createdAt: int,
    updatedAt: int)

  datatype Row = Row(profile: Profile, createdAt: int, updatedAt: int)

  datatype Tables = Tables(hosts: map<Key, Row>, tokens: map<Token, Key>)

  const NO_ROWS := Tables(map[], map[])

  function RowToDescriptor(key: Key, row: Row): Host {
    Host(key, row.profile, Offline, row.updatedAt, [], row.createdAt, row.updatedAt)
  }

  function AsOffline(h: Host): Host {
    h.(status := Offline, connections := [])
  }

  // ---------- statements ----------

  datatype Statement =
    | UpsertHost(host: Host, now: int)
    | UpsertToken(token: Token, key: Key)
    | DeleteTokensOf(key: Key)
    | DeleteHost(key: Key)
    | DeleteToken(token: Token)

  function Exec(t: Tables, s: Statement): Tables {
    match s
    case UpsertHost(host, now) =>
      var row := if host.key in t.hosts then t.hosts[host.key].(profile := host.profile, updatedAt := now)
                 else Row(host.profile, host.createdAt, now);
      t.(hosts := t.hosts[host.key := row])
    case UpsertToken(token, key) => t.(tokens := t.tokens[token := key])
    case DeleteTokensOf(key) => t.(tokens := map x | x in t.tokens && t.tokens[x] != key :: t.tokens[x])
    case DeleteHost(key) => t.(hosts := t.hosts - {key})
    case DeleteToken(token) => t.(tokens := t.tokens - {token})
  }

  function ExecAll(t: Tables, ss: seq<Statement>): Tables {
    if ss == [] then t else Exec(ExecAll(t, ss[..|ss| - 1]), ss[|ss| - 1])
  }

  /** Referential integrity: every token row names an existing host row. */
  ghost predicate Integrity(t: Tables) {
    forall x :: x in t.tokens ==> t.tokens[x] in t.hosts
  }

  /** A row keeps its created_at through every statement but its own deletion. */
  lemma CreatedAtStays(t: Tables, s: Statement, key: Key)
    requires key in t.hosts && s != DeleteHost(key)
    ensures key in Exec(t, s).hosts && Exec(t, s).hosts[key].createdAt == t.hosts[key].createdAt
  {
  }

  /** What each statement does: an upsert writes the row as given, as of now, and keeps an old row's
      created_at; a deletion removes what it names; and each leaves everything else. */
  lemma StatementEffects(t: Tables, h: Host, token: Token, key: Key, now: int)
    ensures var t' := Exec(t, UpsertHost(h, now));
      && t'.tokens == t.tokens
      && t'.hosts == t.hosts[h.key := Row(h.profile, if h.key in t.hosts then t.hosts[h.key].createdAt else h.createdAt, now)]
    ensures Exec(t, UpsertToken(token, key)) == Tables(t.hosts, t.tokens[token := key])
    ensures Exec(t, DeleteToken(token)) == Tables(t.hosts, t.tokens - {token})
    ensures Exec(t, DeleteHost(key)) == Tables(t.hosts - {key}, t.tokens)
    ensures var t' := Exec(t, DeleteTokensOf(key));
      t'.hosts == t.hosts && t'.tokens == map x | x in t.tokens && t.tokens[x] != key :: t.tokens[x]
  {
  }

  function Deleted(t: Tables, key: Key): Tables {
    Exec(Exec(t, DeleteTokensOf(key)), DeleteHost(key))
  }

  // ---------- ordered queries ----------

  /** The order of SQL's binary text comparison. */
  predicate TextLess(a: string, b: string) {
    b != [] && (a == [] || a[0] < b[0] || (a[0] == b[0] && TextLess(a[1..], b[1..])))
  }

  /** The order of `ORDER BY namespace_id, created_at`; rows that tie may come in any order. */
  predicate RowLeq(t: Tables, a: Key, b: Key)
    requires a in t.hosts && b in t.hosts
  {
    TextLess(a.0, b.0) || (a.0 == b.0 && t.hosts[a].createdAt <= t.hosts[b].createdAt)
  }

  /** The texts agree before position i, and there the first ends or has the lesser character. */
  predicate LessAt(a: string, b: string, i: nat) {
    i <= |a| && i < |b| && a[..i] == b[..i] && (i == |a| || a[i] < b[i])
  }

  /** That order is the lexicographic one. */
  lemma {:induction false} TextLessIsLexicographic(a: string, b: string)
    ensures TextLess(a, b) <==> exists i: nat :: LessAt(a, b, i)
  {
    if b == [] || a == [] || a[0] != b[0] {
      if TextLess(a, b) { assert LessAt(a, b, 0); }
      if exists i: nat :: LessAt(a, b, i) { LessAtStart(a, b); }
    } else {
      TextLessIsLexicographic(a[1..], b[1..]);
      LessAtShift(a, b);
    }
  }

  lemma LessAtStart(a: string, b: string)
    requires (b == [] || a == [] || a[0] != b[0]) && exists i: nat :: LessAt(a, b, i)
    ensures TextLess(a, b)
  {
    var i: nat :| LessAt(a, b, i);
    if i > 0 { assert a[..i][0] == b[..i][0]; }
  }

  lemma LessAtShift(a: string, b: string)
    requires a != [] && b != [] && a[0] == b[0]
    ensures (exists i: nat :: LessAt(a, b, i)) <==> exists i: nat :: LessAt(a[1..], b[1..], i)
  {
    if exists i: nat :: LessAt(a, b, i) {
      var i: nat :| LessAt(a, b, i);
      assert i > 0 && a[..i][1..] == a[1..][..i - 1] && b[..i][1..] == b[1..][..i - 1];
      assert LessAt(a[1..], b[1..], i - 1);
    }
    if exists i: nat :: LessAt(a[1..], b[1..], i) {
      var i: nat :| LessAt(a[1..], b[1..], i);
      assert a[..i + 1] == [a[0]] + a[1..][..i] && b[..i + 1] == [b[0]] + b[1..][..i];
      assert LessAt(a, b, i + 1);
    }
  }

  lemma {:induction false} TextTrichotomy(a: string, b: string)
    ensures TextLess(a, b) || a == b || TextLess(b, a)
  {
    if a != [] && b != [] && a[0] == b[0] {
      TextTrichotomy(a[1..], b[1..]);
      assert a == [a[0]] + a[1..] && b == [b[0]] + b[1..];
    }
  }

  lemma {:induction false} TextTransitive(a: string, b: string, c: string)
    requires TextLess(a, b) && TextLess(b, c)
    ensures TextLess(a, c)
  {
    if a != [] && a[0] == b[0] == c[0] { TextTransitive(a[1..], b[1..], c[1..]); }
  }

  lemma RowLeqTransitive(t: Tables, a: Key, b: Key, c: Key)
    requires a in t.hosts && b in t.hosts && c in t.hosts && RowLeq(t, a, b) && RowLeq(t, b, c)
    ensures RowLeq(t, a, c)
  {
    if TextLess(a.0, b.0) && TextLess(b.0, c.0) { TextTransitive(a.0, b.0, c.0); }
  }

  lemma {:induction false} LeastRow(t: Tables, keys: set<Key>) returns (least: Key)
    requires keys != {} && keys <= t.hosts.Keys
    ensures least in keys && forall k :: k in keys ==> RowLeq(t, least, k)
  {
    var some :| some in keys;
    TextTrichotomy(some.0, some.0);
    if keys == {some} {
      least := some;
    } else {
      var rest := LeastRow(t, keys - {some});
      TextTrichotomy(some.0, rest.0);
      least := if RowLeq(t, some, rest) then some else rest;
      forall k | k in keys ensures RowLeq(t, least, k) {
        if k != some && least == some { RowLeqTransitive(t, some, rest, k); }
      }
    }
  }

  /** The keys of a namespace. */
  function KeysOf<V>(m: map<Key, V>, ns: Id): set<Key> {
    set k | k in m && k.0 == ns
  }

  /** A result of listing the hosts with the given keys: each once, as its row describes it, in order. */
  ghost predicate Listing(t: Tables, keys: set<Key>, result: seq<Host>)
    requires keys <= t.hosts.Keys
  {
    && (forall i :: 0 <= i < |result| ==> result[i].key in keys && result[i] == RowToDescriptor(result[i].key, t.hosts[result[i].key]))
    && (forall k :: k in keys ==> Lists(result, k))
    && (forall i, j :: 0 <= i < j < |result| ==>
          result[i].key != result[j].key && RowLeq(t, result[i].key, result[j].key))
  }

  ghost predicate Lists(result: seq<Host>, k: Key) {
    exists i :: 0 <= i < |result| && result[i].key == k
  }

  lemma ListsSnoc(init: seq<Host>, last: Host, k: Key)
    ensures Lists(init + [last], k) <==> Lists(init, k) || last.key == k
  {
    var result := init + [last];
    assert result[|init|] == last && forall i :: 0 <= i < |init| ==> result[i] == init[i];
    if Lists(init, k) {
      var i :| 0 <= i < |init| && init[i].key == k;
      assert result[i].key == k;
    }
  }

  lemma ListingOneLess(t: Tables, keys: set<Key>, init: seq<Host>, last: Host)
    requires keys <= t.hosts.Keys && Listing(t, keys, init + [last])
    ensures last.key in keys && Listing(t, keys - {last.key}, init)
  {
    var result := init + [last];
    assert result[|init|] == last && forall i :: 0 <= i < |init| ==> result[i] == init[i];
    forall k | k in keys - {last.key} ensures Lists(init, k) {
      assert Lists(result, k);
      ListsSnoc(init, last, k);
    }
  }

  lemma {:induction false} ListingSize(t: Tables, keys: set<Key>, result: seq<Host>)
    requires keys <= t.hosts.Keys && Listing(t, keys, result)
    ensures |result| == |keys|
    decreases |result|
  {
    if result == [] {
      assert forall k :: k in keys ==> Lists(result, k);
      assert keys == {};
    } else {
      var init, last := result[..|result| - 1], result[|result| - 1];
      assert result == init + [last];
      ListingOneLess(t, keys, init, last);
      ListingSize(t, keys - {last.key}, init);
    }
  }

  lemma ListingOneMore(t: Tables, keys: set<Key>, result: seq<Host>, k: Key)
    requires keys <= t.hosts.Keys && Listing(t, keys, result) && k in t.hosts && k !in keys
    requires forall i :: 0 <= i < |result| ==> RowLeq(t, result[i].key, k)
    ensures Listing(t, keys + {k}, result + [RowToDescriptor(k, t.hosts[k])])
  {
    var last := RowToDescriptor(k, t.hosts[k]);
    var longer := result + [last];
    assert longer[|result|] == last && forall i :: 0 <= i < |result| ==> longer[i] == result[i];
    forall j | j in keys + {k} ensures Lists(longer, j) {
      if j != k { assert Lists(result, j); }
      ListsSnoc(result, last, j);
    }
  }

  lemma {:induction false} NotLessThanItself(a: string)
    ensures !TextLess(a, a)
  {
    if a != [] { NotLessThanItself(a[1..]); }
  }

  /** Within a namespace a listing is in the order of creation. */
  lemma SameSpaceByAge(t: Tables, keys: set<Key>, result: seq<Host>)
    requires keys <= t.hosts.Keys && Listing(t, keys, result)
    ensures forall i, j :: 0 <= i < j < |result| && result[i].key.0 == result[j].key.0 ==> result[i].createdAt <= result[j].createdAt
  {
    forall i, j | 0 <= i < j < |result| && result[i].key.0 == result[j].key.0 ensures result[i].createdAt <= result[j].createdAt {
      NotLessThanItself(result[i].key.0);
      assert RowLeq(t, result[i].key, result[j].key);
    }
  }

  /** Some keys are listed, and every one still to come may come after them. */
  ghost predicate Selected(t: Tables, keys: set<Key>, todo: set<Key>, result: seq<Host>) {
    && todo <= keys <= t.hosts.Keys && Listing(t, keys - todo, result)
    && forall i, k :: 0 <= i < |result| && k in todo ==> RowLeq(t, result[i].key, k)
  }

  lemma SelectedOneMore(t: Tables, keys: set<Key>, todo: set<Key>, result: seq<Host>, k: Key)
    requires Selected(t, keys, todo, result) && k in todo && forall x :: x in todo ==> RowLeq(t, k, x)
    ensures Selected(t, keys, todo - {k}, result + [RowToDescriptor(k, t.hosts[k])])
  {
    ListingOneMore(t, keys - todo, result, k);
    assert keys - (todo - {k}) == keys - todo + {k};
  }

  class SqliteHostStore {
    var migrated: bool
    var hosts: map<Key, Row>
    var tokens: map<Token, Key>

    ghost function View(): Tables
      reads this
    {
      Tables(hosts, tokens)
    }

    /** Creates the tables if they are not there; tables that are there stay as they are. */
    method Migrate()
      modifies this`migrated
      ensures migrated
    {
      if migrated { return; }
      migrated := true;
    }

    method Save(descriptor: Host, now: int)
      modifies this`migrated, this`hosts
      ensures View() == Exec(old(View()), UpsertHost(descriptor, now))
    {
      Migrate();
      var key := descriptor.key;
      if key in hosts {
        hosts := hosts[key := hosts[key].(profile := descriptor.profile, updatedAt := now)];
      } else {
        hosts := hosts[key := Row(descriptor.profile, descriptor.createdAt, now)];
      }
    }

    method Get(key: Key) returns (found: Option<Host>)
      modifies this`migrated
      ensures found == if key in hosts then Some(RowToDescriptor(key, hosts[key])) else None
    {
      Migrate();
      found := if key in hosts then Some(RowToDescriptor(key, hosts[key])) else None;
    }

    method List(namespaceId: Id) returns (result: seq<Host>)
      modifies this`migrated
      ensures Listing(View(), KeysOf(hosts, namespaceId), result)
      ensures forall i, j :: 0 <= i < j < |result| ==> result[i].createdAt <= result[j].createdAt
    {
      Migrate();
      result := Select(KeysOf(hosts, namespaceId));
      SameSpaceByAge(View(), KeysOf(hosts, namespaceId), result);
    }

    method ListAll() returns (result: seq<Host>)
      modifies this`migrated
      ensures Listing(View(), hosts.Keys, result)
      ensures forall i, j :: 0 <= i < j < |result| && result[i].key.0 == result[j].key.0 ==> result[i].createdAt <= result[j].createdAt
    {
      Migrate();
      result := Select(hosts.Keys);
      SameSpaceByAge(View(), hosts.Keys, result);
    }

    /** A row that may come first. */
    method First(keys: set<Key>) returns (first: Key)
      requires keys != {} && keys <= hosts.Keys
      ensures first in keys && forall k :: k in keys ==> RowLeq(View(), first, k)
    {
      ghost var least := LeastRow(View(), keys);
      first :| first in keys && forall k :: k in keys ==> RowLeq(Tables(hosts, tokens), first, k);
    }

    /** The rows with these keys, in order. */
    method Select(keys: set<Key>) returns (result: seq<Host>)
      requires keys <= hosts.Keys
      ensures Listing(View(), keys, result)
    {
      result := [];
      var todo := keys;
      while todo != {}
        invariant Selected(View(), keys, todo, result)
        decreases |todo|
      {
        var k := First(todo);
        SelectedOneMore(View(), keys, todo, result, k);
        result := result + [RowToDescriptor(k, hosts[k])];
        todo := todo - {k};
      }
      assert keys - todo == keys;
    }

    method Delete(key: Key) returns (deleted: bool)
      modifies this
      ensures View() == Deleted(old(View()), key) && deleted == (key in old(hosts))
    {
      Migrate();
      tokens := map x | x in tokens && tokens[x] != key :: tokens[x];
      deleted := key in hosts;
      hosts := hosts - {key};
    }

    method SaveToken(token: Token, key: Key)
      modifies this`migrated, this`tokens
      ensures View() == Exec(old(View()), UpsertToken(token, key))
    {
      Migrate();
      tokens := tokens[token := key];
    }

    method ResolveToken(token: Token) returns (found: Option<Key>)
      modifies this`migrated
      ensures found == if token in tokens then Some(tokens[token]) else None
    {
      Migrate();
      found := if token in tokens then Some(tokens[token]) else None;
    }

    method RemoveToken(token: Token)
      modifies this`migrated, this`tokens
      ensures View() == Exec(old(View()), DeleteToken(token))
    {
      Migrate();
      tokens := tokens - {token};
    }
  }
}
