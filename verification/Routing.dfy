/** The routing half of HostCallDispatcher: which hosts are connected and who holds which
    capability, as maps, and what those maps mean in terms of the history of connections. */
module Routing {
  import opened Collections
  import opened Messages

  /** namespace -> host -> socket, and namespace -> capability -> hosts in order of insertion. */
  datatype Routes = Routes(connections: map<Id, map<Id, Id>>, holders: map<Id, map<string, seq<Id>>>)

  const NO_ROUTES := Routes(map[], map[])

  function Row<V>(m: map<Id, map<Id, V>>, ns: Id): map<Id, V> {
    if ns in m then m[ns] else map[]
  }

  predicate Connected(r: Routes, ns: Id, host: Id) {
    host in Row(r.connections, ns)
  }

  function ListOf(row: map<string, seq<Id>>, cap: string): seq<Id> {
    if cap in row then row[cap] else []
  }

  function Holders(r: Routes, ns: Id, cap: string): seq<Id> {
    ListOf(Row(r.holders, ns), cap)
  }

  /** Adds the host to the list of each of the capabilities, creating the lists that are missing. */
  function Enlisted(row: map<string, seq<Id>>, caps: seq<string>, host: Id): map<string, seq<Id>> {
    map c | c in row.Keys + (set c | c in caps) ::
      if c in caps then Adjoin(ListOf(row, c), host) else row[c]
  }

  lemma EnlistNone(row: map<string, seq<Id>>, host: Id)
    ensures Enlisted(row, [], host) == row
  {
  }

  lemma EnlistStep(row: map<string, seq<Id>>, caps: seq<string>, cap: string, host: Id)
    ensures var before := Enlisted(row, caps, host);
      before[cap := Adjoin(ListOf(before, cap), host)] == Enlisted(row, caps + [cap], host)
  {
    var before, after := Enlisted(row, caps, host), Enlisted(row, caps + [cap], host);
    var set1 := before[cap := Adjoin(ListOf(before, cap), host)];
    assert forall c :: c in caps + [cap] <==> c in caps || c == cap;
    assert set1.Keys == after.Keys;
    forall c | c in after ensures set1[c] == after[c] {}
  }

  function Delisted(row: map<string, seq<Id>>, host: Id): map<string, seq<Id>> {
    map c | c in row :: Without(row[c], host)
  }

  function Register(r: Routes, host: Id, ns: Id, socket: Id, caps: seq<string>): Routes {
    Routes(
      r.connections[ns := Row(r.connections, ns)[host := socket]],
      if caps == [] then r.holders else r.holders[ns := Enlisted(Row(r.holders, ns), caps, host)])
  }

  function Remove(r: Routes, host: Id, ns: Id): Routes {
    Routes(
      if ns in r.connections then r.connections[ns := r.connections[ns] - {host}] else r.connections,
      if ns in r.holders then r.holders[ns := Delisted(r.holders[ns], host)] else r.holders)
  }

  /** The first of the listed hosts that is still connected. */
  function FirstConnected(r: Routes, ns: Id, hosts: seq<Id>): Option<Id> {
    if hosts == [] then None
    else if Connected(r, ns, hosts[0]) then Some(hosts[0])
    else FirstConnected(r, ns, hosts[1..])
  }

  function First(r: Routes, ns: Id, cap: string): Option<Id> {
    FirstConnected(r, ns, Holders(r, ns, cap))
  }

  /** Every listed host is connected, and listed once. */
  ghost predicate Indexed(r: Routes) {
    && (forall ns, cap, host :: host in Holders(r, ns, cap) ==> Connected(r, ns, host))
    && (forall ns, cap :: NoDup(Holders(r, ns, cap)))
  }

  lemma RegisterAt(r: Routes, host: Id, ns: Id, socket: Id, caps: seq<string>, n: Id, h: Id, c: string)
    ensures var r' := Register(r, host, ns, socket, caps);
      && (Connected(r', n, h) <==> (n == ns && h == host) || Connected(r, n, h))
      && Holders(r', n, c) == if n == ns && c in caps then Adjoin(Holders(r, n, c), host) else Holders(r, n, c)
  {
  }

  lemma RemoveAt(r: Routes, host: Id, ns: Id, n: Id, h: Id, c: string)
    ensures var r' := Remove(r, host, ns);
      && (Connected(r', n, h) <==> Connected(r, n, h) && !(n == ns && h == host))
      && Holders(r', n, c) == if n == ns then Without(Holders(r, n, c), host) else Holders(r, n, c)
  {
  }

  /** Registering keeps the index within the connections, for any arguments. */
  lemma RegisterKeepsIndex(r: Routes, host: Id, ns: Id, socket: Id, caps: seq<string>)
    requires Indexed(r)
    ensures Indexed(Register(r, host, ns, socket, caps))
  {
    var r' := Register(r, host, ns, socket, caps);
    forall n, c, h | h in Holders(r', n, c) ensures Connected(r', n, h) {
      RegisterAt(r, host, ns, socket, caps, n, h, c);
    }
    forall n, c ensures NoDup(Holders(r', n, c)) {
      RegisterAt(r, host, ns, socket, caps, n, host, c);
    }
  }

  /** So does removing a host. */
  lemma RemoveKeepsIndex(r: Routes, host: Id, ns: Id)
    requires Indexed(r)
    ensures Indexed(Remove(r, host, ns))
  {
    var r' := Remove(r, host, ns);
    forall n, c, h | h in Holders(r', n, c) ensures Connected(r', n, h) {
      RemoveAt(r, host, ns, n, h, c);
    }
    forall n, c ensures NoDup(Holders(r', n, c)) {
      RemoveAt(r, host, ns, n, host, c);
    }
  }

  // ---------- what the index says about the past ----------

  datatype Change = Came(host: Id, ns: Id, socket: Id, caps: seq<string>) | Left(host: Id, ns: Id)

  function After(h: seq<Change>): Routes {
    if h == [] then NO_ROUTES
    else
      match h[|h| - 1]
      case Came(host, ns, socket, caps) => Register(After(h[..|h| - 1]), host, ns, socket, caps)
      case Left(host, ns) => Remove(After(h[..|h| - 1]), host, ns)
  }

  predicate Lists(c: Change, host: Id, ns: Id, cap: string) {
    c.Came? && c.host == host && c.ns == ns && cap in c.caps
  }

  /** The connection at position i is the one since which the host has held the capability: it lists
      it, the host has not left since, and every earlier one that listed it was ended by a leave. */
  ghost predicate HeldSince(h: seq<Change>, host: Id, ns: Id, cap: string, i: nat) {
    && i < |h| && Lists(h[i], host, ns, cap)
    && (forall j :: i <= j < |h| ==> h[j] != Left(host, ns))
    && (forall j :: 0 <= j < i && Lists(h[j], host, ns, cap) ==> exists k :: j < k < i && h[k] == Left(host, ns))
  }

  /** Some connection of the host has not been ended by a leave. */
  ghost predicate Present(h: seq<Change>, host: Id, ns: Id) {
    exists i :: 0 <= i < |h| && h[i].Came? && h[i].host == host && h[i].ns == ns
                && forall j :: i <= j < |h| ==> h[j] != Left(host, ns)
  }

  /** The position HeldSince speaks of, computed. */
  function Since(h: seq<Change>, host: Id, ns: Id, cap: string): Option<nat> {
    if h == [] then None
    else
      var last, past := h[|h| - 1], Since(h[..|h| - 1], host, ns, cap);
      if last == Left(host, ns) then None
      else if Lists(last, host, ns, cap) && past.None? then Some(|h| - 1)
      else past
  }

  lemma SinceSnoc(g: seq<Change>, c: Change, host: Id, ns: Id, cap: string)
    ensures Since(g + [c], host, ns, cap) ==
      if c == Left(host, ns) then None
      else if Lists(c, host, ns, cap) && Since(g, host, ns, cap).None? then Some(|g|)
      else Since(g, host, ns, cap)
  {
    assert (g + [c])[..|g|] == g;
  }

  lemma {:induction false} SinceIsHeldSince(h: seq<Change>, host: Id, ns: Id, cap: string, i: nat)
    ensures Since(h, host, ns, cap) == Some(i) <==> HeldSince(h, host, ns, cap, i)
    ensures Since(h, host, ns, cap) == None <==>
      forall j :: 0 <= j < |h| && Lists(h[j], host, ns, cap) ==> exists k :: j < k < |h| && h[k] == Left(host, ns)
    decreases |h|
  {
    if h != [] {
      var g := h[..|h| - 1];
      SinceIsHeldSince(g, host, ns, cap, i);
      forall j | 0 <= j < |g| ensures g[j] == h[j] {}
      if Since(g, host, ns, cap).Some? {
        SinceIsHeldSince(g, host, ns, cap, Since(g, host, ns, cap).value);
      }
    }
  }

  /** Since as a rank: -1 for a host that does not hold the capability. */
  function Rank(h: seq<Change>, ns: Id, cap: string, host: Id): int {
    var s := Since(h, host, ns, cap);
    if s.Some? then s.value else -1
  }

  ghost predicate Ranked(hs: seq<Id>, h: seq<Change>, ns: Id, cap: string) {
    && (forall x :: x in hs <==> 0 <= Rank(h, ns, cap, x))
    && (forall x :: Rank(h, ns, cap, x) < |h|)
    && (forall a, b :: 0 <= a < b < |hs| ==> Rank(h, ns, cap, hs[a]) < Rank(h, ns, cap, hs[b]))
  }

  /** Two that are left without x stand in the same order as before. */
  lemma {:induction false} WithoutKeepsOrder(hs: seq<Id>, x: Id, a: nat, b: nat) returns (i: nat, j: nat)
    requires a < b < |Without(hs, x)|
    ensures i < j < |hs| && hs[i] == Without(hs, x)[a] && hs[j] == Without(hs, x)[b]
  {
    var tail := hs[1..];
    var rest := Without(tail, x);
    if hs[0] == x {
      i, j := WithoutKeepsOrder(tail, x, a, b);
      i, j := i + 1, j + 1;
    } else if a == 0 {
      assert rest[b - 1] in tail;
      j :| 0 <= j < |tail| && tail[j] == rest[b - 1];
      i, j := 0, j + 1;
    } else {
      i, j := WithoutKeepsOrder(tail, x, a - 1, b - 1);
      i, j := i + 1, j + 1;
    }
  }

  lemma RankSnoc(g: seq<Change>, c: Change, ns: Id, cap: string, y: Id)
    ensures Rank(g + [c], ns, cap, y) ==
      if c == Left(y, ns) then -1
      else if Lists(c, y, ns, cap) && Rank(g, ns, cap, y) < 0 then |g|
      else Rank(g, ns, cap, y)
  {
    SinceSnoc(g, c, y, ns, cap);
  }

  lemma LeaveKeepsRanks(hs: seq<Id>, g: seq<Change>, ns: Id, cap: string, x: Id)
    requires Ranked(hs, g, ns, cap)
    ensures Ranked(Without(hs, x), g + [Left(x, ns)], ns, cap)
  {
    var h, r := g + [Left(x, ns)], Without(hs, x);
    forall y ensures Rank(h, ns, cap, y) == if y == x then -1 else Rank(g, ns, cap, y) { RankSnoc(g, Left(x, ns), ns, cap, y); }
    forall a, b | 0 <= a < b < |r| ensures Rank(h, ns, cap, r[a]) < Rank(h, ns, cap, r[b]) {
      var i, j := WithoutKeepsOrder(hs, x, a, b);
      assert r[a] in r && r[b] in r;
      assert Rank(g, ns, cap, hs[i]) < Rank(g, ns, cap, hs[j]);
    }
  }

  lemma ChangeKeepsRanks(hs: seq<Id>, g: seq<Change>, ns: Id, cap: string, c: Change)
    requires Ranked(hs, g, ns, cap) && !(c.Left? && c.ns == ns)
    ensures var hs' := if c.Came? && c.ns == ns && cap in c.caps then Adjoin(hs, c.host) else hs;
      Ranked(hs', g + [c], ns, cap)
  {
    var h := g + [c];
    forall y
      ensures Rank(h, ns, cap, y) == if Lists(c, y, ns, cap) && Rank(g, ns, cap, y) < 0 then |g| else Rank(g, ns, cap, y)
    {
      RankSnoc(g, c, ns, cap, y);
    }
  }

  /** The list of holders is the hosts with a Since, in the order of that Since. */
  lemma {:induction false} HoldersFollowSince(h: seq<Change>, ns: Id, cap: string)
    ensures Ranked(Holders(After(h), ns, cap), h, ns, cap)
    decreases |h|
  {
    if h != [] {
      var g, last := h[..|h| - 1], h[|h| - 1];
      assert h == g + [last];
      HoldersFollowSince(g, ns, cap);
      var hs := Holders(After(g), ns, cap);
      if last.Left? && last.ns == ns {
        RemoveAt(After(g), last.host, ns, ns, last.host, cap);
        LeaveKeepsRanks(hs, g, ns, cap, last.host);
      } else {
        ChangeKeepsRanks(hs, g, ns, cap, last);
        match last
        case Came(host, n, socket, caps) => RegisterAt(After(g), host, n, socket, caps, ns, host, cap);
        case Left(host, n) => RemoveAt(After(g), host, n, ns, host, cap);
      }
    }
  }

  lemma PresentSnoc(g: seq<Change>, c: Change, host: Id, ns: Id)
    ensures Present(g + [c], host, ns) <==>
      (c.Came? && c.host == host && c.ns == ns) || (Present(g, host, ns) && c != Left(host, ns))
  {
    var h := g + [c];
    assert h[|g|] == c && forall j :: 0 <= j < |g| ==> h[j] == g[j];
    if Present(g, host, ns) && c != Left(host, ns) {
      var i :| 0 <= i < |g| && g[i].Came? && g[i].host == host && g[i].ns == ns
               && forall j :: i <= j < |g| ==> g[j] != Left(host, ns);
      assert h[i] == g[i];
    }
  }

  lemma ConnectedSnoc(g: seq<Change>, c: Change, ns: Id, host: Id)
    ensures Connected(After(g + [c]), ns, host) <==>
      (c.Came? && c.host == host && c.ns == ns) || (Connected(After(g), ns, host) && c != Left(host, ns))
  {
    assert (g + [c])[..|g|] == g;
    match c
    case Came(x, n, socket, caps) => RegisterAt(After(g), x, n, socket, caps, ns, host, "");
    case Left(x, n) => RemoveAt(After(g), x, n, ns, host, "");
  }

  lemma {:induction false} ConnectedIsPresent(h: seq<Change>, ns: Id, host: Id)
    ensures Connected(After(h), ns, host) <==> Present(h, host, ns)
    decreases |h|
  {
    if h != [] {
      var g, last := h[..|h| - 1], h[|h| - 1];
      assert h == g + [last];
      ConnectedIsPresent(g, ns, host);
      ConnectedSnoc(g, last, ns, host);
      PresentSnoc(g, last, host, ns);
    }
  }

  /** Routing by capability, over every history of connections and leaves: a host is chosen exactly
      when it has held the capability longest; it is then connected, so the check for that in the
      loop never skips a host; and nothing is chosen exactly when nobody holds the capability. */
  lemma FirstHeldLongest(h: seq<Change>, ns: Id, cap: string)
    ensures First(After(h), ns, cap).None? <==> forall host, i: nat :: !HeldSince(h, host, ns, cap, i)
    ensures forall host :: First(After(h), ns, cap) == Some(host) <==>
      exists i: nat :: HeldSince(h, host, ns, cap, i)
        && forall other, j: nat :: HeldSince(h, other, ns, cap, j) ==> i <= j
    ensures First(After(h), ns, cap).Some? ==> Present(h, First(After(h), ns, cap).value, ns)
  {
    HoldersFollowSince(h, ns, cap);
    var hs := Holders(After(h), ns, cap);
    forall host, i: nat ensures Rank(h, ns, cap, host) == i <==> HeldSince(h, host, ns, cap, i) {
      SinceIsHeldSince(h, host, ns, cap, i);
    }
    if hs == [] {
      forall host, i: nat ensures !HeldSince(h, host, ns, cap, i) {
        assert host !in hs && Rank(h, ns, cap, host) < 0;
      }
    } else {
      var first := hs[0];
      assert first in hs;
      ConnectedIsPresent(h, ns, first);
      var i: nat := Rank(h, ns, cap, first);
      assert HeldSince(h, first, ns, cap, i);
      SinceIsHeldSince(h, first, ns, cap, i);
      assert Present(h, first, ns);
      assert First(After(h), ns, cap) == Some(first);
      forall other, j: nat | HeldSince(h, other, ns, cap, j) ensures i <= j {
        assert other in hs;
        var b :| 0 <= b < |hs| && hs[b] == other;
      }
    }
  }
}
