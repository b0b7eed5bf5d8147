/** The top operations of a health report: measurements merged by name, ranked, and cut to a limit
    that keeps room for one domain operation. */
module TopOperations {
  import opened Collections

  datatype Operation = Operation(
    operation: string,
    count: Option<nat>,
    avgDurationMs: Option<real>,
    maxDurationMs: Option<real>,
    errorCount: Option<nat>)
  {
    function Count(): nat { if count.Some? then count.value else 0 }
    function Avg(): real { if avgDurationMs.Some? then avgDurationMs.value else 0.0 }
    function Max(): real { if maxDurationMs.Some? then maxDurationMs.value else 0.0 }
    function Errors(): nat { if errorCount.Some? then errorCount.value else 0 }
    function Time(): real { Avg() * Count() as real }
    predicate IsHttp() { "http." <= operation }
  }

  // ---------- merging ----------

  function Combine(existing: Operation, item: Operation): Operation {
    var count := existing.Count() + item.Count();
    Operation(
      item.operation,
      Some(count),
      Some(if count > 0 then (existing.Time() + item.Time()) / count as real else 0.0),
      Some(MaxReal(existing.Max(), item.Max())),
      Some(existing.Errors() + item.Errors()))
  }

  /** The merged operation of a name: its first measurement as given, the later ones combined in. */
  function MergedOf(items: seq<Operation>, name: string): (merged: Option<Operation>)
    ensures merged.Some? ==> merged.value.operation == name
    ensures merged.Some? <==> name in FirstNames(items)
  {
    if items == [] then None
    else
      var existing, item := MergedOf(items[..|items| - 1], name), items[|items| - 1];
      if item.operation != name then existing
      else if existing.None? then Some(item)
      else Some(Combine(existing.value, item))
  }

  /** The names in the order they first occur. */
  function FirstNames(items: seq<Operation>): (names: seq<string>)
    ensures NoDup(names)
  {
    if items == [] then [] else Adjoin(FirstNames(items[..|items| - 1]), items[|items| - 1].operation)
  }

  /** One merged operation for each name, in the order of first occurrence. */
  ghost predicate MergeOf(items: seq<Operation>, m: seq<Operation>) {
    && |m| == |FirstNames(items)|
    && forall i :: 0 <= i < |m| ==> MergedOf(items, FirstNames(items)[i]) == Some(m[i])
  }

  /** The number, errors, time and longest duration of all measurements of one operation. */
  datatype Total = Total(count: nat, errors: nat, time: real, longest: Option<real>)

  function TotalOf(items: seq<Operation>, name: string): Total {
    if items == [] then Total(0, 0, 0.0, None)
    else
      var t, x := TotalOf(items[..|items| - 1], name), items[|items| - 1];
      if x.operation != name then t
      else
        Total(t.count + x.Count(), t.errors + x.Errors(), t.time + x.Time(),
              Some(if t.longest.Some? then MaxReal(t.longest.value, x.Max()) else x.Max()))
  }

  /** The longer of two longest durations, where there are any. */
  ghost predicate LongerOf(a: Option<real>, b: Option<real>, c: Option<real>) {
    && (c.Some? <==> a.Some? || b.Some?)
    && (c.Some? ==> c == a || c == b)
    && (a.Some? ==> c.value >= a.value) && (b.Some? ==> c.value >= b.value)
  }

  lemma {:induction false} TotalOfAbsent(items: seq<Operation>, name: string)
    requires forall i :: 0 <= i < |items| ==> items[i].operation != name
    ensures TotalOf(items, name) == Total(0, 0, 0.0, None)
  {
    if items != [] { TotalOfAbsent(items[..|items| - 1], name); }
  }

  /** A total is told by its parts: each measurement counts as what it says, a figure it lacks as nought,
      and two lists together as their sums and the longer of their longest. */
  lemma TotalOfSingle(x: Operation)
    ensures var (t, count) := (TotalOf([x], x.operation), if x.count.Some? then x.count.value else 0);
      && t.count == count
      && t.errors == (if x.errorCount.Some? then x.errorCount.value else 0)
      && t.time == (if x.avgDurationMs.Some? then x.avgDurationMs.value * count as real else 0.0)
      && t.longest == Some(if x.maxDurationMs.Some? then x.maxDurationMs.value else 0.0)
  {
    assert [x][..0] == [];
  }

  lemma {:induction false} TotalOfJoin(a: seq<Operation>, b: seq<Operation>, name: string)
    ensures var (s, t, u) := (TotalOf(a, name), TotalOf(b, name), TotalOf(a + b, name));
      && u.count == s.count + t.count && u.errors == s.errors + t.errors && u.time == s.time + t.time
      && LongerOf(s.longest, t.longest, u.longest)
    decreases |b|
  {
    if b == [] {
      assert a + b == a;
    } else {
      assert (a + b)[..|a + b| - 1] == a + b[..|b| - 1];
      TotalOfJoin(a, b[..|b| - 1], name);
    }
  }

  ghost predicate Carries(x: Operation, t: Total) {
    x.Count() == t.count && x.Errors() == t.errors && x.Time() == t.time && t.longest == Some(x.Max())
  }

  lemma CombineCarries(x: Operation, item: Operation, t: Total)
    requires Carries(x, t)
    ensures Carries(Combine(x, item),
      Total(t.count + item.Count(), t.errors + item.Errors(), t.time + item.Time(), Some(MaxReal(t.longest.value, item.Max()))))
  {
    var count := x.Count() + item.Count();
    if count > 0 {
      var time := x.Time() + item.Time();
      assert time / count as real * count as real == time;
    } else {
      assert x.Time() == 0.0 && item.Time() == 0.0;
    }
  }

  /** Merging conserves: no request, error or millisecond of an operation is lost or counted twice, and
      its longest duration is the longest measured. */
  lemma {:induction false} MergeConserves(items: seq<Operation>, name: string)
    ensures MergedOf(items, name).None? ==> TotalOf(items, name) == Total(0, 0, 0.0, None)
    ensures MergedOf(items, name).Some? ==> Carries(MergedOf(items, name).value, TotalOf(items, name))
  {
    if items != [] {
      var init, item := items[..|items| - 1], items[|items| - 1];
      MergeConserves(init, name);
      if item.operation == name && MergedOf(init, name).Some? {
        CombineCarries(MergedOf(init, name).value, item, TotalOf(init, name));
      }
    }
  }

  // ---------- ranking ----------

  predicate Outranks(a: Operation, b: Operation) {
    a.Count() > b.Count() || (a.Count() == b.Count() && a.Max() > b.Max())
  }

  predicate Tied(a: Operation, b: Operation) {
    a.Count() == b.Count() && a.Max() == b.Max()
  }

  /** The operations tied with one, in their order. */
  function TiedWith(m: seq<Operation>, x: Operation): seq<Operation> {
    if m == [] then [] else (if Tied(m[0], x) then [m[0]] else []) + TiedWith(m[1..], x)
  }

  /** More calls, or as many and at least as long a longest one. */
  ghost predicate AtLeast(a: Operation, count: nat, longest: real) {
    a.Count() > count || (a.Count() == count && a.Max() >= longest)
  }

  /** The most used first, and of those used as much the one with the longest call. */
  ghost predicate Sorted(r: seq<Operation>) {
    forall i, j :: 0 <= i < j < |r| ==> AtLeast(r[i], r[j].Count(), r[j].Max())
  }

  /** A stable sort: best first, and those that tie as many and in the order as before. */
  ghost predicate Ranking(m: seq<Operation>, r: seq<Operation>) {
    Sorted(r) && forall x :: TiedWith(r, x) == TiedWith(m, x)
  }

  function Insert(x: Operation, r: seq<Operation>): seq<Operation> {
    if r == [] || !Outranks(r[0], x) then [x] + r else [r[0]] + Insert(x, r[1..])
  }

  function Ranked(m: seq<Operation>): seq<Operation> {
    if m == [] then [] else Insert(m[0], Ranked(m[1..]))
  }

  lemma {:induction false} TiedWithTells(m: seq<Operation>, x: Operation)
    ensures forall y :: y in TiedWith(m, x) <==> y in m && Tied(y, x)
  {
    if m != [] { TiedWithTells(m[1..], x); }
  }

  lemma {:induction false} InsertTied(x: Operation, r: seq<Operation>, y: Operation)
    ensures TiedWith(Insert(x, r), y) == TiedWith([x] + r, y)
  {
    assert ([x] + r)[1..] == r;
    if r != [] && Outranks(r[0], x) {
      InsertTied(x, r[1..], y);
      assert ([x] + r[1..])[1..] == r[1..];
      assert ([r[0]] + Insert(x, r[1..]))[1..] == Insert(x, r[1..]);
    }
  }

  lemma {:induction false} InsertHolds(x: Operation, r: seq<Operation>)
    ensures forall y :: y in Insert(x, r) <==> y == x || y in r
    ensures multiset(Insert(x, r)) == multiset{x} + multiset(r)
  {
    if r != [] && Outranks(r[0], x) {
      InsertHolds(x, r[1..]);
      assert r == [r[0]] + r[1..];
    }
  }

  lemma SortedCons(x: Operation, r: seq<Operation>)
    requires Sorted(r) && forall j :: 0 <= j < |r| ==> AtLeast(x, r[j].Count(), r[j].Max())
    ensures Sorted([x] + r)
  {
  }

  lemma {:induction false} InsertSorted(x: Operation, r: seq<Operation>)
    requires Sorted(r)
    ensures Sorted(Insert(x, r))
  {
    if r == [] {
    } else if Outranks(r[0], x) {
      var rest := Insert(x, r[1..]);
      InsertSorted(x, r[1..]);
      InsertHolds(x, r[1..]);
      forall j | 0 <= j < |rest| ensures AtLeast(r[0], rest[j].Count(), rest[j].Max()) { assert rest[j] in rest; }
      SortedCons(r[0], rest);
    } else {
      forall j | 0 <= j < |r| ensures AtLeast(x, r[j].Count(), r[j].Max()) {}
      SortedCons(x, r);
    }
  }

  lemma {:induction false} RankedHoldsAll(m: seq<Operation>)
    ensures multiset(Ranked(m)) == multiset(m) && |Ranked(m)| == |m|
  {
    if m != [] {
      RankedHoldsAll(m[1..]);
      InsertHolds(m[0], Ranked(m[1..]));
      assert m == [m[0]] + m[1..];
      assert |multiset(Ranked(m))| == |Ranked(m)| && |multiset(m)| == |m|;
    }
  }

  lemma {:induction false} RankedIsStable(m: seq<Operation>, x: Operation)
    ensures TiedWith(Ranked(m), x) == TiedWith(m, x)
  {
    if m != [] {
      var rest := Ranked(m[1..]);
      RankedIsStable(m[1..], x);
      InsertTied(m[0], rest, x);
      assert ([m[0]] + rest)[1..] == rest;
    }
  }

  lemma {:induction false} RankedIsSorted(m: seq<Operation>)
    ensures Sorted(Ranked(m))
  {
    if m != [] {
      RankedIsSorted(m[1..]);
      InsertSorted(m[0], Ranked(m[1..]));
    }
  }

  lemma RankedIsRanking(m: seq<Operation>)
    ensures Ranking(m, Ranked(m)) && multiset(Ranked(m)) == multiset(m) && |Ranked(m)| == |m|
  {
    RankedHoldsAll(m);
    RankedIsSorted(m);
    forall x ensures TiedWith(Ranked(m), x) == TiedWith(m, x) { RankedIsStable(m, x); }
  }

  lemma HeadBest(r: seq<Operation>, x: Operation)
    requires Sorted(r) && x in r
    ensures AtLeast(r[0], x.Count(), x.Max())
  {
  }

  lemma SameHead(r: seq<Operation>, s: seq<Operation>)
    requires Sorted(r) && Sorted(s) && r != [] && s != []
    requires forall x :: TiedWith(r, x) == TiedWith(s, x)
    ensures r[0] == s[0]
  {
    TiedWithTells(r, s[0]);
    TiedWithTells(s, s[0]);
    TiedWithTells(s, r[0]);
    assert TiedWith(r, r[0])[0] == r[0];
    HeadBest(r, TiedWith(s, s[0])[0]);
    HeadBest(s, TiedWith(r, r[0])[0]);
    assert Tied(s[0], r[0]);
  }

  lemma TiedWithItself(m: seq<Operation>)
    ensures m != [] ==> TiedWith(m, m[0]) != []
  {
  }

  lemma {:induction false} SameTiesSameRanking(r: seq<Operation>, s: seq<Operation>)
    requires Sorted(r) && Sorted(s) && forall x :: TiedWith(r, x) == TiedWith(s, x)
    ensures r == s
  {
    TiedWithItself(r);
    TiedWithItself(s);
    if r != [] {
      SameHead(r, s);
      forall x ensures TiedWith(r[1..], x) == TiedWith(s[1..], x) {
        var head := if Tied(r[0], x) then [r[0]] else [];
        assert head + TiedWith(r[1..], x) == TiedWith(r, x) == TiedWith(s, x) == head + TiedWith(s[1..], x);
        assert (head + TiedWith(r[1..], x))[|head|..] == (head + TiedWith(s[1..], x))[|head|..];
      }
      SameTiesSameRanking(r[1..], s[1..]);
    }
  }

  /** There is one stable ranking: whatever sorts stably gives it. */
  lemma RankingIsUnique(m: seq<Operation>, r: seq<Operation>)
    requires Ranking(m, r)
    ensures r == Ranked(m)
  {
    RankedIsRanking(m);
    SameTiesSameRanking(r, Ranked(m));
  }

  // ---------- selection ----------

  ghost predicate HasDomain(m: seq<Operation>) {
    exists i :: 0 <= i < |m| && !("http." <= m[i].operation)
  }

  /** The best-ranked domain operation. */
  ghost predicate BestDomain(ranked: seq<Operation>, i: nat) {
    i < |ranked| && !("http." <= ranked[i].operation) && forall j :: 0 <= j < i ==> "http." <= ranked[j].operation
  }

  /** What is reported of a ranking: its top, unless that is all `http.` although domain operations
      were given and one is ranked; then the last place is the best-ranked domain operation's. */
  ghost predicate TopOf(ranked: seq<Operation>, domainGiven: bool, limit: nat, top: seq<Operation>) {
    var best := ranked[..if limit < |ranked| then limit else |ranked|];
    if domainGiven && !HasDomain(best) && HasDomain(ranked) then
      exists i: nat :: BestDomain(ranked, i) && top == (if limit == 0 then [] else ranked[..limit - 1]) + [ranked[i]]
    else top == best
  }

  /** A report on some measurements. */
  ghost predicate ReportOf(items: seq<Operation>, domainGiven: bool, limit: nat, top: seq<Operation>) {
    exists m :: MergeOf(items, m) && TopOf(Ranked(m), domainGiven, limit, top)
  }

  method FindDomain(ranked: seq<Operation>) returns (found: Option<nat>)
    ensures match found case Some(i) => BestDomain(ranked, i) case None => !HasDomain(ranked)
  {
    for i := 0 to |ranked|
      invariant forall j :: 0 <= j < i ==> ranked[j].IsHttp()
    {
      if !ranked[i].IsHttp() { return Some(i); }
    }
    return None;
  }

  /** What the map of merged operations holds after some items. */
  ghost predicate EntriesOf(entries: map<string, Operation>, items: seq<Operation>) {
    && (forall name :: name in entries <==> name in FirstNames(items))
    && (forall name :: name in entries ==> MergedOf(items, name) == Some(entries[name]))
  }

  lemma EntriesOneMore(entries: map<string, Operation>, items: seq<Operation>, i: nat)
    requires i < |items| && EntriesOf(entries, items[..i])
    ensures var item := items[i];
      && EntriesOf(entries[item.operation := if item.operation in entries then Combine(entries[item.operation], item) else item],
                   items[..i + 1])
      && FirstNames(items[..i + 1]) == Adjoin(FirstNames(items[..i]), item.operation)
  {
    assert items[..i + 1][..i] == items[..i];
  }

  /** The merged operations, in the order a Map keeps them. */
  method Merge(items: seq<Operation>) returns (merged: seq<Operation>)
    ensures MergeOf(items, merged)
  {
    var entries: map<string, Operation> := map[];
    var order: seq<string> := [];
    for i := 0 to |items|
      invariant order == FirstNames(items[..i]) && EntriesOf(entries, items[..i])
    {
      var item := items[i];
      EntriesOneMore(entries, items, i);
      if item.operation !in entries {
        entries := entries[item.operation := item];
        order := order + [item.operation];
      } else {
        entries := entries[item.operation := Combine(entries[item.operation], item)];
      }
    }
    assert items[..|items|] == items;
    merged := Values(entries, order, items);
  }

  /** The values of the map, in the order of its keys. */
  method Values(entries: map<string, Operation>, order: seq<string>, ghost items: seq<Operation>) returns (merged: seq<Operation>)
    requires order == FirstNames(items) && EntriesOf(entries, items)
    ensures MergeOf(items, merged)
  {
    merged := [];
    for i := 0 to |order|
      invariant |merged| == i
      invariant forall j :: 0 <= j < i ==> MergedOf(items, order[j]) == Some(merged[j])
    {
      merged := merged + [entries[order[i]]];
    }
  }

  /** The report cut from a ranking. */
  method Cut(ranked: seq<Operation>, domainGiven: bool, limit: nat) returns (top: seq<Operation>)
    ensures TopOf(ranked, domainGiven, limit, top)
  {
    var sliced := ranked[..if limit < |ranked| then limit else |ranked|];
    var inTop := FindDomain(sliced);
    if !domainGiven || inTop.Some? { return sliced; }
    var firstDomain := FindDomain(ranked);
    if firstDomain.None? { return sliced; }
    DomainBeyondTop(ranked, limit);
    top := (if limit == 0 then [] else sliced[..limit - 1]) + [ranked[firstDomain.value]];
  }

  method MergeTopOperations(http: seq<Operation>, domain: seq<Operation>, limit: nat) returns (top: seq<Operation>)
    ensures ReportOf(http + domain, domain != [], limit, top)
  {
    var values := Merge(http + domain);
    top := Cut(Ranked(values), domain != [], limit);
  }

  // ---------- what a report guarantees ----------

  ghost predicate DistinctNames(m: seq<Operation>) {
    forall i, j :: 0 <= i < j < |m| ==> m[i].operation != m[j].operation
  }

  lemma MergedNamesDistinct(items: seq<Operation>, m: seq<Operation>)
    requires MergeOf(items, m)
    ensures DistinctNames(m)
  {
    forall i, j | 0 <= i < j < |m| ensures m[i].operation != m[j].operation {
      assert FirstNames(items)[i] != FirstNames(items)[j];
      assert MergedOf(items, FirstNames(items)[i]) == Some(m[i]);
      assert MergedOf(items, FirstNames(items)[j]) == Some(m[j]);
    }
  }

  lemma {:induction false} InsertDistinct(x: Operation, r: seq<Operation>)
    requires DistinctNames([x] + r)
    ensures DistinctNames(Insert(x, r))
  {
    if r != [] && Outranks(r[0], x) {
      assert r[0] == ([x] + r)[1] && ([x] + r)[1..] == r;
      forall i, j | 0 <= i < j < |[x] + r[1..]| ensures ([x] + r[1..])[i].operation != ([x] + r[1..])[j].operation {
        assert ([x] + r[1..])[j] == ([x] + r)[j + 1];
        assert ([x] + r[1..])[i] == ([x] + r)[if i == 0 then 0 else i + 1];
      }
      InsertDistinct(x, r[1..]);
      InsertHolds(x, r[1..]);
      var rest := Insert(x, r[1..]);
      forall j | 0 <= j < |rest| ensures rest[j].operation != r[0].operation {
        assert rest[j] in rest;
        if rest[j] != x { var k :| 0 <= k < |r[1..]| && r[1..][k] == rest[j]; assert ([x] + r)[k + 2] == rest[j]; }
      }
    }
  }

  lemma {:induction false} RankedDistinct(m: seq<Operation>)
    requires DistinctNames(m)
    ensures DistinctNames(Ranked(m))
  {
    if m != [] {
      RankedDistinct(m[1..]);
      RankedHolds(m[1..]);
      var rest := Ranked(m[1..]);
      forall j | 0 <= j < |rest| ensures rest[j].operation != m[0].operation {
        assert rest[j] in rest;
        var k :| 0 <= k < |m[1..]| && m[1..][k] == rest[j];
        assert m[k + 1] == rest[j];
      }
      InsertDistinct(m[0], rest);
    }
  }

  lemma RankedHolds(m: seq<Operation>)
    ensures forall x :: x in Ranked(m) <==> x in m
  {
    RankedIsRanking(m);
    assert forall x :: x in m <==> x in multiset(m);
    assert forall x :: x in Ranked(m) <==> x in multiset(Ranked(m));
  }

  lemma TopIsDistinct(ranked: seq<Operation>, domainGiven: bool, limit: nat, top: seq<Operation>)
    requires DistinctNames(ranked) && TopOf(ranked, domainGiven, limit, top)
    ensures DistinctNames(top)
  {
    DomainBeyondTop(ranked, limit);
  }

  lemma TopIsWithin(ranked: seq<Operation>, domainGiven: bool, limit: nat, top: seq<Operation>, x: Operation)
    requires TopOf(ranked, domainGiven, limit, top) && x in top
    ensures x in ranked
  {
  }

  /** Every reported operation is named once and carries exactly the total of its measurements. */
  lemma ReportCarriesTotals(items: seq<Operation>, domainGiven: bool, limit: nat, top: seq<Operation>)
    requires ReportOf(items, domainGiven, limit, top)
    ensures DistinctNames(top)
    ensures forall x :: x in top ==> Carries(x, TotalOf(items, x.operation))
  {
    var m :| MergeOf(items, m) && TopOf(Ranked(m), domainGiven, limit, top);
    MergedNamesDistinct(items, m);
    RankedDistinct(m);
    TopIsDistinct(Ranked(m), domainGiven, limit, top);
    forall x | x in top ensures Carries(x, TotalOf(items, x.operation)) {
      TopIsWithin(Ranked(m), domainGiven, limit, top, x);
      RankedHolds(m);
      MergedCarries(items, m, x);
    }
  }

  lemma MergedCarries(items: seq<Operation>, m: seq<Operation>, x: Operation)
    requires MergeOf(items, m) && x in m
    ensures Carries(x, TotalOf(items, x.operation))
  {
    var i :| 0 <= i < |m| && m[i] == x;
    assert MergedOf(items, FirstNames(items)[i]) == Some(x);
    MergeConserves(items, x.operation);
  }

  lemma DomainBeyondTop(ranked: seq<Operation>, limit: nat)
    ensures var best := ranked[..if limit < |ranked| then limit else |ranked|];
      !HasDomain(best) ==> forall i: nat :: BestDomain(ranked, i) ==> limit <= i
  {
    var best := ranked[..if limit < |ranked| then limit else |ranked|];
    if !HasDomain(best) {
      assert forall j :: 0 <= j < |best| ==> best[j] == ranked[j] && "http." <= best[j].operation;
    }
  }

  lemma {:induction false} NamesOf(items: seq<Operation>)
    ensures forall name :: name in FirstNames(items) <==> exists i :: 0 <= i < |items| && items[i].operation == name
  {
    if items != [] {
      var init := items[..|items| - 1];
      NamesOf(init);
      forall i | 0 <= i < |items| ensures items[i].operation in FirstNames(items) {
        if i < |init| { assert init[i].operation in FirstNames(init); }
      }
      forall name | name in FirstNames(items) ensures exists i :: 0 <= i < |items| && items[i].operation == name {
        if name in FirstNames(init) {
          var i :| 0 <= i < |init| && init[i].operation == name;
          assert items[i].operation == name;
        }
      }
    }
  }

  lemma {:induction false} NamesOfDistinct(items: seq<Operation>)
    requires DistinctNames(items)
    ensures |FirstNames(items)| == |items|
  {
    if items != [] {
      NamesOfDistinct(items[..|items| - 1]);
      NamesOf(items[..|items| - 1]);
    }
  }

  /** The name that comes first was measured first. */
  lemma {:induction false} NamesInOrder(items: seq<Operation>, i: nat, j: nat, b: nat)
    requires i < j < |FirstNames(items)| && b < |items| && items[b].operation == FirstNames(items)[j]
    ensures exists a :: 0 <= a < b && items[a].operation == FirstNames(items)[i]
    decreases |items|
  {
    var init := items[..|items| - 1];
    if b < |init| {
      assert init[b].operation in FirstNames(init) by { NamesOf(init); }
      NamesInOrder(init, i, j, b);
      var a :| 0 <= a < b && init[a].operation == FirstNames(init)[i];
      assert items[a] == init[a];
    } else {
      NamesOf(init);
      assert FirstNames(items)[i] == FirstNames(init)[i] && FirstNames(init)[i] in FirstNames(init);
      var a :| 0 <= a < |init| && init[a].operation == FirstNames(init)[i];
      assert items[a] == init[a];
    }
  }

  /** A domain operation is ranked exactly when one was measured. */
  lemma DomainSurvives(items: seq<Operation>, m: seq<Operation>)
    requires MergeOf(items, m)
    ensures HasDomain(items) <==> HasDomain(Ranked(m))
  {
    NamesOf(items);
    RankedHolds(m);
    if HasDomain(items) {
      var i :| 0 <= i < |items| && !("http." <= items[i].operation);
      var name := items[i].operation;
      assert name in FirstNames(items);
      var k :| 0 <= k < |FirstNames(items)| && FirstNames(items)[k] == name;
      assert MergedOf(items, FirstNames(items)[k]) == Some(m[k]);
      assert !("http." <= m[k].operation) && m[k] in Ranked(m);
    }
    if HasDomain(Ranked(m)) {
      var i :| 0 <= i < |Ranked(m)| && !("http." <= Ranked(m)[i].operation);
      assert Ranked(m)[i] in m;
      var k :| 0 <= k < |m| && m[k] == Ranked(m)[i];
      assert MergedOf(items, FirstNames(items)[k]) == Some(m[k]);
      var j :| 0 <= j < |items| && items[j].operation == FirstNames(items)[k];
      assert !("http." <= items[j].operation);
    }
  }

  /** The size is the limit or the number of operations measured; only a limit of nought gives way to a
      domain operation. */
  lemma ReportSize(items: seq<Operation>, domainGiven: bool, limit: nat, top: seq<Operation>)
    requires ReportOf(items, domainGiven, limit, top)
    ensures var n := |FirstNames(items)|;
      |top| == (if limit < n then limit else n) <==> !(limit == 0 && domainGiven && HasDomain(items))
  {
    var m :| MergeOf(items, m) && TopOf(Ranked(m), domainGiven, limit, top);
    RankedIsRanking(m);
    DomainSurvives(items, m);
    DomainBeyondTop(Ranked(m), limit);
  }

  /** So with any limit to speak of the size is the limit or the number of operations measured. */
  lemma ReportFillsTheLimit(items: seq<Operation>, domainGiven: bool, limit: nat, top: seq<Operation>)
    requires ReportOf(items, domainGiven, limit, top) && limit >= 1
    ensures |top| == if limit < |FirstNames(items)| then limit else |FirstNames(items)|
  {
    ReportSize(items, domainGiven, limit, top);
  }

  /** With a limit of nought, which no caller gives, a single domain operation is reported. */
  lemma ReportOfNought(x: Operation)
    requires !("http." <= x.operation)
    ensures ReportOf([x], true, 0, [x])
  {
    var items := [x];
    assert items[..0] == [] && items[1..] == [];
    assert MergeOf(items, items);
    assert Ranked([]) == [] && Insert(x, []) == items && Ranked(items) == Insert(items[0], Ranked(items[1..]));
    assert HasDomain(items) by { assert !("http." <= items[0].operation); }
    assert TopOf(items, true, 0, items) by { assert BestDomain(items, 0) && items == [] + [items[0]]; }
  }

  lemma TopIsSorted(ranked: seq<Operation>, domainGiven: bool, limit: nat, top: seq<Operation>)
    requires Sorted(ranked) && TopOf(ranked, domainGiven, limit, top)
    ensures Sorted(top)
    ensures domainGiven && HasDomain(ranked) && limit > 0 ==> HasDomain(top)
  {
    var best := ranked[..if limit < |ranked| then limit else |ranked|];
    DomainBeyondTop(ranked, limit);
    if domainGiven && !HasDomain(best) && HasDomain(ranked) {
      assert !("http." <= top[|top| - 1].operation);
    }
  }

  /** A report is in order of rank and has a domain operation whenever one was given and measured. */
  lemma ReportRanked(items: seq<Operation>, domainGiven: bool, limit: nat, top: seq<Operation>)
    requires ReportOf(items, domainGiven, limit, top)
    ensures Sorted(top)
    ensures domainGiven && HasDomain(items) && limit > 0 ==> HasDomain(top)
  {
    var m :| MergeOf(items, m) && TopOf(Ranked(m), domainGiven, limit, top);
    RankedIsRanking(m);
    TopIsSorted(Ranked(m), domainGiven, limit, top);
    DomainSurvives(items, m);
  }

  lemma TopDominates(ranked: seq<Operation>, domainGiven: bool, limit: nat, top: seq<Operation>, x: Operation, i: nat)
    requires Sorted(ranked) && TopOf(ranked, domainGiven, limit, top)
    requires x in ranked && x !in top && i < |top|
    ensures AtLeast(top[i], x.Count(), x.Max()) ||
      (i == |top| - 1 && !("http." <= top[i].operation) && "http." <= x.operation)
  {
    var best := ranked[..if limit < |ranked| then limit else |ranked|];
    if top == best {
      assert forall j :: 0 <= j < |top| ==> top[j] == ranked[j] && top[j] in top;
    } else {
      assert forall j :: 0 <= j < |top| - 1 ==> top[j] == ranked[j] && top[j] in top;
    }
  }

  /** What was measured and left out of a report was called less than anything in it, or as often without a
      longer call; but for the place kept for a domain operation, which an `http.` operation may have had
      to leave. */
  lemma ReportIsTheTop(items: seq<Operation>, domainGiven: bool, limit: nat, top: seq<Operation>, name: string, i: nat)
    requires ReportOf(items, domainGiven, limit, top) && i < |top|
    requires name in FirstNames(items) && forall x :: x in top ==> x.operation != name
    ensures TotalOf(items, name).longest.Some?
    ensures AtLeast(top[i], TotalOf(items, name).count, TotalOf(items, name).longest.value) ||
      (i == |top| - 1 && !("http." <= top[i].operation) && "http." <= name)
  {
    var m :| MergeOf(items, m) && TopOf(Ranked(m), domainGiven, limit, top);
    var k :| 0 <= k < |FirstNames(items)| && FirstNames(items)[k] == name;
    assert MergedOf(items, FirstNames(items)[k]) == Some(m[k]);
    MergeConserves(items, name);
    RankedIsRanking(m);
    RankedHolds(m);
    assert m[k] in m;
    TopDominates(Ranked(m), domainGiven, limit, top, m[k], i);
  }
}
