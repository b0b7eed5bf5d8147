/** GatewayObservabilityCollector: what its request hooks count, and the report built from it. */
module Collector {
  import opened Collections
  import opened RouteKeys
  import opened TopOperations

  datatype RouteStats = RouteStats(count: nat, totalDurationMs: real, maxDurationMs: real, errorCount: nat)

  /** What the hooks see: a request arrives, or a response has gone out. */
  datatype Event =
    | Request
    | Response(verb: string, route: Option<string>, durationMs: real, statusCode: int)

  datatype Counters = Counters(
    routes: map<string, RouteStats>,
    order: seq<string>,                // the order in which the routes were first seen
    requestsTotal: nat,
    errorsTotal: nat,
    activeOperations: nat)

  const NOTHING_SEEN := Counters(map[], [], 0, 0, 0)

  function Upper(s: string): string {
    if s == "" then ""
    else [if 'a' <= s[0] <= 'z' then 'A' + (s[0] - 'a') else s[0]] + Upper(s[1..])
  }

  function RouteKey(e: Event): string
    requires e.Response?
  {
    Upper(e.verb) + " " + NormalizeRoute(e.route)
  }

  /** Upper case, letter by letter. */
  lemma {:induction false} UpperExactly(s: string)
    ensures |Upper(s)| == |s|
    ensures forall i :: 0 <= i < |s| ==> Upper(s)[i] == if 'a' <= s[i] <= 'z' then s[i] - 'a' + 'A' else s[i]
  {
    if s != "" { UpperExactly(s[1..]); }
  }

  function ErrorOf(e: Event): nat
    requires e.Response?
  {
    if e.statusCode >= 400 then 1 else 0
  }

  // ---------- what a history of events adds up to ----------

  /** The responses of one route, counted over a history. */
  function StatsOf(events: seq<Event>, key: string): RouteStats {
    if events == [] then RouteStats(0, 0.0, 0.0, 0)
    else
      var s, e := StatsOf(events[..|events| - 1], key), events[|events| - 1];
      if e.Request? || RouteKey(e) != key then s
      else
        RouteStats(s.count + 1, s.totalDurationMs + e.durationMs, MaxReal(s.maxDurationMs, e.durationMs),
                   s.errorCount + ErrorOf(e))
  }

  /** The response e, counted by what it says. */
  ghost predicate CountsOne(e: Event, s: RouteStats) {
    && e.Response? && s.count == 1 && s.totalDurationMs == e.durationMs
    && s.maxDurationMs == (if e.durationMs > 0.0 then e.durationMs else 0.0)
    && s.errorCount == (if e.statusCode >= 400 then 1 else 0)
  }

  /** The statistics are told by their parts: a response counts for its own route alone, and two histories
      together as their sums and the longer of their longest. */
  lemma StatsOfOne(e: Event, key: string)
    ensures if e.Response? && key == Upper(e.verb) + " " + NormalizeRoute(e.route) then CountsOne(e, StatsOf([e], key))
            else StatsOf([e], key) == RouteStats(0, 0.0, 0.0, 0)
  {
    assert [e][..0] == [];
  }

  lemma {:induction false} StatsOfJoin(a: seq<Event>, b: seq<Event>, key: string)
    ensures var (s, t, u) := (StatsOf(a, key), StatsOf(b, key), StatsOf(a + b, key));
      && u.count == s.count + t.count && u.errorCount == s.errorCount + t.errorCount
      && u.totalDurationMs == s.totalDurationMs + t.totalDurationMs
      && u.maxDurationMs == if s.maxDurationMs < t.maxDurationMs then t.maxDurationMs else s.maxDurationMs
    ensures StatsOf(b, key).maxDurationMs >= 0.0
    decreases |b|
  {
    if b == [] {
      assert a + b == a;
      LongestIsPositive(a, key);
    } else {
      assert (a + b)[..|a + b| - 1] == a + b[..|b| - 1];
      StatsOfJoin(a, b[..|b| - 1], key);
    }
  }

  lemma {:induction false} LongestIsPositive(events: seq<Event>, key: string)
    ensures StatsOf(events, key).maxDurationMs >= 0.0
  {
    if events != [] { LongestIsPositive(events[..|events| - 1], key); }
  }

  function Requests(events: seq<Event>): nat {
    if events == [] then 0
    else Requests(events[..|events| - 1]) + if events[|events| - 1].Request? then 1 else 0
  }

  function Failures(events: seq<Event>): nat {
    if events == [] then 0
    else
      var e := events[|events| - 1];
      Failures(events[..|events| - 1]) + if e.Response? then ErrorOf(e) else 0
  }

  /** Each response answers an earlier request. */
  predicate Paired(events: seq<Event>) {
    events == [] || (Paired(events[..|events| - 1]) && |events| - Requests(events) <= Requests(events))
  }

  /** Requests and failures are told by their parts too. */
  lemma {:induction false} CountsJoin(a: seq<Event>, b: seq<Event>)
    ensures Requests(a + b) == Requests(a) + Requests(b) && Failures(a + b) == Failures(a) + Failures(b)
    decreases |b|
  {
    if b == [] {
      assert a + b == a;
    } else {
      assert (a + b)[..|a + b| - 1] == a + b[..|b| - 1];
      CountsJoin(a, b[..|b| - 1]);
    }
  }

  lemma CountsOfOne(e: Event)
    ensures Requests([e]) == if e.Request? then 1 else 0
    ensures Failures([e]) == if e.Response? && e.statusCode >= 400 then 1 else 0
  {
    assert [e][..0] == [];
  }

  /** Responses are paired when at no point more of them than requests have come. */
  lemma {:induction false} PairedExactly(events: seq<Event>)
    ensures Paired(events) <==> forall n :: 0 <= n <= |events| ==> n - Requests(events[..n]) <= Requests(events[..n])
  {
    if events == [] {
      assert events[..0] == [];
    } else {
      var init := events[..|events| - 1];
      PairedExactly(init);
      assert forall n :: 0 <= n <= |init| ==> init[..n] == events[..n];
      assert events[..|events|] == events;
    }
  }

  // ---------- the hooks ----------

  function Tallied(c: Counters, route: string, durationMs: real, statusCode: int): Counters {
    var s := if route in c.routes then c.routes[route] else RouteStats(0, 0.0, 0.0, 0);
    var failed := if statusCode >= 400 then 1 else 0;
    var s' := RouteStats(s.count + 1, s.totalDurationMs + durationMs, MaxReal(s.maxDurationMs, durationMs), s.errorCount + failed);
    Counters(c.routes[route := s'], Adjoin(c.order, route), c.requestsTotal + 1, c.errorsTotal + failed, Max(0, c.activeOperations - 1))
  }

  function Observe(c: Counters, e: Event): Counters {
    if e.Request? then c.(activeOperations := c.activeOperations + 1)
    else Tallied(c, RouteKey(e), e.durationMs, e.statusCode)
  }

  function ObserveAll(events: seq<Event>): Counters {
    if events == [] then NOTHING_SEEN else Observe(ObserveAll(events[..|events| - 1]), events[|events| - 1])
  }

  function SumCounts(routes: map<string, RouteStats>, order: seq<string>): nat
    requires forall k :: k in order ==> k in routes
  {
    if order == [] then 0 else SumCounts(routes, order[..|order| - 1]) + routes[order[|order| - 1]].count
  }

  function SumErrors(routes: map<string, RouteStats>, order: seq<string>): nat
    requires forall k :: k in order ==> k in routes
  {
    if order == [] then 0 else SumErrors(routes, order[..|order| - 1]) + routes[order[|order| - 1]].errorCount
  }

  lemma {:induction false} SumsElsewhere(routes: map<string, RouteStats>, order: seq<string>, key: string, s: RouteStats)
    requires forall k :: k in order ==> k in routes
    requires key !in order
    ensures SumCounts(routes[key := s], order) == SumCounts(routes, order)
    ensures SumErrors(routes[key := s], order) == SumErrors(routes, order)
    decreases |order|
  {
    if order != [] {
      assert order[|order| - 1] in order;
      SumsElsewhere(routes, order[..|order| - 1], key, s);
    }
  }

  lemma {:induction false} SumsUpdate(routes: map<string, RouteStats>, order: seq<string>, key: string, s: RouteStats)
    requires NoDup(order) && (forall k :: k in order ==> k in routes) && key in order
    ensures SumCounts(routes[key := s], order) == SumCounts(routes, order) - routes[key].count + s.count
    ensures SumErrors(routes[key := s], order) == SumErrors(routes, order) - routes[key].errorCount + s.errorCount
    decreases |order|
  {
    var init, last := order[..|order| - 1], order[|order| - 1];
    assert order == init + [last];
    if last == key { SumsElsewhere(routes, init, key, s); } else { SumsUpdate(routes, init, key, s); }
  }

  /** The totals are the sums over the routes. */
  ghost predicate TotalsAddUp(c: Counters) {
    && NoDup(c.order) && (forall k :: k in c.order <==> k in c.routes)
    && c.requestsTotal == SumCounts(c.routes, c.order)
    && c.errorsTotal == SumErrors(c.routes, c.order)
  }

  lemma ObserveAddsUp(c: Counters, e: Event)
    requires TotalsAddUp(c)
    ensures TotalsAddUp(Observe(c, e))
  {
    if e.Response? {
      var key, c' := RouteKey(e), Observe(c, e);
      if key in c.order {
        SumsUpdate(c.routes, c.order, key, c'.routes[key]);
      } else {
        SumsElsewhere(c.routes, c.order, key, c'.routes[key]);
        assert c'.order[..|c'.order| - 1] == c.order;
      }
    }
  }

  /** After any history the totals are those of the history, and the sums over all routes. */
  lemma {:induction false} TotalsFollowHistory(events: seq<Event>)
    ensures var c := ObserveAll(events);
      TotalsAddUp(c) && c.requestsTotal == |events| - Requests(events) && c.errorsTotal == Failures(events)
  {
    if events != [] {
      var init := events[..|events| - 1];
      TotalsFollowHistory(init);
      ObserveAddsUp(ObserveAll(init), events[|events| - 1]);
    }
  }

  /** Each route's statistics are exactly those of its responses, and only routes that had one are kept. */
  lemma {:induction false} RoutesFollowHistory(events: seq<Event>, k: string)
    ensures var c := ObserveAll(events);
      && (k in c.routes <==> StatsOf(events, k).count > 0)
      && (if k in c.routes then c.routes[k] else RouteStats(0, 0.0, 0.0, 0)) == StatsOf(events, k)
  {
    if events != [] { RoutesFollowHistory(events[..|events| - 1], k); }
  }

  /** As many operations are active as requests are unanswered, exactly when no response came without
      a request; otherwise more. */
  lemma {:induction false} ActiveFollowsHistory(events: seq<Event>)
    ensures ObserveAll(events).activeOperations >= 2 * Requests(events) - |events|
    ensures ObserveAll(events).activeOperations == 2 * Requests(events) - |events| <==> Paired(events)
  {
    if events != [] {
      ActiveFollowsHistory(events[..|events| - 1]);
    }
  }

  // ---------- the operations of a report ----------

  function HttpOperation(route: string, s: RouteStats): Operation {
    Operation("http." + route, Some(s.count),
              Some(if s.count > 0 then s.totalDurationMs / s.count as real else 0.0),
              Some(s.maxDurationMs), Some(s.errorCount))
  }

  /** The routes as operations, in the order first seen. */
  ghost predicate RouteOperations(c: Counters, ops: seq<Operation>) {
    && |ops| == |c.order|
    && forall i :: 0 <= i < |ops| ==> c.order[i] in c.routes && ops[i] == HttpOperation(c.order[i], c.routes[c.order[i]])
  }

  function Five(ranked: seq<Operation>): seq<Operation> {
    ranked[..if 5 < |ranked| then 5 else |ranked|]
  }

  /** The top operations of a health report: those of the five best-ranked routes and the domain's. */
  ghost predicate HealthReport(c: Counters, domain: seq<Operation>, top: seq<Operation>) {
    exists ops :: RouteOperations(c, ops) && ReportOf(Five(Ranked(ops)) + domain, domain != [], 5, top)
  }

  lemma TotalOfPresent(items: seq<Operation>, name: string)
    requires TotalOf(items, name).longest.Some?
    ensures exists i :: 0 <= i < |items| && items[i].operation == name
  {
    if forall i :: 0 <= i < |items| ==> items[i].operation != name { TotalOfAbsent(items, name); }
  }

  lemma {:induction false} TotalOfOne(items: seq<Operation>, i: nat)
    requires i < |items| && DistinctNames(items)
    ensures Carries(items[i], TotalOf(items, items[i].operation))
    decreases |items|
  {
    var init := items[..|items| - 1];
    if i < |init| { TotalOfOne(init, i); } else { TotalOfAbsent(init, items[i].operation); }
  }

  lemma {:induction false} TotalOfConcat(a: seq<Operation>, b: seq<Operation>, name: string)
    requires forall i :: 0 <= i < |b| ==> b[i].operation != name
    ensures TotalOf(a + b, name) == TotalOf(a, name)
    decreases |b|
  {
    if b == [] {
      assert a + b == a;
    } else {
      assert (a + b)[..|a + b| - 1] == a + b[..|b| - 1];
      TotalOfConcat(a, b[..|b| - 1], name);
    }
  }

  /** What a report says of a route that no domain operation is named after is exactly what the history
      says: the number of its responses and failures, their total time and the longest. */
  lemma ReportedRouteIsExact(events: seq<Event>, domain: seq<Operation>, top: seq<Operation>, x: Operation, route: string)
    requires HealthReport(ObserveAll(events), domain, top)
    requires x in top && x.operation == "http." + route && forall i :: 0 <= i < |domain| ==> domain[i].operation != x.operation
    ensures var s := StatsOf(events, route);
      x.Count() == s.count && x.Errors() == s.errorCount && x.Time() == s.totalDurationMs && x.Max() == s.maxDurationMs
  {
    var ops :| RouteOperations(ObserveAll(events), ops) && ReportOf(Five(Ranked(ops)) + domain, domain != [], 5, top);
    var http := Five(Ranked(ops));
    ReportCarriesTotals(http + domain, domain != [], 5, top);
    TotalOfConcat(http, domain, x.operation);
    HttpOperationsDistinct(events, ops);
    TotalOfPresent(http, x.operation);
    var i :| 0 <= i < |http| && http[i].operation == x.operation;
    TotalOfOne(http, i);
    RankedHolds(ops);
    assert http[i] in ops;
    var j :| 0 <= j < |ops| && ops[j] == http[i];
    RouteOfOperation(events, ops, j, route);
  }

  /** The five routes of a report: a route with responses is among them, or there are five of which each
      had more, or as many and as long a longest one. */
  lemma FiveBestRoutes(events: seq<Event>, ops: seq<Operation>, route: string)
    requires RouteOperations(ObserveAll(events), ops) && StatsOf(events, route).count > 0
    ensures var (http, s) := (Five(Ranked(ops)), StatsOf(events, route));
      || (exists i :: 0 <= i < |http| && http[i].operation == "http." + route)
      || (|http| == 5 && forall i :: 0 <= i < 5 ==> AtLeast(http[i], s.count, s.maxDurationMs))
  {
    var http, ranked, s := Five(Ranked(ops)), Ranked(ops), StatsOf(events, route);
    TotalsFollowHistory(events);
    RoutesFollowHistory(events, route);
    var j :| 0 <= j < |ObserveAll(events).order| && ObserveAll(events).order[j] == route;
    RouteOfOperation(events, ops, j, route);
    RankedIsRanking(ops);
    RankedHolds(ops);
    assert ops[j] in ops;
    var k :| 0 <= k < |ranked| && ranked[k] == ops[j];
    if k < |http| { assert http[k].operation == "http." + route; }
    assert forall i :: 0 <= i < |http| ==> http[i] == ranked[i];
  }

  /** A report is in order of rank, has as many operations as there are up to five, and has a domain
      operation whenever one was given. */
  lemma HealthReportShape(events: seq<Event>, domain: seq<Operation>, top: seq<Operation>)
    requires HealthReport(ObserveAll(events), domain, top)
    ensures Sorted(top) && DistinctNames(top) && |top| <= 5
    ensures var n := |ObserveAll(events).order|; domain == [] ==> |top| == if n < 5 then n else 5
    ensures HasDomain(domain) ==> HasDomain(top)
  {
    var ops :| RouteOperations(ObserveAll(events), ops) && ReportOf(Five(Ranked(ops)) + domain, domain != [], 5, top);
    var http := Five(Ranked(ops));
    ReportRanked(http + domain, domain != [], 5, top);
    ReportCarriesTotals(http + domain, domain != [], 5, top);
    ReportFillsTheLimit(http + domain, domain != [], 5, top);
    DomainAdded(http, domain);
    if domain == [] { FiveNames(events, ops); }
  }

  lemma DomainAdded(http: seq<Operation>, domain: seq<Operation>)
    ensures HasDomain(domain) ==> HasDomain(http + domain)
    ensures http + [] == http
  {
    if HasDomain(domain) {
      var i :| 0 <= i < |domain| && !("http." <= domain[i].operation);
      assert (http + domain)[|http| + i] == domain[i];
    }
  }

  lemma FiveNames(events: seq<Event>, ops: seq<Operation>)
    requires RouteOperations(ObserveAll(events), ops)
    ensures |FirstNames(Five(Ranked(ops)))| == if |ops| < 5 then |ops| else 5
  {
    HttpOperationsDistinct(events, ops);
    NamesOfDistinct(Five(Ranked(ops)));
    RankedIsRanking(ops);
  }

  lemma HttpOperationsDistinct(events: seq<Event>, ops: seq<Operation>)
    requires RouteOperations(ObserveAll(events), ops)
    ensures DistinctNames(Five(Ranked(ops)))
  {
    var order := ObserveAll(events).order;
    TotalsFollowHistory(events);
    forall i, j | 0 <= i < j < |ops| ensures ops[i].operation != ops[j].operation {
      assert order[i] != order[j];
      assert ops[i].operation[5..] == order[i] && ops[j].operation[5..] == order[j];
    }
    RankedDistinct(ops);
  }

  lemma RouteOfOperation(events: seq<Event>, ops: seq<Operation>, j: nat, route: string)
    requires RouteOperations(ObserveAll(events), ops) && j < |ops| && ops[j].operation == "http." + route
    ensures var s := StatsOf(events, route);
      && ops[j].Count() == s.count && ops[j].Errors() == s.errorCount
      && ops[j].Time() == s.totalDurationMs && ops[j].Max() == s.maxDurationMs
  {
    var c := ObserveAll(events);
    assert ops[j].operation[5..] == c.order[j] && ("http." + route)[5..] == route;
    RoutesFollowHistory(events, route);
    OperationTime(route, c.routes[route]);
  }

  lemma OperationTime(route: string, s: RouteStats)
    requires s.count > 0
    ensures HttpOperation(route, s).Time() == s.totalDurationMs
  {
    assert s.totalDurationMs / s.count as real * s.count as real == s.totalDurationMs;
  }

  // ---------- the collector ----------

  /** The response the hook sees: how long it took, and the route's pattern if one matched. */
  function Finished(verb: string, template: Option<string>, url: string, started: Option<real>, now: real, statusCode: int): Event {
    Response(verb, Some(if template.Some? then template.value else url),
             MaxReal(now - (if started.Some? then started.value else now), 0.0), statusCode)
  }

  class GatewayObservabilityCollector {
    var routeStats: map<string, RouteStats>
    var routeOrder: seq<string>
    var requestsTotal: nat
    var errorsTotal: nat
    var activeOperations: nat

    ghost function View(): Counters
      reads this
    {
      Counters(routeStats, routeOrder, requestsTotal, errorsTotal, activeOperations)
    }

    constructor ()
      ensures View() == ObserveAll([])
    {
      routeStats, routeOrder := map[], [];
      requestsTotal, errorsTotal, activeOperations := 0, 0, 0;
    }

    method OnRequest()
      modifies this`activeOperations
      ensures View() == Observe(old(View()), Request)
    {
      activeOperations := activeOperations + 1;
    }

    method OnResponse(verb: string, template: Option<string>, url: string, started: Option<real>, now: real, statusCode: int)
      modifies this
      ensures View() == Observe(old(View()), Finished(verb, template, url, started, now, statusCode))
      ensures var durationMs := if started.Some? && now > started.value then now - started.value else 0.0;
        var route := if template.Some? then template.value else url;
        View() == Observe(old(View()), Response(verb, Some(route), durationMs, statusCode))
    {
      var response := Finished(verb, template, url, started, now, statusCode);
      Record(RouteKey(response), response.durationMs, response.statusCode);
    }

    method Record(route: string, durationMs: real, statusCode: int)
      modifies this
      ensures View() == Tallied(old(View()), route, durationMs, statusCode)
    {
      var stats := if route in routeStats then routeStats[route] else RouteStats(0, 0.0, 0.0, 0);
      stats := stats.(
        count := stats.count + 1,
        totalDurationMs := stats.totalDurationMs + durationMs,
        maxDurationMs := MaxReal(stats.maxDurationMs, durationMs));
      if statusCode >= 400 {
        stats := stats.(errorCount := stats.errorCount + 1);
        errorsTotal := errorsTotal + 1;
      }
      routeOrder := Adjoin(routeOrder, route);
      routeStats := routeStats[route := stats];
      requestsTotal := requestsTotal + 1;
      activeOperations := Max(0, activeOperations - 1);
    }

    /** The top operations of a health report. */
    method TopOperations(domain: seq<Operation>) returns (top: seq<Operation>)
      requires TotalsAddUp(View())
      ensures HealthReport(View(), domain, top)
    {
      var http: seq<Operation> := [];
      for i := 0 to |routeOrder|
        invariant |http| == i
        invariant forall j :: 0 <= j < i ==> http[j] == HttpOperation(routeOrder[j], routeStats[routeOrder[j]])
      {
        http := http + [HttpOperation(routeOrder[i], routeStats[routeOrder[i]])];
      }
      assert RouteOperations(View(), http);
      top := MergeTopOperations(Five(Ranked(http)), domain, 5);
    }
  }
}
