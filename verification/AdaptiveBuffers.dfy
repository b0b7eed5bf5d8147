/** AdaptiveBuffer: calls held for a host that is away, for a time that shrinks with the load. */
module AdaptiveBuffers {
  import opened Collections
  import opened Messages

  datatype BufferPolicy = BufferPolicy(minTTL: int, maxTTL: int, maxSize: int, loadThreshold: real)

  const DEFAULT_BUFFER_POLICY := BufferPolicy(30000, 300000, 100, 0.7)

  datatype BufferedCall = BufferedCall(requestId: Id, adapter: string, operation: string, args: Data, enqueuedAt: int)

  /** Math.round: to the nearest integer, and up from halfway. */
  function Round(x: real): int {
    (x + 0.5).Floor
  }

  // ---------- how long a buffer lives ----------

  ghost predicate Sound(p: BufferPolicy) {
    p.minTTL <= p.maxTTL && p.loadThreshold > 0.0
  }

  /** The share of the range between the two times to live that a load leaves. */
  function Factor(p: BufferPolicy, load: real): real
    requires p.loadThreshold != 0.0
  {
    1.0 - load / p.loadThreshold
  }

  /** The point at this share of the way from one bound to the other. */
  function Point(min: int, max: int, f: real): real {
    min as real + (max - min) as real * f
  }

  function TtlFor(p: BufferPolicy, load: real): int
    requires load >= p.loadThreshold || p.loadThreshold != 0.0
  {
    if load >= p.loadThreshold then p.minTTL
    else Round(Point(p.minTTL, p.maxTTL, Factor(p, load)))
  }

  lemma FactorFalls(p: BufferPolicy, a: real, b: real)
    requires Sound(p) && a <= b
    ensures Factor(p, a) >= Factor(p, b)
    ensures (a < p.loadThreshold ==> Factor(p, a) > 0.0) && (0.0 <= a ==> Factor(p, a) <= 1.0)
  {
    var t := p.loadThreshold;
    assert b / t - a / t == (b - a) / t;
    assert (b - a) / t >= 0.0;
    if a < t { assert a / t < 1.0; }
    if 0.0 <= a { assert a / t >= 0.0; }
  }

  lemma TtlBetween(p: BufferPolicy, load: real)
    requires Sound(p) && 0.0 <= load
    ensures p.minTTL <= TtlFor(p, load) <= p.maxTTL
  {
    FactorFalls(p, load, load);
    if load < p.loadThreshold { RoundBetween(p.minTTL, p.maxTTL, Factor(p, load)); }
  }

  lemma TtlFalls(p: BufferPolicy, load: real, more: real)
    requires Sound(p) && 0.0 <= load <= more
    ensures TtlFor(p, more) <= TtlFor(p, load)
  {
    FactorFalls(p, load, more);
    if more < p.loadThreshold { RoundGrows(p.minTTL, p.maxTTL, Factor(p, more), Factor(p, load)); } else { TtlBetween(p, load); }
  }

  /** The time to live is between its bounds, falls as the load rises, and is the longest at no load and
      the shortest from the threshold on. */
  lemma TtlFallsFromMaxToMin(p: BufferPolicy, load: real, more: real)
    requires Sound(p) && 0.0 <= load <= more
    ensures p.minTTL <= TtlFor(p, more) <= TtlFor(p, load) <= p.maxTTL
    ensures TtlFor(p, 0.0) == p.maxTTL
    ensures load >= p.loadThreshold ==> TtlFor(p, load) == p.minTTL
  {
    TtlBetween(p, load);
    TtlBetween(p, more);
    TtlFalls(p, load, more);
    RoundBetween(p.minTTL, p.maxTTL, 1.0);
    assert Factor(p, 0.0) == 1.0;
  }

  lemma PointGrows(min: int, max: int, f: real, g: real)
    requires min <= max && f <= g
    ensures Point(min, max, f) <= Point(min, max, g)
  {
    Scale((max - min) as real, f, g);
  }

  lemma PointEnds(min: int, max: int)
    ensures Point(min, max, 0.0) == min as real && Point(min, max, 1.0) == max as real
  {
  }

  lemma RoundGrows(min: int, max: int, f: real, g: real)
    requires min <= max && f <= g
    ensures Round(Point(min, max, f)) <= Round(Point(min, max, g))
  {
    PointGrows(min, max, f, g);
  }

  lemma RoundBetween(min: int, max: int, f: real)
    requires min <= max && 0.0 <= f <= 1.0
    ensures min <= Round(Point(min, max, f)) <= max
    ensures f == 1.0 ==> Round(Point(min, max, f)) == max
  {
    PointEnds(min, max);
    PointGrows(min, max, 0.0, f);
    PointGrows(min, max, f, 1.0);
  }

  lemma Scale(k: real, a: real, b: real)
    requires k >= 0.0 && a <= b
    ensures k * a <= k * b
  {
  }

  /** Below the threshold it is linear in the load, to the nearest millisecond. */
  lemma TtlIsLinear(p: BufferPolicy, load: real)
    requires Sound(p) && load < p.loadThreshold
    ensures var exact := p.minTTL as real + (p.maxTTL - p.minTTL) as real * (1.0 - load / p.loadThreshold);
      exact - 0.5 < TtlFor(p, load) as real <= exact + 0.5
  {
  }

  /** With the policy the gateway uses a buffer lives between 30 s and 5 min. */
  lemma DefaultPolicyBounds(load: real)
    requires load >= 0.0
    ensures 30000 <= TtlFor(DEFAULT_BUFFER_POLICY, load) <= 300000
    ensures TtlFor(DEFAULT_BUFFER_POLICY, 0.0) == 300000 && TtlFor(DEFAULT_BUFFER_POLICY, 0.7) == 30000
  {
    TtlFallsFromMaxToMin(DEFAULT_BUFFER_POLICY, 0.0, load);
    TtlFallsFromMaxToMin(DEFAULT_BUFFER_POLICY, 0.7, 0.7);
  }

  // ---------- runs ----------

  datatype Event =
    | Enqueue(host: Id, call: BufferedCall, load: real, now: int)
    | Flush(host: Id, now: int)

  /** A cached list and the time from which the cache no longer returns it. */
  datatype Held = Held(calls: seq<BufferedCall>, expiresAt: int)

  function Live(cache: map<Id, Held>, host: Id, now: int): seq<BufferedCall> {
    if host in cache && now < cache[host].expiresAt then cache[host].calls else []
  }

  predicate Accepts(p: BufferPolicy, cache: map<Id, Held>, e: Event)
    requires e.Enqueue?
  {
    |Live(cache, e.host, e.now)| < p.maxSize
  }

  function Step(p: BufferPolicy, cache: map<Id, Held>, e: Event): map<Id, Held>
    requires p.loadThreshold > 0.0
  {
    match e
    case Enqueue(host, call, load, now) =>
      if Accepts(p, cache, e) then cache[host := Held(Live(cache, host, now) + [call], now + TtlFor(p, load))] else cache
    case Flush(host, _) => cache - {host}
  }

  function Run(p: BufferPolicy, events: seq<Event>): map<Id, Held>
    requires p.loadThreshold > 0.0
  {
    if events == [] then map[] else Step(p, Run(p, events[..|events| - 1]), events[|events| - 1])
  }

  // ---------- the calls a history leaves waiting ----------

  /** Which calls of a host wait at a time: those accepted since it was last flushed or, its last
      accepted call having outlived its time to live, since it expired. */
  function Waiting(p: BufferPolicy, events: seq<Event>, host: Id, now: int): (waiting: seq<nat>)
    requires p.loadThreshold > 0.0
    ensures forall i :: 0 <= i < |waiting| ==> waiting[i] < |events| && events[waiting[i]].Enqueue? && events[waiting[i]].host == host
    ensures forall i, j :: 0 <= i < j < |waiting| ==> waiting[i] < waiting[j]
  {
    if events == [] then []
    else
      var init, e := events[..|events| - 1], events[|events| - 1];
      if e.host != host then Waiting(p, init, host, now)
      else if e.Flush? then []
      else if |Waiting(p, init, host, e.now)| >= p.maxSize then Waiting(p, init, host, now)
      else if now < e.now + TtlFor(p, e.load) then Waiting(p, init, host, e.now) + [|init|]
      else []
  }

  /** Event i was a call that the buffer took. */
  predicate Accepted(p: BufferPolicy, events: seq<Event>, i: nat)
    requires p.loadThreshold > 0.0 && i < |events|
  {
    events[i].Enqueue? && |Waiting(p, events[..i], events[i].host, events[i].now)| < p.maxSize
  }

  // ---------- which calls those are ----------

  /** What an event is to one host: a call of it taken, with the time it was taken and the time its
      list would then expire; a flush of it; or neither. */
  datatype Mark = Taken(at: int, due: int) | Cleared | Nothing

  function MarkOf(p: BufferPolicy, e: Event, accepted: bool, host: Id): Mark
    requires p.loadThreshold > 0.0
  {
    if e.host != host then Nothing
    else if e.Flush? then Cleared
    else if accepted then Taken(e.now, e.now + TtlFor(p, e.load))
    else Nothing
  }

  function Marks(p: BufferPolicy, events: seq<Event>, host: Id): (marks: seq<Mark>)
    requires p.loadThreshold > 0.0
    ensures |marks| == |events|
  {
    if events == [] then []
    else
      var n := |events| - 1;
      Marks(p, events[..n], host) + [MarkOf(p, events[n], Accepted(p, events, n), host)]
  }

  lemma {:induction false} MarksAt(p: BufferPolicy, events: seq<Event>, host: Id, i: nat)
    requires p.loadThreshold > 0.0 && i < |events|
    ensures Marks(p, events, host)[i] == MarkOf(p, events[i], Accepted(p, events, i), host)
    decreases |events|
  {
    var init := events[..|events| - 1];
    if i < |init| {
      assert init[..i] == events[..i];
      MarksAt(p, init, host, i);
    }
  }

  ghost predicate NoneTaken(marks: seq<Mark>, after: nat, to: nat)
    requires to <= |marks|
  {
    forall x :: after < x < to ==> !marks[x].Taken?
  }

  /** Between i and the given time the list never expired: each call taken from i on came before the
      list as the previous one left it was due, and so does the given time after the newest. */
  ghost predicate Unexpired(marks: seq<Mark>, i: nat, now: int) {
    && (forall j, l :: i <= j < l < |marks| && marks[j].Taken? && marks[l].Taken? && NoneTaken(marks, j, l) ==>
          marks[l].at < marks[j].due)
    && (forall j :: i <= j < |marks| && marks[j].Taken? && NoneTaken(marks, j, |marks|) ==> now < marks[j].due)
  }

  /** Event i was a call of the host that was taken; the host was not flushed after it; and its list has
      not expired since. */
  ghost predicate StillHeld(marks: seq<Mark>, i: nat, now: int) {
    && i < |marks| && marks[i].Taken?
    && (forall f :: i < f < |marks| ==> !marks[f].Cleared?)
    && Unexpired(marks, i, now)
  }

  lemma NoneTakenSnoc(marks: seq<Mark>, m: Mark, after: nat, to: nat)
    requires to <= |marks|
    ensures NoneTaken(marks + [m], after, to) <==> NoneTaken(marks, after, to)
    ensures after < |marks| ==> (NoneTaken(marks + [m], after, |marks| + 1) <==> NoneTaken(marks, after, |marks|) && !m.Taken?)
  {
    assert forall x :: 0 <= x < |marks| ==> (marks + [m])[x] == marks[x];
    assert (marks + [m])[|marks|] == m;
  }

  lemma UnexpiredSnoc(marks: seq<Mark>, m: Mark, i: nat, now: int)
    requires i < |marks|
    ensures Unexpired(marks + [m], i, now) <==>
      if m.Taken? then now < m.due && Unexpired(marks, i, m.at) else Unexpired(marks, i, now)
  {
    var more, n := marks + [m], |marks|;
    forall j, l | 0 <= j <= n && 0 <= l <= n
      ensures NoneTaken(more, j, l) <==> NoneTaken(marks, j, l)
    {
      NoneTakenSnoc(marks, m, j, l);
    }
    forall j | 0 <= j < n
      ensures NoneTaken(more, j, n + 1) <==> NoneTaken(marks, j, n) && !m.Taken?
    {
      NoneTakenSnoc(marks, m, j, n);
    }
    assert NoneTaken(more, n, n + 1);
    assert more[n] == m && forall x :: 0 <= x < n ==> more[x] == marks[x];
  }

  lemma StillHeldSnoc(marks: seq<Mark>, m: Mark, i: nat, now: int)
    ensures StillHeld(marks + [m], i, now) <==>
      match m
      case Nothing => StillHeld(marks, i, now)
      case Cleared => false
      case Taken(at, due) => now < due && (i == |marks| || StillHeld(marks, i, at))
  {
    var more, n := marks + [m], |marks|;
    assert more[n] == m && forall x :: 0 <= x < n ==> more[x] == marks[x];
    if i < n {
      UnexpiredSnoc(marks, m, i, now);
    } else if i == n && m.Taken? {
      assert NoneTaken(more, n, n + 1);
    }
  }

  lemma WaitingSnoc(p: BufferPolicy, events: seq<Event>, host: Id, now: int, i: nat)
    requires p.loadThreshold > 0.0 && events != []
    ensures var (n, e) := (|events| - 1, events[|events| - 1]);
      i in Waiting(p, events, host, now) <==>
        match MarkOf(p, e, Accepted(p, events, n), host)
        case Nothing => i in Waiting(p, events[..n], host, now)
        case Cleared => false
        case Taken(at, due) => now < due && (i == n || i in Waiting(p, events[..n], host, at))
  {
  }

  /** What waits, said without replaying the events: exactly the calls that were taken, not flushed since,
      and in a list that has not expired since. */
  lemma {:induction false} WaitingExactly(p: BufferPolicy, events: seq<Event>, host: Id, now: int, i: nat)
    requires p.loadThreshold > 0.0
    ensures i in Waiting(p, events, host, now) <==> StillHeld(Marks(p, events, host), i, now)
    decreases |events|
  {
    if events != [] {
      var n := |events| - 1;
      var init, m := events[..n], MarkOf(p, events[n], Accepted(p, events, n), host);
      WaitingSnoc(p, events, host, now, i);
      StillHeldSnoc(Marks(p, init, host), m, i, now);
      WaitingExactly(p, init, host, now, i);
      if m.Taken? { WaitingExactly(p, init, host, m.at, i); }
    }
  }

  /** The positions are of calls. */
  ghost predicate Picks(events: seq<Event>, waiting: seq<nat>) {
    forall i :: 0 <= i < |waiting| ==> waiting[i] < |events| && events[waiting[i]].Enqueue?
  }

  ghost function CallsAt(events: seq<Event>, waiting: seq<nat>): seq<BufferedCall>
    requires Picks(events, waiting)
  {
    if waiting == [] then [] else CallsAt(events, waiting[..|waiting| - 1]) + [events[waiting[|waiting| - 1]].call]
  }

  /** One by one and in that order. */
  lemma {:induction false} CallsAtEach(events: seq<Event>, waiting: seq<nat>, i: nat)
    requires Picks(events, waiting)
    requires i < |waiting|
    ensures |CallsAt(events, waiting)| == |waiting| && CallsAt(events, waiting)[i] == events[waiting[i]].call
    decreases |waiting|
  {
    var init := waiting[..|waiting| - 1];
    if i < |init| { CallsAtEach(events, init, i); } else if init != [] { CallsAtEach(events, init, 0); }
  }

  lemma {:induction false} CallsAtPrefix(events: seq<Event>, more: seq<Event>, waiting: seq<nat>)
    requires events <= more
    requires Picks(events, waiting)
    ensures CallsAt(more, waiting) == CallsAt(events, waiting) && |CallsAt(events, waiting)| == |waiting|
    decreases |waiting|
  {
    if waiting != [] { CallsAtPrefix(events, more, waiting[..|waiting| - 1]); }
  }

  lemma LiveAfterEnqueue(p: BufferPolicy, cache: map<Id, Held>, e: Event, now: int)
    requires p.loadThreshold > 0.0 && e.Enqueue?
    ensures Live(Step(p, cache, e), e.host, now)
      == if !Accepts(p, cache, e) then Live(cache, e.host, now)
         else if now < e.now + TtlFor(p, e.load) then Live(cache, e.host, e.now) + [e.call] else []
  {
  }

  lemma PicksOneMore(init: seq<Event>, e: Event, waiting: seq<nat>)
    requires e.Enqueue? && Picks(init, waiting)
    ensures Picks(init + [e], waiting) && Picks(init + [e], waiting + [|init|])
  {
  }

  lemma CallsAtOneMore(init: seq<Event>, e: Event, waiting: seq<nat>)
    requires e.Enqueue? && Picks(init, waiting)
    ensures Picks(init + [e], waiting + [|init|])
    ensures CallsAt(init + [e], waiting + [|init|]) == CallsAt(init, waiting) + [e.call]
  {
    PicksOneMore(init, e, waiting);
    assert (waiting + [|init|])[..|waiting|] == waiting;
    CallsAtPrefix(init, init + [e], waiting);
  }

  ghost predicate Agrees(p: BufferPolicy, events: seq<Event>, host: Id, now: int)
    requires p.loadThreshold > 0.0
  {
    && Live(Run(p, events), host, now) == CallsAt(events, Waiting(p, events, host, now))
    && |Live(Run(p, events), host, now)| == |Waiting(p, events, host, now)|
  }

  lemma EnqueueAgrees(p: BufferPolicy, init: seq<Event>, e: Event, now: int)
    requires p.loadThreshold > 0.0 && e.Enqueue?
    requires Agrees(p, init, e.host, now) && Agrees(p, init, e.host, e.now)
    ensures Agrees(p, init + [e], e.host, now)
  {
    var events := init + [e];
    assert events[..|events| - 1] == init;
    LiveAfterEnqueue(p, Run(p, init), e, now);
    CallsAtPrefix(init, events, Waiting(p, init, e.host, now));
    CallsAtOneMore(init, e, Waiting(p, init, e.host, e.now));
  }

  lemma OtherAgrees(p: BufferPolicy, init: seq<Event>, e: Event, host: Id, now: int)
    requires p.loadThreshold > 0.0 && (e.host != host || e.Flush?)
    requires Agrees(p, init, host, now)
    ensures Agrees(p, init + [e], host, now)
  {
    assert (init + [e])[..|init|] == init;
    CallsAtPrefix(init, init + [e], Waiting(p, init, host, now));
  }

  /** What the cache returns is what waits by the history. */
  lemma {:induction false} CacheFollowsHistory(p: BufferPolicy, events: seq<Event>, host: Id, now: int)
    requires p.loadThreshold > 0.0
    ensures Live(Run(p, events), host, now) == CallsAt(events, Waiting(p, events, host, now))
    ensures |Live(Run(p, events), host, now)| == |Waiting(p, events, host, now)|
    decreases |events|
  {
    if events != [] {
      var init, e := events[..|events| - 1], events[|events| - 1];
      assert events == init + [e];
      CacheFollowsHistory(p, init, host, now);
      if e.host == host && e.Enqueue? {
        CacheFollowsHistory(p, init, host, e.now);
        EnqueueAgrees(p, init, e, now);
      } else {
        OtherAgrees(p, init, e, host, now);
      }
      assert Agrees(p, events, host, now);
    }
  }

  /** So what is returned at i is the call of the i-th event that waits. */
  lemma ReturnsTheWaiting(p: BufferPolicy, events: seq<Event>, host: Id, now: int, i: nat)
    requires p.loadThreshold > 0.0 && i < |Waiting(p, events, host, now)|
    ensures var (live, waiting) := (Live(Run(p, events), host, now), Waiting(p, events, host, now));
      |live| == |waiting| && live[i] == events[waiting[i]].call
  {
    CacheFollowsHistory(p, events, host, now);
    CallsAtEach(events, Waiting(p, events, host, now), i);
  }

  /** The buffer takes a call exactly when the history has room for it. */
  lemma AcceptsWhenRoom(p: BufferPolicy, events: seq<Event>, i: nat)
    requires p.loadThreshold > 0.0 && i < |events| && events[i].Enqueue?
    ensures Accepts(p, Run(p, events[..i]), events[i]) <==> Accepted(p, events, i)
  {
    CacheFollowsHistory(p, events[..i], events[i].host, events[i].now);
  }

  /** Never more than the maximum wait. */
  lemma {:induction false} NeverOverfull(p: BufferPolicy, events: seq<Event>, host: Id, now: int)
    requires p.loadThreshold > 0.0 && p.maxSize >= 0
    ensures |Waiting(p, events, host, now)| <= p.maxSize
    decreases |events|
  {
    if events != [] {
      NeverOverfull(p, events[..|events| - 1], host, now);
      NeverOverfull(p, events[..|events| - 1], host, events[|events| - 1].now);
    }
  }

  /** A flush clears: what waits afterwards was enqueued after it. */
  lemma {:induction false} WaitingSinceFlush(p: BufferPolicy, events: seq<Event>, host: Id, now: int, f: nat)
    requires p.loadThreshold > 0.0 && f < |events| && events[f].Flush? && events[f].host == host
    ensures forall i :: i in Waiting(p, events, host, now) ==> i > f
    decreases |events|
  {
    var init, e := events[..|events| - 1], events[|events| - 1];
    if f < |init| {
      WaitingSinceFlush(p, init, host, now, f);
      WaitingSinceFlush(p, init, host, e.now, f);
    }
  }

  /** No call is returned by two flushes, and each flush returns calls accepted before it. */
  lemma FlushedAtMostOnce(p: BufferPolicy, events: seq<Event>, f: nat, g: nat, i: nat)
    requires p.loadThreshold > 0.0 && f < g < |events| && events[f].Flush? && events[g].Flush?
    requires i in Waiting(p, events[..f], events[f].host, events[f].now)
    ensures i !in Waiting(p, events[..g], events[g].host, events[g].now)
  {
    if events[f].host == events[g].host {
      WaitingSinceFlush(p, events[..g], events[g].host, events[g].now, f);
    }
  }

  /** Only calls that were accepted wait. */
  lemma {:induction false} OnlyAcceptedWait(p: BufferPolicy, events: seq<Event>, host: Id, now: int, i: nat)
    requires p.loadThreshold > 0.0 && i in Waiting(p, events, host, now)
    ensures i < |events| && Accepted(p, events, i)
    decreases |events|
  {
    var init, e := events[..|events| - 1], events[|events| - 1];
    if i < |init| {
      assert events[..i] == init[..i];
      if e.host == host && i in Waiting(p, init, host, e.now) {
        OnlyAcceptedWait(p, init, host, e.now, i);
      } else {
        OnlyAcceptedWait(p, init, host, now, i);
      }
    } else {
      assert events[..i] == init;
    }
  }

  ghost predicate Timed(events: seq<Event>) {
    forall i, j :: 0 <= i <= j < |events| ==> events[i].now <= events[j].now
  }

  /** The buffer lives at least the minimum time to live after its last accepted call: until then, and
      without a flush, what waited when the call was accepted still waits in front, followed by it. */
  lemma {:induction false} LivesAtLeastMinTTL(p: BufferPolicy, events: seq<Event>, host: Id, now: int, i: nat)
    requires Sound(p) && Timed(events) && i < |events| && Accepted(p, events, i) && events[i].host == host
    requires forall j :: i <= j < |events| ==> !(events[j].Flush? && events[j].host == host)
    requires forall j :: i <= j < |events| && events[j].Enqueue? ==> events[j].load >= 0.0
    requires events[|events| - 1].now <= now < events[i].now + p.minTTL
    ensures Waiting(p, events[..i], host, events[i].now) + [i] <= Waiting(p, events, host, now)
    decreases |events|
  {
    var init, e := events[..|events| - 1], events[|events| - 1];
    if e.Enqueue? { TtlBetween(p, e.load); }
    if i == |init| {
      assert events[..i] == init;
    } else {
      assert events[..i] == init[..i];
      assert init[|init| - 1].now <= e.now;
      LivesAtLeastMinTTL(p, init, host, now, i);
      LivesAtLeastMinTTL(p, init, host, e.now, i);
      assert events[i].now <= e.now;
    }
  }

  // ---------- the buffer ----------

  class AdaptiveBuffer {
    const policy: BufferPolicy
    var cache: map<Id, Held>

    constructor (policy: BufferPolicy)
      ensures this.policy == policy && (policy.loadThreshold > 0.0 ==> cache == Run(policy, []))
    {
      this.policy := policy;
      cache := map[];
    }

    method Enqueue(hostId: Id, call: BufferedCall, load: real, now: int) returns (ok: bool)
      requires policy.loadThreshold > 0.0
      modifies this`cache
      ensures cache == Step(policy, old(cache), Event.Enqueue(hostId, call, load, now))
      ensures ok <==> Accepts(policy, old(cache), Event.Enqueue(hostId, call, load, now))
    {
      var existing := if hostId in cache && now < cache[hostId].expiresAt then cache[hostId].calls else [];
      if |existing| >= policy.maxSize { return false; }
      cache := cache[hostId := Held(existing + [call], now + TtlFor(policy, load))];
      return true;
    }

    method Flush(hostId: Id, now: int) returns (calls: seq<BufferedCall>)
      requires policy.loadThreshold > 0.0
      modifies this`cache
      ensures cache == Step(policy, old(cache), Event.Flush(hostId, now))
      ensures calls == Live(old(cache), hostId, now)
    {
      calls := if hostId in cache && now < cache[hostId].expiresAt then cache[hostId].calls else [];
      cache := cache - {hostId};
    }
  }
}
