/** ExecutionRegistry: the active executions and the one cancellation each may receive. */
module Executions {
  import opened Collections
  import opened Messages

  /** An entry; `signal` is the reason its abort controller was aborted with. */
  datatype Execution = Execution(ns: Id, host: Id, signal: Option<Reason>, cancelledReason: Option<Reason>)

  /** The map with its insertion order. */
  datatype Registry = Registry(order: seq<Id>, entries: map<Id, Execution>)

  const NO_EXECUTIONS := Registry([], map[])

  ghost predicate Ordered(r: Registry) {
    NoDup(r.order) && forall x :: x in r.order <==> x in r.entries
  }

  function Register(r: Registry, id: Id, ns: Id, host: Id): Registry {
    Registry(Adjoin(r.order, id), r.entries[id := Execution(ns, host, None, None)])
  }

  lemma RegisterKeepsOrdered(r: Registry, id: Id, ns: Id, host: Id)
    requires Ordered(r)
    ensures Ordered(Register(r, id, ns, host))
  {
  }

  predicate Cancellable(r: Registry, id: Id) {
    id in r.entries && r.entries[id].signal.None?
  }

  function Cancel(r: Registry, id: Id, reason: Reason): Registry {
    if !Cancellable(r, id) then r
    else r.(entries := r.entries[id := r.entries[id].(signal := Some(reason), cancelledReason := Some(reason))])
  }

  function Remove(r: Registry, id: Id): Registry {
    Registry(Without(r.order, id), r.entries - {id})
  }

  predicate Victim(r: Registry, host: Id, id: Id) {
    Cancellable(r, id) && r.entries[id].host == host
  }

  function VictimSet(r: Registry, host: Id): set<Id> {
    set id | id in r.entries && Victim(r, host, id)
  }

  /** The executions a host disconnect cancels, in registration order. */
  function Victims(r: Registry, host: Id, order: seq<Id>): seq<Id> {
    if order == [] then []
    else
      var rest := Victims(r, host, order[..|order| - 1]);
      if Victim(r, host, order[|order| - 1]) then rest + [order[|order| - 1]] else rest
  }

  function CancelByHost(r: Registry, host: Id, reason: Reason): Registry {
    r.(entries := map id | id in r.entries ::
      if Victim(r, host, id) then r.entries[id].(signal := Some(reason), cancelledReason := Some(reason))
      else r.entries[id])
  }

  ghost predicate Precedes(order: seq<Id>, x: Id, y: Id) {
    exists i, j :: 0 <= i < j < |order| && order[i] == x && order[j] == y
  }

  /** The list of victims is exactly the unaborted executions of the host, each once. */
  lemma {:induction false} VictimsExact(r: Registry, host: Id, order: seq<Id>)
    requires NoDup(order)
    ensures forall id :: id in Victims(r, host, order) <==> id in order && Victim(r, host, id)
    ensures NoDup(Victims(r, host, order))
    decreases |order|
  {
    if order != [] {
      VictimsExact(r, host, order[..|order| - 1]);
      assert order == order[..|order| - 1] + [order[|order| - 1]];
    }
  }

  /** And they are listed in the order of registration. */
  lemma {:induction false} VictimsInOrder(r: Registry, host: Id, order: seq<Id>, a: nat, b: nat)
    requires NoDup(order) && a < b < |Victims(r, host, order)|
    ensures Precedes(order, Victims(r, host, order)[a], Victims(r, host, order)[b])
    decreases |order|
  {
    var init, last := order[..|order| - 1], order[|order| - 1];
    var v, w := Victims(r, host, order), Victims(r, host, init);
    assert order == init + [last];
    if b < |w| {
      VictimsInOrder(r, host, init, a, b);
      var i, j :| 0 <= i < j < |init| && init[i] == w[a] && init[j] == w[b];
      assert order[i] == v[a] && order[j] == v[b];
    } else {
      VictimsExact(r, host, init);
      assert w[a] in init;
      var i :| 0 <= i < |init| && init[i] == w[a];
      assert order[i] == v[a] && order[|init|] == v[b];
    }
  }

  lemma VictimsOneMore(r: Registry, host: Id, order: seq<Id>, i: nat)
    requires i < |order| && NoDup(order)
    ensures order[i] !in order[..i] && order[..i + 1] == order[..i] + [order[i]]
    ensures Victims(r, host, order[..i + 1])
      == Victims(r, host, order[..i]) + (if Victim(r, host, order[i]) then [order[i]] else [])
  {
    assert order[..i + 1][..i] == order[..i];
  }

  // ---------- one winner ----------

  datatype Op =
    | Add(id: Id, ns: Id, host: Id)
    | CancelOne(id: Id, reason: Reason)
    | CancelHost(host: Id, reason: Reason)
    | Drop(id: Id)

  function Step(r: Registry, op: Op): Registry {
    match op
    case Add(id, ns, host) => Register(r, id, ns, host)
    case CancelOne(id, reason) => Cancel(r, id, reason)
    case CancelHost(host, reason) => CancelByHost(r, host, reason)
    case Drop(id) => Remove(r, id)
  }

  function After(h: seq<Op>): Registry {
    if h == [] then NO_EXECUTIONS else Step(After(h[..|h| - 1]), h[|h| - 1])
  }

  /** The reason of a cancel of `id` that reports success in this step: a cancel that returns true, or a
      host disconnect that lists the execution among those it cancelled. */
  function Won(r: Registry, op: Op, id: Id): seq<Reason> {
    match op
    case CancelOne(x, reason) => if x == id && Cancellable(r, id) then [reason] else []
    case CancelHost(host, reason) => if id in Victims(r, host, r.order) then [reason] else []
    case _ => []
  }

  function Wins(h: seq<Op>, id: Id): seq<Reason> {
    if h == [] then []
    else Wins(h[..|h| - 1], id) + Won(After(h[..|h| - 1]), h[|h| - 1], id)
  }

  /** The reason of the first cancel aimed at the execution while it was registered: by its id, or by
      its host. */
  function FirstAim(own: seq<Op>, id: Id, host: Id): Option<Reason> {
    if own == [] then None
    else
      var past, last := own[..|own| - 1], own[|own| - 1];
      if FirstAim(past, id, host).Some? || Drop(id) in past then FirstAim(past, id, host)
      else
        match last
        case CancelOne(x, reason) => if x == id then Some(reason) else None
        case CancelHost(x, reason) => if x == host then Some(reason) else None
        case _ => None
  }

  lemma {:induction false} RegistryOrdered(h: seq<Op>)
    ensures Ordered(After(h))
    decreases |h|
  {
    if h != [] { RegistryOrdered(h[..|h| - 1]); }
  }

  function ListOf(o: Option<Reason>): seq<Reason> {
    if o.Some? then [o.value] else []
  }

  /** The registry and the wins so far are what the operations since the registration say. */
  ghost predicate Follows(r: Registry, wins: seq<Reason>, own: seq<Op>, id: Id, ns: Id, host: Id) {
    && wins == ListOf(FirstAim(own, id, host))
    && (if Drop(id) in own then id !in r.entries
        else id in r.entries
             && r.entries[id] == Execution(ns, host, FirstAim(own, id, host), FirstAim(own, id, host)))
  }

  lemma StepFollows(r: Registry, wins: seq<Reason>, op: Op, own: seq<Op>, id: Id, ns: Id, host: Id)
    requires Ordered(r) && Follows(r, wins, own, id, ns, host)
    requires !(op.Add? && op.id == id)
    ensures Follows(Step(r, op), wins + Won(r, op, id), own + [op], id, ns, host)
  {
    var own' := own + [op];
    assert own'[..|own'| - 1] == own;
    assert Drop(id) in own' <==> Drop(id) in own || op == Drop(id);
    if op.CancelHost? { VictimsExact(r, op.host, r.order); }
  }

  lemma {:induction false} NotAddedNotThere(h: seq<Op>, id: Id)
    requires forall i :: 0 <= i < |h| ==> !(h[i].Add? && h[i].id == id)
    ensures id !in After(h).entries && Wins(h, id) == []
    decreases |h|
  {
    if h != [] {
      var g := h[..|h| - 1];
      NotAddedNotThere(g, id);
      RegistryOrdered(g);
      if h[|h| - 1].CancelHost? { VictimsExact(After(g), h[|h| - 1].host, After(g).order); }
    }
  }

  ghost predicate NeverAdds(ops: seq<Op>, id: Id) {
    forall op :: op in ops ==> !(op.Add? && op.id == id)
  }

  lemma OneMoreOp(h: seq<Op>, op: Op, id: Id)
    ensures After(h + [op]) == Step(After(h), op)
    ensures Wins(h + [op], id) == Wins(h, id) + Won(After(h), op, id)
  {
    assert (h + [op])[..|h|] == h;
  }

  lemma {:induction false} WinsSince(before: seq<Op>, e: Op, own: seq<Op>)
    requires e.Add? && NeverAdds(before, e.id) && NeverAdds(own, e.id)
    ensures Follows(After(before + [e] + own), Wins(before + [e] + own, e.id), own, e.id, e.ns, e.host)
    decreases |own|
  {
    if own == [] {
      assert before + [e] + own == before + [e];
      OneMoreOp(before, e, e.id);
      NotAddedNotThere(before, e.id);
    } else {
      var past, last := own[..|own| - 1], own[|own| - 1];
      var g := before + [e] + past;
      assert own == past + [last] && before + [e] + own == g + [last];
      WinsSince(before, e, past);
      RegistryOrdered(g);
      OneMoreOp(g, last, e.id);
      StepFollows(After(g), Wins(g, e.id), last, past, e.id, e.ns, e.host);
    }
  }

  lemma OnlyAddedThere(h: seq<Op>, s: nat)
    requires s < |h| && h[s].Add?
    requires forall i :: 0 <= i < |h| && h[i].Add? && h[i].id == h[s].id ==> i == s
    ensures h[..s] + [h[s]] + h[s + 1..] == h
    ensures NeverAdds(h[..s], h[s].id) && NeverAdds(h[s + 1..], h[s].id)
  {
  }

  /** Any sequence of cancels by id, host disconnects and removals around one registration: the first
      cancel aimed at the registered execution wins and no other does; its reason is the signal's and
      the recorded one, for good; after the removal nothing cancels it. */
  lemma FirstCancelWins(h: seq<Op>, s: nat)
    requires s < |h| && h[s].Add?
    requires forall i :: 0 <= i < |h| && h[i].Add? && h[i].id == h[s].id ==> i == s
    ensures Follows(After(h), Wins(h, h[s].id), h[s + 1..], h[s].id, h[s].ns, h[s].host)
  {
    OnlyAddedThere(h, s);
    WinsSince(h[..s], h[s], h[s + 1..]);
  }

  // ---------- the order of the registry ----------

  ghost predicate AddedOnce(h: seq<Op>) {
    forall i, j :: 0 <= i < j < |h| && h[i].Add? && h[j].Add? ==> h[i].id != h[j].id
  }

  lemma WithoutKeepsPrecedes(order: seq<Id>, z: Id, x: Id, y: Id)
    requires Precedes(order, x, y) && x != z && y != z
    ensures Precedes(Without(order, z), x, y)
  {
    var i, j :| 0 <= i < j < |order| && order[i] == x && order[j] == y;
    if i > 0 {
      assert order[1..][i - 1] == x && order[1..][j - 1] == y;
      WithoutKeepsPrecedes(order[1..], z, x, y);
      var rest := Without(order[1..], z);
      var a, b :| 0 <= a < b < |rest| && rest[a] == x && rest[b] == y;
      if order[0] != z { assert Without(order, z)[a + 1] == x && Without(order, z)[b + 1] == y; }
    } else {
      assert order[1..][j - 1] == y;
      var rest := Without(order[1..], z);
      assert y in rest;
      var b :| 0 <= b < |rest| && rest[b] == y;
      assert Without(order, z)[0] == x && Without(order, z)[b + 1] == y;
    }
  }

  lemma StepKeepsPrecedes(r: Registry, op: Op, x: Id, y: Id)
    requires Precedes(r.order, x, y) && x in Step(r, op).entries && y in Step(r, op).entries
    ensures Precedes(Step(r, op).order, x, y)
  {
    if op.Drop? {
      WithoutKeepsPrecedes(r.order, op.id, x, y);
    } else {
      var i, j :| 0 <= i < j < |r.order| && r.order[i] == x && r.order[j] == y;
      assert Step(r, op).order[i] == x && Step(r, op).order[j] == y;
    }
  }

  lemma AddedLast(r: Registry, op: Op, x: Id)
    requires Ordered(r) && op.Add? && op.id !in r.entries && x in r.entries
    ensures Precedes(Step(r, op).order, x, op.id)
  {
    var i :| 0 <= i < |r.order| && r.order[i] == x;
    assert Step(r, op).order[i] == x && Step(r, op).order[|r.order|] == op.id;
  }

  /** The registry is in the order of registration: of two executions in it the one registered first comes
      first. */
  lemma {:induction false} OrderIsRegistration(h: seq<Op>, a: nat, b: nat)
    requires AddedOnce(h) && a < b < |h| && h[a].Add? && h[b].Add?
    requires h[a].id in After(h).entries && h[b].id in After(h).entries
    ensures Precedes(After(h).order, h[a].id, h[b].id)
    decreases |h|
  {
    var g, last := h[..|h| - 1], h[|h| - 1];
    RegistryOrdered(g);
    assert After(h) == Step(After(g), last);
    if b == |g| {
      assert forall i :: 0 <= i < |g| ==> g[i] == h[i];
      NotAddedNotThere(g, last.id);
      AddedLast(After(g), last, h[a].id);
    } else {
      assert g[a] == h[a] && g[b] == h[b];
      OrderIsRegistration(g, a, b);
      StepKeepsPrecedes(After(g), last, h[a].id, h[b].id);
    }
  }

  class ExecutionRegistry {
    var order: seq<Id>
    var entries: map<Id, Execution>

    ghost function View(): Registry
      reads this
    {
      Registry(order, entries)
    }

    constructor ()
      ensures View() == NO_EXECUTIONS
    {
      order, entries := [], map[];
    }

    method RegisterExecution(executionId: Id, namespaceId: Id, hostId: Id)
      modifies this
      ensures View() == Register(old(View()), executionId, namespaceId, hostId)
    {
      order := Adjoin(order, executionId);
      entries := entries[executionId := Execution(namespaceId, hostId, None, None)];
    }

    method CancelExecution(executionId: Id, reason: Reason) returns (ok: bool)
      modifies this
      ensures ok == Cancellable(old(View()), executionId)
      ensures View() == Cancel(old(View()), executionId, reason)
    {
      if executionId !in entries { return false; }
      var entry := entries[executionId];
      if entry.signal.Some? { return false; }
      entry := entry.(cancelledReason := Some(reason));
      entry := entry.(signal := Some(reason));
      entries := entries[executionId := entry];
      return true;
    }

    method RemoveExecution(executionId: Id)
      modifies this
      ensures View() == Remove(old(View()), executionId)
    {
      order := Without(order, executionId);
      entries := entries - {executionId};
    }

    method CancelByHostId(hostId: Id, reason: Reason) returns (cancelled: seq<Id>)
      requires Ordered(View())
      modifies this
      ensures View() == CancelByHost(old(View()), hostId, reason)
      ensures cancelled == Victims(old(View()), hostId, old(order))
    {
      ghost var before := View();
      cancelled := [];
      var i := 0;
      while i < |order|
        invariant 0 <= i <= |order| && order == before.order
        invariant cancelled == Victims(before, hostId, order[..i])
        invariant entries.Keys == before.entries.Keys
        invariant forall x :: x in entries ==>
          entries[x] == if x in order[..i] then CancelByHost(before, hostId, reason).entries[x] else before.entries[x]
      {
        var id := order[i];
        VictimsOneMore(before, hostId, order, i);
        var entry := entries[id];
        if entry.host == hostId && entry.signal.None? {
          entries := entries[id := entry.(cancelledReason := Some(reason), signal := Some(reason))];
          cancelled := cancelled + [id];
        }
        i := i + 1;
      }
      assert order[..i] == order;
    }
  }
}
