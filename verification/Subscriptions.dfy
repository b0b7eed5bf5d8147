/** SubscriptionRegistry: two mutually inverse indexes that stand for one relation between
    observer connections and executions. */
module Subscriptions {
  import opened Collections
  import opened Messages

  /** An event as an observer receives it; every event names its execution. */
  datatype Delivery = Delivery(execution: Id, event: Event)

  /** A client socket: whether its readyState is OPEN, and what was sent on it. */
  datatype Socket = Socket(open: bool, received: seq<Delivery>)

  /** The relation of an index from executions to connections. */
  function ByExecution(m: map<Id, set<Id>>): set<(Id, Id)> {
    set x, c | x in m && c in m[x] :: (c, x)
  }

  /** The relation of an index from connections to executions. */
  function ByConnection(m: map<Id, set<Id>>): set<(Id, Id)> {
    set c, x | c in m && x in m[c] :: (c, x)
  }

  ghost predicate NoEmptySets(m: map<Id, set<Id>>) {
    forall k :: k in m ==> m[k] != {}
  }

  /** The executions whose only subscriber is the connection. */
  ghost predicate OnlySubscriber(pairs: set<(Id, Id)>, c: Id, x: Id) {
    (c, x) in pairs && forall d :: (d, x) in pairs ==> d == c
  }

  function WithoutConnection(pairs: set<(Id, Id)>, c: Id): set<(Id, Id)> {
    set p | p in pairs && p.0 != c
  }

  function Delivered(wire: map<Id, Socket>, hears: set<Id>, d: Delivery): map<Id, Socket> {
    map c | c in wire :: if c in hears && wire[c].open then wire[c].(received := wire[c].received + [d]) else wire[c]
  }

  /** The sum of the sizes of the sets, over the given keys. */
  ghost function Total(m: map<Id, set<Id>>, keys: set<Id>): nat
    requires keys <= m.Keys
  {
    if keys == {} then 0
    else
      var k :| k in keys;
      |m[k]| + Total(m, keys - {k})
  }

  function Only(m: map<Id, set<Id>>, keys: set<Id>): map<Id, set<Id>> {
    map k | k in m && k in keys :: m[k]
  }

  lemma {:induction false} PairingKeepsSize(s: set<Id>, x: Id)
    ensures |(set c | c in s :: (c, x))| == |(set c | c in s :: (x, c))| == |s|
  {
    if s != {} {
      var k :| k in s;
      PairingKeepsSize(s - {k}, x);
      assert (set c | c in s :: (c, x)) == (set c | c in s - {k} :: (c, x)) + {(k, x)};
      assert (set c | c in s :: (x, c)) == (set c | c in s - {k} :: (x, c)) + {(x, k)};
    }
  }

  lemma OneExecutionMore(m: map<Id, set<Id>>, keys: set<Id>, k: Id)
    requires k in keys && k in m
    ensures |ByExecution(Only(m, keys))| == |ByExecution(Only(m, keys - {k}))| + |m[k]|
  {
    PairingKeepsSize(m[k], k);
    var rest, row := ByExecution(Only(m, keys - {k})), set c | c in m[k] :: (c, k);
    assert ByExecution(Only(m, keys)) == rest + row;
    assert rest !! row;
  }

  lemma OneConnectionMore(m: map<Id, set<Id>>, keys: set<Id>, k: Id)
    requires k in keys && k in m
    ensures |ByConnection(Only(m, keys))| == |ByConnection(Only(m, keys - {k}))| + |m[k]|
  {
    PairingKeepsSize(m[k], k);
    var rest, row := ByConnection(Only(m, keys - {k})), set x | x in m[k] :: (k, x);
    assert ByConnection(Only(m, keys)) == rest + row;
    assert rest !! row;
  }

  lemma {:induction false} TotalIsSize(m: map<Id, set<Id>>, keys: set<Id>)
    requires keys <= m.Keys
    ensures Total(m, keys) == |ByExecution(Only(m, keys))| == |ByConnection(Only(m, keys))|
  {
    if keys == {} {
      assert ByExecution(Only(m, keys)) == {} && ByConnection(Only(m, keys)) == {};
    } else {
      var k :| k in keys && Total(m, keys) == |m[k]| + Total(m, keys - {k});
      TotalIsSize(m, keys - {k});
      OneExecutionMore(m, keys, k);
      OneConnectionMore(m, keys, k);
    }
  }

  /** Summing the subscriptions from either index gives the number of pairs of the relation. */
  lemma TotalsAgree(byExecution: map<Id, set<Id>>, byConnection: map<Id, set<Id>>)
    requires ByExecution(byExecution) == ByConnection(byConnection)
    ensures Total(byExecution, byExecution.Keys) == |ByExecution(byExecution)|
    ensures Total(byConnection, byConnection.Keys) == |ByExecution(byExecution)|
  {
    assert Only(byExecution, byExecution.Keys) == byExecution;
    assert Only(byConnection, byConnection.Keys) == byConnection;
    TotalIsSize(byExecution, byExecution.Keys);
    TotalIsSize(byConnection, byConnection.Keys);
  }

  /** The relation determines both indexes: without empty sets there is nothing else in them. */
  lemma RelationDeterminesIndexes(m: map<Id, set<Id>>, n: map<Id, set<Id>>)
    requires NoEmptySets(m) && NoEmptySets(n)
    requires ByExecution(m) == ByExecution(n) || ByConnection(m) == ByConnection(n)
    ensures m == n
  {
    forall k, e ensures (k in m && e in m[k]) <==> (k in n && e in n[k]) {
      assert (k in m && e in m[k]) <==> (e, k) in ByExecution(m);
      assert (k in n && e in n[k]) <==> (e, k) in ByExecution(n);
      assert (k in m && e in m[k]) <==> (k, e) in ByConnection(m);
      assert (k in n && e in n[k]) <==> (k, e) in ByConnection(n);
    }
    forall k ensures k in m <==> k in n {
      if k in m { var e :| e in m[k]; }
      if k in n { var e :| e in n[k]; }
    }
    assert m.Keys == n.Keys;
    forall k | k in m ensures m[k] == n[k] {
      assert forall e :: e in m[k] <==> e in n[k];
    }
  }

  function SetAt(m: map<Id, set<Id>>, k: Id): set<Id> {
    if k in m then m[k] else {}
  }

  /** The index without element e under k, and without k when nothing is left. */
  function Taken(m: map<Id, set<Id>>, k: Id, e: Id): map<Id, set<Id>> {
    if k !in m then m
    else if m[k] - {e} == {} then m - {k}
    else m[k := m[k] - {e}]
  }

  lemma AddedRelation(m: map<Id, set<Id>>, k: Id, e: Id)
    requires NoEmptySets(m)
    ensures var m' := m[k := SetAt(m, k) + {e}];
      NoEmptySets(m') && ByExecution(m') == ByExecution(m) + {(e, k)} && ByConnection(m') == ByConnection(m) + {(k, e)}
  {
  }

  lemma TakenRelation(m: map<Id, set<Id>>, k: Id, e: Id)
    requires NoEmptySets(m)
    ensures NoEmptySets(Taken(m, k, e))
    ensures ByExecution(Taken(m, k, e)) == ByExecution(m) - {(e, k)}
    ensures ByConnection(Taken(m, k, e)) == ByConnection(m) - {(k, e)}
  {
    forall j, d
      ensures (d, j) in ByExecution(Taken(m, k, e)) <==> (d, j) in ByExecution(m) - {(e, k)}
      ensures (j, d) in ByConnection(Taken(m, k, e)) <==> (j, d) in ByConnection(m) - {(k, e)}
    {
      if j == k && j in m { assert d in m[k] - {e} <==> d in m[k] && d != e; }
    }
  }

  lemma DroppedRelation(m: map<Id, set<Id>>, k: Id)
    ensures ByConnection(m - {k}) == WithoutConnection(ByConnection(m), k)
  {
  }

  /** The relation after the connection has been dropped from some executions. */
  ghost function Minus(pairs: set<(Id, Id)>, c: Id, done: set<Id>): set<(Id, Id)> {
    set p | p in pairs && !(p.0 == c && p.1 in done)
  }

  lemma LastSubscriber(m: map<Id, set<Id>>, pairs: set<(Id, Id)>, c: Id, x: Id, done: set<Id>)
    requires ByExecution(m) == Minus(pairs, c, done)
    requires (c, x) in pairs && x !in done
    ensures x in m
    ensures m[x] - {c} == {} <==> OnlySubscriber(pairs, c, x)
  {
    assert (c, x) in ByExecution(m);
    forall d | d != c ensures d in m[x] - {c} <==> (d, x) in pairs {
      assert (d, x) in ByExecution(m) <==> (d, x) in pairs;
    }
    if m[x] - {c} != {} {
      var d :| d in m[x] - {c};
      assert (d, x) in pairs;
    }
  }

  lemma CountStep(m: map<Id, set<Id>>, done: set<Id>, x: Id)
    requires x in m && x !in done
    ensures |ByExecution(Only(m, done + {x}))| == |ByExecution(Only(m, done))| + |m[x]|
  {
    OneExecutionMore(m, done + {x}, x);
    assert done + {x} - {x} == done;
  }

  lemma AllDropped(pairs: set<(Id, Id)>, c: Id, done: set<Id>)
    requires forall x :: (c, x) in pairs ==> x in done
    ensures Minus(pairs, c, done) == WithoutConnection(pairs, c)
  {
    forall p | p in pairs && p.0 == c ensures p.1 in done {
      assert p == (c, p.1);
    }
  }

  class SubscriptionRegistry {
    var byExecution: map<Id, set<Id>>
    var byConnection: map<Id, set<Id>>
    /** The connections with a registered socket, and the sockets of all connections there were. */
    var sockets: set<Id>
    var wire: map<Id, Socket>

    ghost predicate Valid()
      reads this
    {
      && ByExecution(byExecution) == ByConnection(byConnection)
      && NoEmptySets(byExecution) && NoEmptySets(byConnection)
      && sockets <= wire.Keys
    }

    ghost function Pairs(): set<(Id, Id)>
      reads this
    {
      ByExecution(byExecution)
    }

    constructor ()
      ensures Valid() && Pairs() == {} && sockets == {} && wire == map[]
    {
      byExecution, byConnection, sockets, wire := map[], map[], {}, map[];
    }

    /** Takes over a socket that has just opened. */
    method RegisterSocket(connectionId: Id)
      requires Valid()
      modifies this`sockets, this`wire
      ensures Valid() && sockets == old(sockets) + {connectionId}
      ensures wire == old(wire)[connectionId := Socket(true, [])]
    {
      sockets := sockets + {connectionId};
      wire := wire[connectionId := Socket(true, [])];
    }

    /** The socket itself leaves the OPEN state. */
    method CloseSocket(connectionId: Id)
      requires Valid() && connectionId in wire
      modifies this`wire
      ensures Valid() && wire == old(wire)[connectionId := old(wire)[connectionId].(open := false)]
    {
      wire := wire[connectionId := wire[connectionId].(open := false)];
    }

    method Subscribe(connectionId: Id, executionId: Id)
      requires Valid()
      modifies this`byExecution, this`byConnection
      ensures Valid() && Pairs() == old(Pairs()) + {(connectionId, executionId)}
    {
      AddedRelation(byExecution, executionId, connectionId);
      AddedRelation(byConnection, connectionId, executionId);
      byExecution := byExecution[executionId := SetAt(byExecution, executionId) + {connectionId}];
      byConnection := byConnection[connectionId := SetAt(byConnection, connectionId) + {executionId}];
    }

    method Unsubscribe(connectionId: Id, executionId: Id)
      requires Valid()
      modifies this`byExecution, this`byConnection
      ensures Valid() && Pairs() == old(Pairs()) - {(connectionId, executionId)}
    {
      TakenRelation(byExecution, executionId, connectionId);
      TakenRelation(byConnection, connectionId, executionId);
      if executionId in byExecution {
        byExecution := byExecution[executionId := byExecution[executionId] - {connectionId}];
      }
      if connectionId in byConnection {
        byConnection := byConnection[connectionId := byConnection[connectionId] - {executionId}];
      }
      if executionId in byExecution && byExecution[executionId] == {} {
        byExecution := byExecution - {executionId};
      }
      if connectionId in byConnection && byConnection[connectionId] == {} {
        byConnection := byConnection - {connectionId};
      }
      assert byExecution == Taken(old(byExecution), executionId, connectionId);
      assert byConnection == Taken(old(byConnection), connectionId, executionId);
    }

    /** Forgets the connection; returns, each once, exactly the executions nobody else watches. */
    method RemoveConnection(connectionId: Id) returns (orphaned: seq<Id>)
      requires Valid()
      modifies this`byExecution, this`byConnection, this`sockets
      ensures Valid() && sockets == old(sockets) - {connectionId}
      ensures Pairs() == WithoutConnection(old(Pairs()), connectionId)
      ensures NoDup(orphaned)
      ensures forall x :: x in orphaned <==> OnlySubscriber(old(Pairs()), connectionId, x)
    {
      ghost var before := Pairs();
      DroppedRelation(byConnection, connectionId);
      sockets := sockets - {connectionId};
      if connectionId !in byConnection {
        assert forall p :: p in before ==> p in ByConnection(byConnection) && p.0 != connectionId;
        return [];
      }
      assert forall x :: x in byConnection[connectionId] <==> (connectionId, x) in before by {
        assert forall x :: (connectionId, x) in before <==> (connectionId, x) in ByConnection(byConnection);
      }
      AllDropped(before, connectionId, byConnection[connectionId]);
      byExecution, orphaned := DropSubscriber(byExecution, byConnection[connectionId], connectionId);
      byConnection := byConnection - {connectionId};
    }

    /** The loop over the connection's executions. */
    static method DropSubscriber(index: map<Id, set<Id>>, subscriptions: set<Id>, connectionId: Id)
      returns (m: map<Id, set<Id>>, orphaned: seq<Id>)
      requires NoEmptySets(index)
      requires forall x :: x in subscriptions ==> (connectionId, x) in ByExecution(index)
      ensures NoEmptySets(m) && ByExecution(m) == Minus(ByExecution(index), connectionId, subscriptions)
      ensures NoDup(orphaned)
      ensures forall x :: x in orphaned <==> x in subscriptions && OnlySubscriber(ByExecution(index), connectionId, x)
    {
      m, orphaned := index, [];
      ghost var before := ByExecution(index);
      var todo := subscriptions;
      while todo != {}
        invariant todo <= subscriptions
        invariant NoEmptySets(m)
        invariant ByExecution(m) == Minus(before, connectionId, subscriptions - todo)
        invariant NoDup(orphaned)
        invariant forall x :: x in orphaned <==> x in subscriptions - todo && OnlySubscriber(before, connectionId, x)
        decreases |todo|
      {
        var executionId :| executionId in todo;
        TakenRelation(m, executionId, connectionId);
        LastSubscriber(m, before, connectionId, executionId, subscriptions - todo);
        var subs := m[executionId] - {connectionId};
        if |subs| == 0 {
          m := m - {executionId};
          orphaned := orphaned + [executionId];
        } else {
          m := m[executionId := subs];
        }
        todo := todo - {executionId};
      }
    }

    /** Sends the event to every subscriber whose socket is registered and open, and to no one else. */
    method Broadcast(executionId: Id, event: Event)
      requires Valid()
      modifies this`wire
      ensures Valid()
      ensures wire == Delivered(old(wire), (set c | c in sockets && (c, executionId) in Pairs()),
                                Delivery(executionId, event))
    {
      ghost var hears := set c | c in sockets && (c, executionId) in Pairs();
      if executionId !in byExecution { return; }
      var todo := byExecution[executionId];
      ghost var before := wire;
      while todo != {}
        invariant todo <= byExecution[executionId] && wire.Keys == before.Keys
        invariant forall c :: c in wire ==>
          wire[c] == if c in todo then before[c] else Delivered(before, hears, Delivery(executionId, event))[c]
        decreases |todo|
      {
        var c :| c in todo;
        assert (c, executionId) in Pairs();
        if c in sockets && wire[c].open {
          wire := wire[c := wire[c].(received := wire[c].received + [Delivery(executionId, event)])];
        }
        todo := todo - {c};
      }
    }

    method SubscriptionCount() returns (total: nat)
      requires Valid()
      ensures total == |Pairs()|
      ensures total == Total(byExecution, byExecution.Keys) == Total(byConnection, byConnection.Keys)
    {
      total := 0;
      ghost var done := {};
      var todo := byExecution.Keys;
      assert ByExecution(Only(byExecution, done)) == {};
      while todo != {}
        invariant done !! todo && done + todo == byExecution.Keys
        invariant total == |ByExecution(Only(byExecution, done))|
        decreases |todo|
      {
        var x :| x in todo;
        CountStep(byExecution, done, x);
        total := total + |byExecution[x]|;
        done, todo := done + {x}, todo - {x};
      }
      assert Only(byExecution, done) == byExecution;
      TotalsAgree(byExecution, byConnection);
    }
  }
}
