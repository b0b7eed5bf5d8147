/** HostCallDispatcher: the maps it mutates, method by method. */
module Dispatcher {
  import opened Collections
  import opened Messages
  import opened Routing
  import opened Calls

  class HostCallDispatcher {
    var connections: map<Id, map<Id, Id>>
    var capabilityIndex: map<Id, map<string, seq<Id>>>
    var pending: map<Id, Pending>
    /** The resolve and reject calls made on the promises handed out. */
    var settled: seq<(Id, Settlement)>
    /** The call messages written to host sockets: socket and request id. */
    var sent: seq<(Id, Id)>

    ghost function RouteView(): Routes
      reads this
    {
      Routes(connections, capabilityIndex)
    }

    ghost function CallView(): Ledger
      reads this
    {
      Ledger(pending, settled)
    }

    constructor ()
      ensures RouteView() == NO_ROUTES && CallView() == NO_CALLS && sent == []
    {
      connections, capabilityIndex, pending, settled, sent := map[], map[], map[], [], [];
    }

    method RegisterConnection(hostId: Id, namespaceId: Id, ws: Id, capabilities: seq<string>)
      modifies this`connections, this`capabilityIndex
      ensures RouteView() == Register(old(RouteView()), hostId, namespaceId, ws, capabilities)
    {
      connections := connections[namespaceId := Row(connections, namespaceId)[hostId := ws]];

      if |capabilities| > 0 {
        var row := Enlist(Row(capabilityIndex, namespaceId), capabilities, hostId);
        capabilityIndex := capabilityIndex[namespaceId := row];
      }
    }

    /** The loop over the capabilities: each listed one gains the host at its end, once. */
    static method Enlist(index: map<string, seq<Id>>, capabilities: seq<string>, hostId: Id)
      returns (row: map<string, seq<Id>>)
      ensures row == Enlisted(index, capabilities, hostId)
    {
      row := index;
      EnlistNone(index, hostId);
      for i := 0 to |capabilities|
        invariant row == Enlisted(index, capabilities[..i], hostId)
      {
        var cap := capabilities[i];
        EnlistStep(index, capabilities[..i], cap, hostId);
        assert capabilities[..i + 1] == capabilities[..i] + [cap];
        row := row[cap := Adjoin(ListOf(row, cap), hostId)];
      }
      assert capabilities[..|capabilities|] == capabilities;
    }

    method RemoveConnection(hostId: Id, namespaceId: Id)
      modifies this`connections, this`capabilityIndex
      ensures RouteView() == Remove(old(RouteView()), hostId, namespaceId)
    {
      if namespaceId in connections {
        connections := connections[namespaceId := connections[namespaceId] - {hostId}];
      }
      if namespaceId in capabilityIndex {
        var row := Delist(capabilityIndex[namespaceId], hostId);
        capabilityIndex := capabilityIndex[namespaceId := row];
      }
    }

    /** The loop over the sets of the index: each loses the host. */
    static method Delist(index: map<string, seq<Id>>, hostId: Id) returns (row: map<string, seq<Id>>)
      ensures row == Delisted(index, hostId)
    {
      row := index;
      var todo := row.Keys;
      while todo != {}
        invariant todo <= row.Keys == index.Keys
        invariant forall c :: c in row ==> row[c] == if c in todo then index[c] else Without(index[c], hostId)
        decreases |todo|
      {
        var cap :| cap in todo;
        row := row[cap := Without(row[cap], hostId)];
        todo := todo - {cap};
      }
    }

    /** Sends the call to the host's socket, or reports that there is none. `requestId` is the fresh id. */
    method Call(namespaceId: Id, hostId: Id, adapter: string, operation: string, requestId: Id, now: real)
      returns (failure: Option<Failure>)
      modifies this`pending, this`sent
      ensures failure.None? <==> Connected(RouteView(), namespaceId, hostId)
      ensures failure.Some? ==> failure.value == ErrorObject(NotConnectedText(hostId, namespaceId))
      ensures CallView() ==
        if failure.Some? then old(CallView()) else Sent(old(CallView()), requestId, Title(adapter, operation), now)
      ensures failure.None? ==>
        requestId in pending && pending[requestId] == Pending([], adapter + "." + operation, now + 30000.0)
      ensures sent == if failure.Some? then old(sent)
                      else old(sent) + [(connections[namespaceId][hostId], requestId)]
    {
      if namespaceId !in connections || hostId !in connections[namespaceId] {
        return Some(ErrorObject(NotConnectedText(hostId, namespaceId)));
      }
      pending := pending[requestId := Pending([], Title(adapter, operation), now + CALL_TIMEOUT_MS)];
      sent := sent + [(connections[namespaceId][hostId], requestId)];
      failure := None;
    }

    method HandleInbound(requestId: Option<Id>, msg: Inbound)
      modifies this`pending, this`settled
      ensures CallView() == Received(old(CallView()), requestId, msg)
      ensures requestId.Some? && requestId.value != "" && requestId.value in old(pending) && (msg.Result? || msg.Fail?) ==>
        && pending == old(pending) - {requestId.value}
        && exists s :: settled == old(settled) + [(requestId.value, s)]
             && SettledBy(s, Receive(requestId, msg), old(pending)[requestId.value].chunks,
                          old(pending)[requestId.value].title, requestId.value)
      ensures requestId.Some? && requestId.value != "" && requestId.value in old(pending) && msg.Chunk? ==>
        && settled == old(settled)
        && pending == old(pending)[requestId.value := old(pending)[requestId.value].(
                        chunks := old(pending)[requestId.value].chunks + [msg.data])]
    {
      if requestId.None? || requestId.value == "" { return; }
      var call := requestId.value;
      if call !in pending { return; }
      var entry := pending[call];
      match msg
      case Chunk(data) =>
        pending := pending[call := entry.(chunks := entry.chunks + [data])];
      case Result =>
        pending := pending - {call};
        settled := settled + [(call, Resolved(Collected(entry.chunks)))];
        assert SettledBy(Resolved(Collected(entry.chunks)), Receive(requestId, msg), entry.chunks, entry.title, call);
      case Fail(fault) =>
        pending := pending - {call};
        settled := settled + [(call, Rejected(FaultText(fault)))];
        assert SettledBy(Rejected(FaultText(fault)), Receive(requestId, msg), entry.chunks, entry.title, call);
      case OtherType =>
    }

    /** The callback of a call's timer, which settling the call clears. */
    method OnTimeout(requestId: Id)
      requires requestId in pending
      modifies this`pending, this`settled
      ensures CallView() == Expired(old(CallView()), requestId)
      ensures pending == old(pending) - {requestId}
      ensures settled == old(settled)
        + [(requestId, Rejected("Call timed out: " + old(pending)[requestId].title + " (requestId: " + requestId + ")"))]
    {
      var title := pending[requestId].title;
      pending := pending - {requestId};
      settled := settled + [(requestId, Rejected(TimeoutText(title, requestId)))];
    }

    method FirstHostWithCapability(namespaceId: Id, capability: string) returns (hostId: Option<Id>)
      ensures hostId == First(RouteView(), namespaceId, capability)
    {
      if namespaceId !in capabilityIndex || capability !in capabilityIndex[namespaceId] { return None; }
      var hosts := capabilityIndex[namespaceId][capability];
      var i := 0;
      while i < |hosts|
        invariant 0 <= i <= |hosts|
        invariant FirstConnected(RouteView(), namespaceId, hosts) == FirstConnected(RouteView(), namespaceId, hosts[i..])
      {
        if namespaceId in connections && hosts[i] in connections[namespaceId] { return Some(hosts[i]); }
        i := i + 1;
      }
      hostId := None;
    }
  }
}
