/** The calling half of HostCallDispatcher: calls awaiting chunks and a result, and the theorem that
    what becomes of a call depends on nothing but the messages about it, in order. */
module Calls {
  import opened Collections
  import opened Messages
  import opened RetryMachine

  /** The error of an error message: absent, an object with or without a message, or another value;
      `text` is the String() form of the value itself. */
  datatype Fault = NoFault | ObjectFault(message: Option<string>, text: string) | OtherFault(text: string)

  datatype Inbound = Chunk(data: Data) | Result | Fail(fault: Fault) | OtherType

  /** What a call resolves with: nothing, its only chunk, or the list of its chunks. */
  datatype Payload = Undefined | Single(data: Data) | Many(list: seq<Data>)

  datatype Settlement = Resolved(payload: Payload) | Rejected(message: string)

  const CALL_TIMEOUT_MS := 30000.0

  /** A call's chunks so far, the text that names it in a timeout error, and when its timer is due. */
  datatype Pending = Pending(chunks: seq<Data>, title: string, due: real)

  /** The pending calls, and the resolve and reject calls made so far, in order. */
  datatype Ledger = Ledger(pending: map<Id, Pending>, settled: seq<(Id, Settlement)>)

  const NO_CALLS := Ledger(map[], [])

  function Collected(chunks: seq<Data>): Payload {
    if |chunks| == 1 then Single(chunks[0])
    else if |chunks| > 1 then Many(chunks)
    else Undefined
  }

  function FaultText(f: Fault): string {
    match f
    case NoFault => "Unknown error"
    case ObjectFault(message, text) => OrElse(message, text)
    case OtherFault(text) => text
  }

  function Title(adapter: string, operation: string): string {
    adapter + "." + operation
  }

  function TimeoutText(title: string, call: Id): string {
    "Call timed out: " + title + " (requestId: " + call + ")"
  }

  function NotConnectedText(host: Id, ns: Id): string {
    "Host not connected: " + host + " (namespace: " + ns + ")"
  }

  function Settled(l: Ledger, call: Id, s: Settlement): Ledger {
    Ledger(l.pending - {call}, l.settled + [(call, s)])
  }

  function Received(l: Ledger, request: Option<Id>, msg: Inbound): Ledger {
    if request.None? || request.value == "" || request.value !in l.pending then l
    else
      var call := request.value;
      var p := l.pending[call];
      match msg
      case Chunk(data) => l.(pending := l.pending[call := p.(chunks := p.chunks + [data])])
      case Result => Settled(l, call, Resolved(Collected(p.chunks)))
      case Fail(fault) => Settled(l, call, Rejected(FaultText(fault)))
      case OtherType => l
  }

  function Expired(l: Ledger, call: Id): Ledger {
    if call in l.pending then Settled(l, call, Rejected(TimeoutText(l.pending[call].title, call))) else l
  }

  function Sent(l: Ledger, call: Id, title: string, now: real): Ledger {
    l.(pending := l.pending[call := Pending([], title, now + CALL_TIMEOUT_MS)])
  }

  // ---------- what becomes of a call ----------

  datatype Happening =
    | Send(call: Id, title: string, now: real)
    | Receive(request: Option<Id>, msg: Inbound)
    | Timeout(call: Id)

  function Step(l: Ledger, e: Happening): Ledger {
    match e
    case Send(call, title, now) => Sent(l, call, title, now)
    case Receive(request, msg) => Received(l, request, msg)
    case Timeout(call) => Expired(l, call)
  }

  function After(h: seq<Happening>): Ledger {
    if h == [] then NO_CALLS else Step(After(h[..|h| - 1]), h[|h| - 1])
  }

  predicate Concerns(e: Happening, call: Id) {
    match e
    case Send(_, _, _) => false
    case Receive(request, _) => request == Some(call)
    case Timeout(c) => c == call
  }

  predicate Final(e: Happening) {
    e.Timeout? || (e.Receive? && (e.msg.Result? || e.msg.Fail?))
  }

  /** The messages and the timeout about one call. */
  function Own(h: seq<Happening>, call: Id): seq<Happening> {
    if h == [] then []
    else Own(h[..|h| - 1], call) + (if Concerns(h[|h| - 1], call) then [h[|h| - 1]] else [])
  }

  lemma {:induction false} OwnConcern(h: seq<Happening>, call: Id)
    ensures forall e :: e in Own(h, call) ==> Concerns(e, call)
  {
    if h != [] { OwnConcern(h[..|h| - 1], call); }
  }

  function ChunksOf(h: seq<Happening>): seq<Data> {
    if h == [] then []
    else
      var e := h[|h| - 1];
      ChunksOf(h[..|h| - 1]) + (if e.Receive? && e.msg.Chunk? then [e.msg.data] else [])
  }

  /** Both keep the order: they go message by message, and each message gives what it holds. */
  lemma {:induction false} InOrder(a: seq<Happening>, b: seq<Happening>, call: Id)
    ensures Own(a + b, call) == Own(a, call) + Own(b, call)
    ensures ChunksOf(a + b) == ChunksOf(a) + ChunksOf(b)
    decreases |b|
  {
    if b == [] {
      assert a + b == a;
    } else {
      assert (a + b)[..|a + b| - 1] == a + b[..|b| - 1];
      InOrder(a, b[..|b| - 1], call);
    }
  }

  lemma OneMessage(e: Happening, call: Id)
    ensures Own([e], call) == if e == Timeout(call) || (e.Receive? && e.request == Some(call)) then [e] else []
    ensures ChunksOf([e]) == if e.Receive? && e.msg.Chunk? then [e.msg.data] else []
  {
    assert [e][..0] == [];
  }

  /** What a final message makes of a call, said of its own chunks and texts: a result resolves it with
      nothing, with its only chunk, or with the list of all in the order they arrived; an error message
      and the timer reject it. */
  ghost predicate SettledBy(s: Settlement, e: Happening, chunks: seq<Data>, title: string, call: Id) {
    match e
    case Timeout(_) => s == Rejected("Call timed out: " + title + " (requestId: " + call + ")")
    case Receive(_, Result) =>
      && (|chunks| == 0 ==> s == Resolved(Undefined))
      && (|chunks| == 1 ==> s == Resolved(Single(chunks[0])))
      && (|chunks| >= 2 ==> s == Resolved(Many(chunks)))
    case Receive(_, Fail(fault)) =>
      && (fault.NoFault? ==> s == Rejected("Unknown error"))
      && (fault.ObjectFault? && fault.message.Some? ==> s == Rejected(fault.message.value))
      && (fault.ObjectFault? && fault.message.None? ==> s == Rejected(fault.text))
      && (fault.OtherFault? ==> s == Rejected(fault.text))
    case _ => false
  }

  function SettlementsOf(s: seq<(Id, Settlement)>, call: Id): seq<Settlement> {
    if s == [] then []
    else SettlementsOf(s[..|s| - 1], call) + (if s[|s| - 1].0 == call then [s[|s| - 1].1] else [])
  }

  /** The position of the first final message, or the length when none is final. */
  function FirstFinal(own: seq<Happening>): (t: nat)
    ensures t <= |own| && (t < |own| ==> Final(own[t]))
    ensures forall j :: 0 <= j < t ==> !Final(own[j])
  {
    if own == [] then 0
    else
      var t := FirstFinal(own[..|own| - 1]);
      if t < |own| - 1 || Final(own[|own| - 1]) then t else |own|
  }

  /** The fate of a call by its own messages: as long as none is final it is pending with its chunks in
      order of arrival; from the first final one on it is settled once, by that one. */
  ghost predicate Fated(l: Ledger, call: Id, title: string, due: real, own: seq<Happening>) {
    var t := FirstFinal(own);
    if t == |own| then
      call in l.pending && l.pending[call] == Pending(ChunksOf(own), title, due) && SettlementsOf(l.settled, call) == []
    else
      call !in l.pending && SettledOnce(l, call, own[t], ChunksOf(own[..t]), title)
  }

  /** The call was settled, once, by this final message. */
  ghost predicate SettledOnce(l: Ledger, call: Id, e: Happening, chunks: seq<Data>, title: string) {
    exists s :: SettlementsOf(l.settled, call) == [s] && SettledBy(s, e, chunks, title, call)
  }

  lemma SettledOnceMore(l: Ledger, c: Id, s: Settlement, call: Id)
    ensures SettlementsOf(Settled(l, c, s).settled, call)
      == SettlementsOf(l.settled, call) + (if c == call then [s] else [])
  {
    assert Settled(l, c, s).settled[..|l.settled|] == l.settled;
  }

  /** A step about another call changes nothing for this one. */
  lemma OthersKeepFate(l: Ledger, call: Id, e: Happening)
    requires !Concerns(e, call) && !(e.Send? && e.call == call)
    ensures call in Step(l, e).pending <==> call in l.pending
    ensures call in l.pending ==> Step(l, e).pending[call] == l.pending[call]
    ensures SettlementsOf(Step(l, e).settled, call) == SettlementsOf(l.settled, call)
  {
    forall c, s | c != call ensures SettlementsOf(Settled(l, c, s).settled, call) == SettlementsOf(l.settled, call) {
      SettledOnceMore(l, c, s, call);
    }
  }

  lemma OtherStep(l: Ledger, call: Id, title: string, due: real, own: seq<Happening>, e: Happening)
    requires Fated(l, call, title, due, own)
    requires !Concerns(e, call) && !(e.Send? && e.call == call)
    ensures Fated(Step(l, e), call, title, due, own)
  {
    OthersKeepFate(l, call, e);
  }

  lemma OwnStep(l: Ledger, call: Id, title: string, due: real, own: seq<Happening>, e: Happening)
    requires Fated(l, call, title, due, own) && Concerns(e, call) && call != ""
    ensures Fated(Step(l, e), call, title, due, own + [e])
  {
    var own', t := own + [e], FirstFinal(own);
    assert own'[..|own'| - 1] == own;
    if t < |own| {
      assert own'[..t] == own[..t];
    } else if Final(e) {
      assert own'[..t] == own;
      FinalSettles(l, call, e);
    }
  }

  lemma TimeoutSettles(l: Ledger, call: Id)
    requires call in l.pending && SettlementsOf(l.settled, call) == []
    ensures SettledOnce(Step(l, Timeout(call)), call, Timeout(call), l.pending[call].chunks, l.pending[call].title)
  {
    SettledOnceMore(l, call, Rejected(TimeoutText(l.pending[call].title, call)), call);
  }

  lemma ResultSettles(l: Ledger, call: Id)
    requires call in l.pending && call != "" && SettlementsOf(l.settled, call) == []
    ensures var e := Receive(Some(call), Result);
      SettledOnce(Step(l, e), call, e, l.pending[call].chunks, l.pending[call].title)
  {
    SettledOnceMore(l, call, Resolved(Collected(l.pending[call].chunks)), call);
  }

  lemma FailSettles(l: Ledger, call: Id, fault: Fault)
    requires call in l.pending && call != "" && SettlementsOf(l.settled, call) == []
    ensures var e := Receive(Some(call), Fail(fault));
      SettledOnce(Step(l, e), call, e, l.pending[call].chunks, l.pending[call].title)
  {
    SettledOnceMore(l, call, Rejected(FaultText(fault)), call);
  }

  lemma FinalSettles(l: Ledger, call: Id, e: Happening)
    requires call in l.pending && SettlementsOf(l.settled, call) == []
    requires Concerns(e, call) && Final(e) && call != ""
    ensures call !in Step(l, e).pending
    ensures SettledOnce(Step(l, e), call, e, l.pending[call].chunks, l.pending[call].title)
  {
    match e
    case Timeout(_) => TimeoutSettles(l, call);
    case Receive(_, Result) => ResultSettles(l, call);
    case Receive(_, Fail(fault)) => FailSettles(l, call, fault);
  }

  lemma {:induction false} NotSentNotThere(h: seq<Happening>, call: Id)
    requires forall i :: 0 <= i < |h| ==> !(h[i].Send? && h[i].call == call)
    ensures call !in After(h).pending && SettlementsOf(After(h).settled, call) == []
    decreases |h|
  {
    if h != [] {
      NotSentNotThere(h[..|h| - 1], call);
      if !Concerns(h[|h| - 1], call) {
        OthersKeepFate(After(h[..|h| - 1]), call, h[|h| - 1]);
      }
    }
  }

  /** Every interleaving of any number of calls: the state of a call sent once, at position s, follows
      from the messages about it alone. Until the first final one it is pending and unsettled; that one
      settles it, once, on a result with its own chunks in order; later ones change nothing. */
  lemma {:induction false} CallFollowsItsOwnMessages(h: seq<Happening>, s: nat, call: Id)
    requires s < |h| && h[s].Send? && h[s].call == call && call != ""
    requires forall i :: 0 <= i < |h| && h[i].Send? && h[i].call == call ==> i == s
    ensures Fated(After(h), call, h[s].title, h[s].now + CALL_TIMEOUT_MS, Own(h[s + 1..], call))
    decreases |h|
  {
    var g, last := h[..|h| - 1], h[|h| - 1];
    if s == |h| - 1 {
      NotSentNotThere(g, call);
      assert h[s + 1..] == [];
    } else {
      assert g[s] == h[s];
      CallFollowsItsOwnMessages(g, s, call);
      OwnSnoc(h, s, call);
      if Concerns(last, call) {
        OwnStep(After(g), call, h[s].title, h[s].now + CALL_TIMEOUT_MS, Own(g[s + 1..], call), last);
      } else {
        assert Own(h[s + 1..], call) == Own(g[s + 1..], call);
        assert h[|h| - 1] == last && !(last.Send? && last.call == call);
        OtherStep(After(g), call, h[s].title, h[s].now + CALL_TIMEOUT_MS, Own(g[s + 1..], call), last);
      }
    }
  }

  lemma OwnSnoc(h: seq<Happening>, s: nat, call: Id)
    requires s < |h| - 1
    ensures Own(h[s + 1..], call)
      == Own(h[..|h| - 1][s + 1..], call) + (if Concerns(h[|h| - 1], call) then [h[|h| - 1]] else [])
  {
    var rest := h[s + 1..];
    assert rest[..|rest| - 1] == h[..|h| - 1][s + 1..] && rest[|rest| - 1] == h[|h| - 1];
  }

  /** What settled a call was its first final message. */
  lemma SettledByFinal(l: Ledger, call: Id, title: string, due: real, h: seq<Happening>, s: Settlement)
    requires Fated(l, call, title, due, Own(h, call)) && call !in l.pending && SettlementsOf(l.settled, call) == [s]
    ensures var own := Own(h, call);
      var t := FirstFinal(own);
      t < |own| && Concerns(own[t], call) && SettledBy(s, own[t], ChunksOf(own[..t]), title, call)
  {
    var own := Own(h, call);
    OwnConcern(h, call);
    assert own[FirstFinal(own)] in own;
  }

  /** Until its first final message a call is as it was sent, with the chunks so far; its timer is due
      30 s after it was sent. */
  lemma PendingAsSent(h: seq<Happening>, s: nat, call: Id)
    requires s < |h| && h[s].Send? && h[s].call == call && call != "" && call in After(h).pending
    requires forall i :: 0 <= i < |h| && h[i].Send? && h[i].call == call ==> i == s
    ensures After(h).pending[call] == Pending(ChunksOf(Own(h[s + 1..], call)), h[s].title, h[s].now + 30000.0)
  {
    CallFollowsItsOwnMessages(h, s, call);
  }

  lemma {:induction false} PendingWasSent(h: seq<Happening>, call: Id) returns (s: nat)
    requires call in After(h).pending
    ensures s < |h| && h[s].Send? && h[s].call == call
  {
    var last := h[|h| - 1];
    if last.Send? && last.call == call {
      s := |h| - 1;
    } else {
      s := PendingWasSent(h[..|h| - 1], call);
    }
  }

  /** A result by what came before it: nothing, the chunk, or the list of all in order; and any chunk
      that came for another call or after the result is in none of these. */
  lemma ResultByChunks(h: seq<Happening>, s: nat, call: Id)
    requires s < |h| && h[s].Send? && h[s].call == call && call != ""
    requires forall i :: 0 <= i < |h| && h[i].Send? && h[i].call == call ==> i == s
    requires var own := Own(h[s + 1..], call);
      FirstFinal(own) < |own| && own[FirstFinal(own)] == Receive(Some(call), Result)
    ensures var own := Own(h[s + 1..], call);
      var chunks := ChunksOf(own[..FirstFinal(own)]);
      && (|chunks| == 0 ==> SettlementsOf(After(h).settled, call) == [Resolved(Undefined)])
      && (|chunks| == 1 ==> SettlementsOf(After(h).settled, call) == [Resolved(Single(chunks[0]))])
      && (|chunks| >= 2 ==> SettlementsOf(After(h).settled, call) == [Resolved(Many(chunks))])
  {
    CallFollowsItsOwnMessages(h, s, call);
  }

  /** The texts a caller sees. */
  lemma Texts(adapter: string, operation: string, call: Id, host: Id, ns: Id)
    ensures TimeoutText(Title(adapter, operation), call) == "Call timed out: " + adapter + "." + operation + " (requestId: " + call + ")"
    ensures NotConnectedText(host, ns) == "Host not connected: " + host + " (namespace: " + ns + ")"
  {
    assert "Call timed out: " + (adapter + "." + operation) == "Call timed out: " + adapter + "." + operation;
  }

  /** At most one settlement, and none while pending: the two halves of the same fact. */
  lemma SettlesAtMostOnce(h: seq<Happening>, s: nat, call: Id)
    requires s < |h| && h[s].Send? && h[s].call == call && call != ""
    requires forall i :: 0 <= i < |h| && h[i].Send? && h[i].call == call ==> i == s
    ensures |SettlementsOf(After(h).settled, call)| == if call in After(h).pending then 0 else 1
  {
    CallFollowsItsOwnMessages(h, s, call);
  }

  /** Both ways in which the dispatcher itself fails a call count as retryable for the retry executor. */
  lemma DispatcherFailuresAreRetryable(adapter: string, operation: string, call: Id, host: Id, ns: Id)
    ensures Retryable(ErrorObject(TimeoutText(Title(adapter, operation), call)))
    ensures Retryable(ErrorObject(NotConnectedText(host, ns)))
  {
    var t := TimeoutText(Title(adapter, operation), call);
    assert "timed out" <= t[5..];
    var n := NotConnectedText(host, ns);
    assert "Host not connected" <= n[0..];
  }
}
