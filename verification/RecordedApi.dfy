/**
  The recorded API server of demos/driver_support.py: a sequential protocol whose first failure is final.
  An exchange whose validation or action raises something other than the three caught errors uses up its
  operation without a failure and without a reply, so completion alone does not mean an exact session.
  */
module RecordedApi {
  import opened Wrappers
  import opened Bytes
  import opened Sequences
  import Cbor
  import CborDecoding

  const MAX_JSON: nat := 8 * 1024 * 1024

  datatype Method = Get | Post

  /** One exact unary exchange. */
  datatype Operation = Operation(
    id: string, method_: Method, path: string, request: Option<Cbor.Value>, response: Cbor.Value,
    idempotency: Option<string>, revision: Option<string>, parameters: seq<(string, string)>)

  /** A request body after JSON parsing; the payload is the decoded `payload_cbor`. */
  datatype Wire = Wire(
    id: string, payload: ByteString, dryRun: bool, parameters: seq<(string, string)>,
    idempotency: Option<string>, revision: Option<string>)

  /** What reading the body gives: strict JSON of that shape, anything else, or nesting that exhausts the parser. */
  datatype Body = Strict(wire: Wire) | Unreadable | TooDeep

  datatype Length = Absent | Malformed | Number(value: nat)

  /** A request as the handler sees it: headers that are missing or not numbers are `None`. */
  datatype Request = Request(
    method_: Method, path: string, operation: Option<string>, authorized: bool, timeout: Option<int>,
    idempotency: Option<string>, revision: Option<string>, length: Length, json: bool, body: Body)

  /** How an action ends: an error that is caught, another exception, or one that ends the serving thread. */
  datatype Action = Done | Raises | Escapes | Exits

  /** A request, how the operation's action then ends, and whether the client takes the reply. */
  datatype Exchange = Exchange(request: Request, action: Action, delivered: bool)

  /** Requests with another method, or malformed ones, are answered before the handler sees them. */
  datatype Arrival = Ignored | Dispatched(exchange: Exchange)

  datatype Envelope = Envelope(id: string, payload: ByteString)

  datatype Failure = AfterFailure | Extra | Invalid | ActionFailed | EncodingFailed

  datatype State = State(position: nat, failure: Option<Failure>, alive: bool)

  const INITIAL: State := State(0, None, true)

  // ---------------------------------------------------------------- operations and requests

  predicate Encodes(nfc: Cbor.Nfc, v: Cbor.Value) { Cbor.Accepts(nfc, v, 0, 0) }

  /** What the constructor of a recorded operation demands. */
  predicate ValidOperation(nfc: Cbor.Nfc, op: Operation) {
    && op.id != "" && op.path != "" && op.path[0] == '/' && '?' !in op.path
    && (op.method_ == Post <==> op.request.Some?)
    && |op.parameters| <= 8
    && Encodes(nfc, op.response)
    && (op.request.Some? ==> Encodes(nfc, op.request.value))
  }

  predicate ValidOperations(nfc: Cbor.Nfc, ops: seq<Operation>) {
    forall i :: 0 <= i < |ops| ==> ValidOperation(nfc, ops[i])
  }

  function ExpectedWire(nfc: Cbor.Nfc, op: Operation): (r: Wire) {
    Wire(op.id, if op.request.Some? then Cbor.Encode(nfc, op.request.value) else [], false, op.parameters,
         op.idempotency, op.revision)
  }

  predicate HeadersMatch(op: Operation, q: Request) {
    && q.method_ == op.method_ && q.path == op.path && q.operation == Some(op.id) && q.authorized
    && q.timeout.Some? && 1 <= q.timeout.value <= 300_000
    && q.idempotency == op.idempotency && q.revision == op.revision
  }

  /** The headers match and announce a body, so the body is read. */
  predicate ReachesBody(op: Operation, q: Request) {
    HeadersMatch(op, q) && q.method_ == Post && q.json && q.length.Number? && 1 <= q.length.value <= MAX_JSON
  }

  predicate Validates(nfc: Cbor.Nfc, op: Operation, q: Request) {
    if q.method_ == Get then HeadersMatch(op, q) && (q.length == Absent || q.length == Number(0))
    else ReachesBody(op, q) && q.body == Strict(ExpectedWire(nfc, op))
  }

  /**
    A request that validates for one operation validates for another exactly when the two are the same
    exchange; with a body, when their recorded requests also have one canonical form.
    */
  lemma {:induction false} RequestIdentifiesOperation(nfc: Cbor.Nfc, a: Operation, b: Operation, q: Request)
    requires ValidOperation(nfc, a) && ValidOperation(nfc, b) && Validates(nfc, a, q)
    ensures Validates(nfc, b, q) <==>
            && a.id == b.id && a.method_ == b.method_ && a.path == b.path
            && a.idempotency == b.idempotency && a.revision == b.revision
            && (q.method_ == Post ==> a.parameters == b.parameters && SameRequest(nfc, a, b))
  {
    if q.method_ == Post && b.request.Some? {
      SameEncoding(nfc, a.request.value, b.request.value);
    }
  }

  predicate SameRequest(nfc: Cbor.Nfc, a: Operation, b: Operation) {
    && a.request.Some? && b.request.Some?
    && CborDecoding.Canon(nfc, a.request.value) == CborDecoding.Canon(nfc, b.request.value)
  }

  lemma {:induction false} SameEncoding(nfc: Cbor.Nfc, v: Cbor.Value, w: Cbor.Value)
    requires Encodes(nfc, v) && Encodes(nfc, w)
    ensures Cbor.Encode(nfc, v) == Cbor.Encode(nfc, w) <==> CborDecoding.Canon(nfc, v) == CborDecoding.Canon(nfc, w)
  {
    CborDecoding.PrefixFree(nfc, v, w, [], []);
    assert Cbor.Encode(nfc, v) + [] == Cbor.Encode(nfc, v) && Cbor.Encode(nfc, w) + [] == Cbor.Encode(nfc, w);
  }

  // ---------------------------------------------------------------- judging one exchange

  /** What one exchange comes to: answered, answered in vain, refused, escaped, or the end of the thread. */
  datatype Verdict = Answered | Lost | Rejected(failure: Failure) | Escaped | Ended

  type Judge = (Operation, Exchange) -> Verdict

  function Judgement(nfc: Cbor.Nfc): (r: Judge) {
    (op: Operation, x: Exchange) =>
      if ReachesBody(op, x.request) && x.request.body.TooDeep? then Escaped
      else if !Validates(nfc, op, x.request) then Rejected(Invalid)
      else if x.action == Raises then Rejected(ActionFailed)
      else if x.action == Escapes then Escaped
      else if x.action == Exits then Ended
      else if !Encodes(nfc, op.response) then Rejected(EncodingFailed)
      else if x.delivered then Answered else Lost
  }

  function Answer(nfc: Cbor.Nfc): (r: Operation -> Envelope) {
    (op: Operation) => Envelope(op.id, Cbor.Encode(nfc, op.response))
  }

  // ---------------------------------------------------------------- the server

  class RecordedServer {
    const nfc: Cbor.Nfc
    const operations: seq<Operation>
    var position: nat
    var failure: Option<Failure>
    var alive: bool

    constructor (nfc: Cbor.Nfc, operations: seq<Operation>)
      ensures this.nfc == nfc && this.operations == operations && View() == INITIAL.(alive := false)
    {
      this.nfc, this.operations := nfc, operations;
      position, failure, alive := 0, None, false;
    }

    ghost function View(): (r: State)
      reads this
    {
      State(position, failure, alive)
    }

    /** Entering the context starts the serving thread. */
    method Start()
      modifies this`alive
      ensures View() == old(View()).(alive := true)
    {
      alive := true;
    }

    /** Only the first failure is remembered. */
    method Fail(message: Failure)
      modifies this`failure
      ensures failure == if old(failure).None? then Some(message) else old(failure)
    {
      if failure.None? {
        failure := Some(message);
      }
    }

    /** One exchange on the serving thread: the reply the client gets, if any. */
    method Handle(x: Exchange) returns (reply: Option<Envelope>)
      requires alive
      modifies this
      ensures View() == After(Judgement(nfc), operations, old(View()), x)
      ensures reply == Reply(Judgement(nfc), Answer(nfc), operations, old(View()), x)
    {
      reply := None;
      if failure.Some? {
        Fail(AfterFailure);
        return;
      }
      if position >= |operations| {
        Fail(Extra);
        return;
      }
      var operation := operations[position];
      position := position + 1;
      if ReachesBody(operation, x.request) && x.request.body.TooDeep? {
        return;
      }
      if !Validates(nfc, operation, x.request) {
        Fail(Invalid);
        return;
      }
      if x.action == Escapes {
        return;
      } else if x.action == Exits {
        alive := false;
        return;
      } else if x.action == Raises {
        Fail(ActionFailed);
        return;
      }
      var budget := new Cbor.Budget();
      var encoded := Cbor.DeterministicCbor(nfc, operation.response, 0, budget);
      if encoded.Failed? {
        Fail(EncodingFailed);
        return;
      }
      if x.delivered {
        reply := Some(Envelope(operation.id, encoded.bytes));
      }
    }

    /** A request that is ignored, or that meets a dead thread, changes nothing and gets no reply from the handler. */
    method Receive(arrival: Arrival) returns (reply: Option<Envelope>)
      modifies this
      ensures arrival.Ignored? ==> View() == old(View()) && reply.None?
      ensures arrival.Dispatched? ==> View() == After(Judgement(nfc), operations, old(View()), arrival.exchange)
      ensures arrival.Dispatched? ==> reply == Reply(Judgement(nfc), Answer(nfc), operations, old(View()), arrival.exchange)
    {
      reply := None;
      if arrival.Dispatched? && alive {
        reply := Handle(arrival.exchange);
      }
    }

    /** A whole client session. */
    method Serve(arrivals: seq<Arrival>) returns (replies: seq<Envelope>)
      requires View() == INITIAL
      modifies this
      ensures View() == Run(Judgement(nfc), operations, Exchanges(arrivals))
      ensures replies == Replies(Judgement(nfc), Answer(nfc), operations, Exchanges(arrivals))
    {
      replies := [];
      ghost var judge, answer := Judgement(nfc), Answer(nfc);
      for i := 0 to |arrivals|
        invariant View() == Run(judge, operations, Exchanges(arrivals[..i]))
        invariant replies == Replies(judge, answer, operations, Exchanges(arrivals[..i]))
      {
        Arrive(judge, answer, operations, arrivals, i);
        var reply := Receive(arrivals[i]);
        if reply.Some? {
          replies := replies + [reply.value];
        }
      }
      assert arrivals[..|arrivals|] == arrivals;
    }

    /** Completion: no failure, every operation used, and the thread still serving. */
    method AssertComplete() returns (ok: bool)
      ensures ok == Complete(operations, View())
    {
      ok := failure.None? && position == |operations| && alive;
    }
  }

  // ---------------------------------------------------------------- the protocol as a state machine

  function Exchanges(arrivals: seq<Arrival>): (r: seq<Exchange>)
    ensures |r| <= |arrivals|
  {
    if arrivals == [] then [] else
      var last := arrivals[|arrivals| - 1];
      Exchanges(arrivals[..|arrivals| - 1]) + if last.Dispatched? then [last.exchange] else []
  }

  /** Whether the next exchange is still matched against an operation. */
  predicate Serving(ops: seq<Operation>, st: State) {
    st.alive && st.failure.None? && st.position < |ops|
  }

  function After(judge: Judge, ops: seq<Operation>, st: State, x: Exchange): (r: State) {
    if !st.alive || st.failure.Some? then st
    else if st.position >= |ops| then st.(failure := Some(Extra))
    else
      var verdict := judge(ops[st.position], x);
      State(st.position + 1, if verdict.Rejected? then Some(verdict.failure) else None, verdict != Ended)
  }

  function Reply(judge: Judge, answer: Operation -> Envelope, ops: seq<Operation>, st: State, x: Exchange): (r: Option<Envelope>) {
    if Serving(ops, st) && judge(ops[st.position], x) == Answered then Some(answer(ops[st.position])) else None
  }

  function Run(judge: Judge, ops: seq<Operation>, xs: seq<Exchange>): (r: State) {
    if xs == [] then INITIAL else After(judge, ops, Run(judge, ops, xs[..|xs| - 1]), xs[|xs| - 1])
  }

  function Replies(judge: Judge, answer: Operation -> Envelope, ops: seq<Operation>, xs: seq<Exchange>): (r: seq<Envelope>) {
    if xs == [] then [] else
      var before, x := xs[..|xs| - 1], xs[|xs| - 1];
      var reply := Reply(judge, answer, ops, Run(judge, ops, before), x);
      Replies(judge, answer, ops, before) + if reply.Some? then [reply.value] else []
  }

  /** One more arrival is one more step, or none. */
  lemma {:induction false} Arrive(judge: Judge, answer: Operation -> Envelope, ops: seq<Operation>, arrivals: seq<Arrival>, i: nat)
    requires i < |arrivals|
    ensures var before, after := Exchanges(arrivals[..i]), Exchanges(arrivals[..i + 1]);
            if arrivals[i].Ignored? then after == before
            else
              && Run(judge, ops, after) == After(judge, ops, Run(judge, ops, before), arrivals[i].exchange)
              && var reply := Reply(judge, answer, ops, Run(judge, ops, before), arrivals[i].exchange);
                 Replies(judge, answer, ops, after) == Replies(judge, answer, ops, before) + if reply.Some? then [reply.value] else []
  {
    var before := Exchanges(arrivals[..i]);
    assert arrivals[..i + 1][..i] == arrivals[..i];
    if arrivals[i].Dispatched? {
      var after := before + [arrivals[i].exchange];
      assert Exchanges(arrivals[..i + 1]) == after;
      assert after[..|after| - 1] == before;
    } else {
      assert Exchanges(arrivals[..i + 1]) == before + [] == before;
    }
  }

  predicate Sound(st: State) { st.alive && st.failure.None? }

  predicate Complete(ops: seq<Operation>, st: State) {
    Sound(st) && st.position == |ops|
  }

  /** The exchanges take the first operations in order, and none is refused or ends the thread. */
  predicate Tolerated(judge: Judge, ops: seq<Operation>, xs: seq<Exchange>) {
    |xs| <= |ops| && forall i :: 0 <= i < |xs| ==> judge(ops[i], xs[i]) in {Answered, Lost, Escaped}
  }

  predicate NoneEscape(judge: Judge, ops: seq<Operation>, xs: seq<Exchange>) {
    forall i :: 0 <= i < |xs| && i < |ops| ==> judge(ops[i], xs[i]) != Escaped
  }

  predicate NoneIgnored(arrivals: seq<Arrival>) {
    forall i :: 0 <= i < |arrivals| ==> arrivals[i].Dispatched?
  }

  /** Every recorded operation was requested as recorded, in order, its action succeeded, and nothing else arrived. */
  predicate Exact(judge: Judge, ops: seq<Operation>, arrivals: seq<Arrival>) {
    && |arrivals| == |ops|
    && forall i :: 0 <= i < |ops| ==> arrivals[i].Dispatched? && judge(ops[i], arrivals[i].exchange) in {Answered, Lost}
  }

  // ---------------------------------------------------------------- failure and completion

  /** Once failed or ended, a server stays in the same state whatever arrives. */
  lemma {:induction false} FailureIsSticky(judge: Judge, ops: seq<Operation>, xs: seq<Exchange>, n: nat)
    requires n <= |xs| && !Sound(Run(judge, ops, xs[..n]))
    ensures Run(judge, ops, xs) == Run(judge, ops, xs[..n])
    decreases |xs|
  {
    if n == |xs| {
      assert xs[..n] == xs;
    } else {
      assert xs[..|xs| - 1][..n] == xs[..n];
      FailureIsSticky(judge, ops, xs[..|xs| - 1], n);
    }
  }

  /** The server is sound exactly while the exchanges are tolerated, and has then used one operation for each. */
  lemma {:induction false} SoundIffTolerated(judge: Judge, ops: seq<Operation>, xs: seq<Exchange>)
    ensures Sound(Run(judge, ops, xs)) <==> Tolerated(judge, ops, xs)
    ensures Sound(Run(judge, ops, xs)) ==> Run(judge, ops, xs).position == |xs|
  {
    if xs != [] {
      SoundIffTolerated(judge, ops, xs[..|xs| - 1]);
    }
  }

  /** Completion is one tolerated exchange for each operation. */
  lemma {:induction false} CompleteIffTolerated(judge: Judge, ops: seq<Operation>, xs: seq<Exchange>)
    ensures Complete(ops, Run(judge, ops, xs)) <==> |xs| == |ops| && Tolerated(judge, ops, xs)
  {
    SoundIffTolerated(judge, ops, xs);
  }

  lemma {:induction false} ExchangesOf(arrivals: seq<Arrival>)
    ensures |Exchanges(arrivals)| == |arrivals| <==> NoneIgnored(arrivals)
    ensures NoneIgnored(arrivals) ==> forall i :: 0 <= i < |arrivals| ==> Exchanges(arrivals)[i] == arrivals[i].exchange
  {
    if arrivals != [] {
      ExchangesOf(arrivals[..|arrivals| - 1]);
    }
  }

  /** A session is exact if and only if it completes with nothing ignored and nothing escaped. */
  lemma {:induction false} ExactIffCompleteAndClean(judge: Judge, ops: seq<Operation>, arrivals: seq<Arrival>)
    ensures Exact(judge, ops, arrivals) <==>
            && Complete(ops, Run(judge, ops, Exchanges(arrivals)))
            && NoneIgnored(arrivals) && NoneEscape(judge, ops, Exchanges(arrivals))
  {
    var xs := Exchanges(arrivals);
    CompleteIffTolerated(judge, ops, xs);
    ExchangesOf(arrivals);
    if Exact(judge, ops, arrivals) {
      assert NoneIgnored(arrivals);
      forall i | 0 <= i < |ops| ensures judge(ops[i], xs[i]) in {Answered, Lost} {
        assert xs[i] == arrivals[i].exchange;
      }
    }
    if NoneIgnored(arrivals) && NoneEscape(judge, ops, xs) && |xs| == |ops| && Tolerated(judge, ops, xs) {
      forall i | 0 <= i < |ops| ensures judge(ops[i], arrivals[i].exchange) in {Answered, Lost} {
        assert xs[i] == arrivals[i].exchange;
      }
    }
  }

  // ---------------------------------------------------------------- what escapes

  /** An exchange that cannot escape, whatever operation it meets: its body parses and its action raises nothing else. */
  predicate Contained(x: Exchange) { !x.request.body.TooDeep? && x.action != Escapes }

  /** An exchange escapes exactly when its body is reached and is too deep, or its action raises another exception. */
  lemma {:induction false} EscapesExactly(nfc: Cbor.Nfc, op: Operation, x: Exchange)
    ensures Judgement(nfc)(op, x) == Escaped <==>
            || (ReachesBody(op, x.request) && x.request.body.TooDeep?)
            || (Validates(nfc, op, x.request) && x.action == Escapes)
  {
  }

  /** For contained requests and actions, completion means an exact session and an exact session completes. */
  lemma {:induction false} CompleteIffExact(nfc: Cbor.Nfc, ops: seq<Operation>, arrivals: seq<Arrival>)
    requires forall i :: 0 <= i < |arrivals| ==> arrivals[i].Dispatched? && Contained(arrivals[i].exchange)
    ensures Complete(ops, Run(Judgement(nfc), ops, Exchanges(arrivals))) <==> Exact(Judgement(nfc), ops, arrivals)
  {
    var judge, xs := Judgement(nfc), Exchanges(arrivals);
    ExchangesOf(arrivals);
    assert NoneIgnored(arrivals);
    forall i | 0 <= i < |xs| && i < |ops| ensures judge(ops[i], xs[i]) != Escaped {
      assert xs[i] == arrivals[i].exchange && Contained(arrivals[i].exchange);
      EscapesExactly(nfc, ops[i], xs[i]);
    }
    ExactIffCompleteAndClean(judge, ops, arrivals);
  }

  // ---------------------------------------------------------------- replies

  /** The server still matched the exchange at an index against its operation, and answered it. */
  predicate AnsweredAt(judge: Judge, ops: seq<Operation>, xs: seq<Exchange>, i: nat) {
    i < |xs| && var st := Run(judge, ops, xs[..i]); Serving(ops, st) && judge(ops[st.position], xs[i]) == Answered
  }

  /** The positions whose operations were answered, in order. */
  function Positions(judge: Judge, ops: seq<Operation>, xs: seq<Exchange>): (r: seq<nat>) {
    if xs == [] then [] else
      var n := |xs| - 1;
      Positions(judge, ops, xs[..n]) + if AnsweredAt(judge, ops, xs, n) then [n] else []
  }

  function Responses(answer: Operation -> Envelope, ops: seq<Operation>, positions: seq<nat>): (r: seq<Envelope>)
    ensures |r| == |positions|
  {
    if positions == [] then [] else
      var last := positions[|positions| - 1];
      Responses(answer, ops, positions[..|positions| - 1]) + [if last < |ops| then answer(ops[last]) else Envelope("", [])]
  }

  predicate Increasing(ps: seq<nat>) {
    forall i, j :: 0 <= i < j < |ps| ==> ps[i] < ps[j]
  }

  lemma {:induction false} AnsweredBefore(judge: Judge, ops: seq<Operation>, xs: seq<Exchange>, i: nat)
    requires i + 1 < |xs|
    ensures AnsweredAt(judge, ops, xs[..|xs| - 1], i) == AnsweredAt(judge, ops, xs, i)
  {
    assert xs[..|xs| - 1][..i] == xs[..i];
  }

  lemma {:induction false} PositionsMember(judge: Judge, ops: seq<Operation>, xs: seq<Exchange>, i: nat)
    ensures i in Positions(judge, ops, xs) <==> AnsweredAt(judge, ops, xs, i)
  {
    if xs != [] {
      PositionsMember(judge, ops, xs[..|xs| - 1], i);
      if i + 1 < |xs| {
        AnsweredBefore(judge, ops, xs, i);
      }
    }
  }

  lemma {:induction false} PositionsIncrease(judge: Judge, ops: seq<Operation>, xs: seq<Exchange>)
    ensures Increasing(Positions(judge, ops, xs))
  {
    if xs != [] {
      var before := Positions(judge, ops, xs[..|xs| - 1]);
      PositionsIncrease(judge, ops, xs[..|xs| - 1]);
      forall k | 0 <= k < |before| ensures before[k] < |xs| - 1 {
        PositionsMember(judge, ops, xs[..|xs| - 1], before[k]);
      }
    }
  }

  /** An answered exchange got the response recorded at its own position. */
  lemma {:induction false} AnsweredInPlace(judge: Judge, ops: seq<Operation>, xs: seq<Exchange>, i: nat)
    requires AnsweredAt(judge, ops, xs, i)
    ensures i < |ops| && Run(judge, ops, xs[..i]).position == i
  {
    SoundIffTolerated(judge, ops, xs[..i]);
  }

  /** Whatever arrives, the replies are recorded responses, in recorded order, each at most once. */
  lemma {:induction false} RepliesAreRecorded(judge: Judge, answer: Operation -> Envelope, ops: seq<Operation>, xs: seq<Exchange>)
    ensures Replies(judge, answer, ops, xs) == Responses(answer, ops, Positions(judge, ops, xs))
    ensures Increasing(Positions(judge, ops, xs))
    ensures forall p :: p in Positions(judge, ops, xs) <==> AnsweredAt(judge, ops, xs, p)
  {
    PositionsIncrease(judge, ops, xs);
    forall p ensures p in Positions(judge, ops, xs) <==> AnsweredAt(judge, ops, xs, p) {
      PositionsMember(judge, ops, xs, p);
    }
    RepliesAtPositions(judge, answer, ops, xs);
  }

  lemma {:induction false} RepliesAtPositions(judge: Judge, answer: Operation -> Envelope, ops: seq<Operation>, xs: seq<Exchange>)
    ensures Replies(judge, answer, ops, xs) == Responses(answer, ops, Positions(judge, ops, xs))
  {
    if xs != [] {
      var n := |xs| - 1;
      var before := Positions(judge, ops, xs[..n]);
      RepliesAtPositions(judge, answer, ops, xs[..n]);
      if AnsweredAt(judge, ops, xs, n) {
        AnsweredInPlace(judge, ops, xs, n);
        assert (before + [n])[..|before|] == before;
      } else {
        assert Positions(judge, ops, xs) == before;
      }
    }
  }

  /** No answer follows an exchange that went unanswered. */
  predicate NoGap(judge: Judge, ops: seq<Operation>, xs: seq<Exchange>) {
    forall i, j :: 0 <= i < j < |xs| && AnsweredAt(judge, ops, xs, j) ==> AnsweredAt(judge, ops, xs, i)
  }

  lemma {:induction false} Next(ps: seq<nat>, n: nat)
    requires Increasing(ps) && n < |ps| && ps[n] >= n
    requires forall k :: 0 <= k < n ==> ps[k] == k
    requires forall p: nat, q: nat :: p < q && q in ps ==> p in ps
    ensures ps[n] == n
  {
    assert ps[n] in ps;
    assert n in ps;
    var k :| 0 <= k < |ps| && ps[k] == n;
  }

  lemma {:induction false} DownwardClosed(ps: seq<nat>, n: nat)
    requires Increasing(ps) && n <= |ps|
    requires forall p: nat, q: nat :: p < q && q in ps ==> p in ps
    ensures ps[..n] == Range(n)
  {
    RangeAt(n);
    if n > 0 {
      DownwardClosed(ps, n - 1);
      RangeAt(n - 1);
      var p := ps[n - 1];
      assert forall k :: 0 <= k < n - 1 ==> ps[k] == ps[..n - 1][k] == k;
      assert n >= 2 ==> ps[n - 2] == n - 2 && ps[n - 2] < p;
      Next(ps, n - 1);
      assert ps[..n] == ps[..n - 1] + [p];
    }
  }

  lemma {:induction false} GaplessIsInitial(judge: Judge, ops: seq<Operation>, xs: seq<Exchange>)
    requires NoGap(judge, ops, xs)
    ensures Positions(judge, ops, xs) == Range(|Positions(judge, ops, xs)|)
  {
    var ps := Positions(judge, ops, xs);
    forall p: nat, q: nat | p < q && q in ps ensures p in ps {
      PositionsMember(judge, ops, xs, q);
      PositionsMember(judge, ops, xs, p);
    }
    PositionsIncrease(judge, ops, xs);
    DownwardClosed(ps, |ps|);
    assert ps[..|ps|] == ps;
  }

  lemma {:induction false} InitialIsGapless(judge: Judge, ops: seq<Operation>, xs: seq<Exchange>)
    requires Positions(judge, ops, xs) == Range(|Positions(judge, ops, xs)|)
    ensures NoGap(judge, ops, xs)
  {
    var ps := Positions(judge, ops, xs);
    RangeAt(|ps|);
    forall i, j | 0 <= i < j < |xs| && AnsweredAt(judge, ops, xs, j) ensures AnsweredAt(judge, ops, xs, i) {
      PositionsMember(judge, ops, xs, j);
      PositionsMember(judge, ops, xs, i);
      assert i < |ps| ==> ps[i] == i;
    }
  }

  /** The replies are the first recorded responses if and only if no answer follows an unanswered exchange. */
  lemma {:induction false} RepliesArePrefix(judge: Judge, answer: Operation -> Envelope, ops: seq<Operation>, xs: seq<Exchange>)
    ensures Positions(judge, ops, xs) == Range(|Positions(judge, ops, xs)|) <==> NoGap(judge, ops, xs)
    ensures NoGap(judge, ops, xs) ==>
              Replies(judge, answer, ops, xs) == Responses(answer, ops, Range(|Replies(judge, answer, ops, xs)|))
  {
    RepliesAtPositions(judge, answer, ops, xs);
    if NoGap(judge, ops, xs) {
      GaplessIsInitial(judge, ops, xs);
    } else if Positions(judge, ops, xs) == Range(|Positions(judge, ops, xs)|) {
      InitialIsGapless(judge, ops, xs);
    }
  }

  /** While sound, the unanswered exchanges are exactly the lost and the escaped ones. */
  lemma {:induction false} UnansweredWhileSound(judge: Judge, ops: seq<Operation>, xs: seq<Exchange>, i: nat)
    requires Sound(Run(judge, ops, xs)) && i < |xs|
    ensures i < |ops| && (!AnsweredAt(judge, ops, xs, i) <==> judge(ops[i], xs[i]) in {Lost, Escaped})
  {
    SoundIffTolerated(judge, ops, xs);
    assert judge(ops[i], xs[i]) in {Answered, Lost, Escaped};
    assert Tolerated(judge, ops, xs[..i]);
    SoundIffTolerated(judge, ops, xs[..i]);
  }

  lemma {:induction false} ContainedVerdict(nfc: Cbor.Nfc, op: Operation, x: Exchange)
    requires Contained(x) && x.delivered
    ensures Judgement(nfc)(op, x) !in {Lost, Escaped}
  {
  }

  /** Contained exchanges whose replies are taken leave no gap, so their replies are a prefix. */
  lemma {:induction false} ContainedLeavesNoGap(nfc: Cbor.Nfc, ops: seq<Operation>, xs: seq<Exchange>)
    requires forall x :: x in xs ==> Contained(x) && x.delivered
    ensures NoGap(Judgement(nfc), ops, xs)
  {
    var judge := Judgement(nfc);
    forall i, j | 0 <= i < j < |xs| && AnsweredAt(judge, ops, xs, j) ensures AnsweredAt(judge, ops, xs, i) {
      UnansweredWhileSound(judge, ops, xs[..j], i);
      ContainedVerdict(nfc, ops[i], xs[i]);
      assert xs[..j][..i] == xs[..i];
    }
  }

  /** Responses were checked when the operations were built, so encoding one never fails. */
  lemma {:induction false} EncodingNeverFails(nfc: Cbor.Nfc, ops: seq<Operation>, xs: seq<Exchange>)
    requires ValidOperations(nfc, ops)
    ensures Run(Judgement(nfc), ops, xs).failure != Some(EncodingFailed)
  {
    if xs != [] {
      EncodingNeverFails(nfc, ops, xs[..|xs| - 1]);
    }
  }

  // ---------------------------------------------------------------- sessions that complete without being exact

  /** The request the recording expects. */
  function Matching(nfc: Cbor.Nfc, op: Operation): (r: Request) {
    Request(op.method_, op.path, Some(op.id), true, Some(1), op.idempotency, op.revision,
            if op.method_ == Get then Absent else Number(1), true, Strict(ExpectedWire(nfc, op)))
  }

  /** The expected exchange, or one whose body nests too deep or whose action escapes. */
  function Deviation(nfc: Cbor.Nfc, op: Operation, here: bool, deep: bool): (r: Exchange) {
    var q := Matching(nfc, op);
    if !here then Exchange(q, Done, true)
    else if deep then Exchange(q.(body := TooDeep), Done, true)
    else Exchange(q, Escapes, true)
  }

  lemma {:induction false} DeviationVerdict(nfc: Cbor.Nfc, op: Operation, here: bool, deep: bool)
    requires ValidOperation(nfc, op) && (here && deep ==> op.method_ == Post)
    ensures Judgement(nfc)(op, Deviation(nfc, op, here, deep)) == if here then Escaped else Answered
  {
  }

  /** The recording followed everywhere but at one position. */
  function Deviating(nfc: Cbor.Nfc, ops: seq<Operation>, k: nat, deep: bool): (r: seq<Arrival>) {
    seq(|ops|, i requires 0 <= i < |ops| => Dispatched(Deviation(nfc, ops[i], i == k, deep)))
  }

  lemma {:induction false} OneEscape(judge: Judge, ops: seq<Operation>, arrivals: seq<Arrival>, k: nat)
    requires |arrivals| == |ops| && k < |ops| && NoneIgnored(arrivals)
    requires forall i :: 0 <= i < |ops| ==> judge(ops[i], arrivals[i].exchange) == if i == k then Escaped else Answered
    ensures Complete(ops, Run(judge, ops, Exchanges(arrivals))) && !Exact(judge, ops, arrivals)
    ensures forall i :: 0 <= i < |ops| ==> (AnsweredAt(judge, ops, Exchanges(arrivals), i) <==> i != k)
  {
    var xs := Exchanges(arrivals);
    assert judge(ops[k], arrivals[k].exchange) == Escaped;
    ExchangesOf(arrivals);
    forall i | 0 <= i < |ops| ensures judge(ops[i], xs[i]) == if i == k then Escaped else Answered {
      assert xs[i] == arrivals[i].exchange;
    }
    CompleteIffTolerated(judge, ops, xs);
    forall i | 0 <= i < |ops| ensures AnsweredAt(judge, ops, xs, i) <==> i != k {
      UnansweredWhileSound(judge, ops, xs, i);
    }
  }

  /**
    For every recording and every position, a body that nests too deep for the parser, or an action that
    raises another exception, leaves the session complete although it is not exact, and its reply is missing.
    */
  lemma {:induction false} EscapeCompletes(nfc: Cbor.Nfc, ops: seq<Operation>, k: nat, deep: bool)
    requires ValidOperations(nfc, ops) && k < |ops| && (deep ==> ops[k].method_ == Post)
    ensures var arrivals := Deviating(nfc, ops, k, deep);
            && Complete(ops, Run(Judgement(nfc), ops, Exchanges(arrivals)))
            && !Exact(Judgement(nfc), ops, arrivals)
            && forall i :: 0 <= i < |ops| ==> (AnsweredAt(Judgement(nfc), ops, Exchanges(arrivals), i) <==> i != k)
  {
    var judge, arrivals := Judgement(nfc), Deviating(nfc, ops, k, deep);
    forall i | 0 <= i < |ops| ensures judge(ops[i], arrivals[i].exchange) == if i == k then Escaped else Answered {
      DeviationVerdict(nfc, ops[i], i == k, deep);
    }
    OneEscape(judge, ops, arrivals, k);
  }

  /** A request with another method after a complete session goes unnoticed. */
  lemma {:induction false} IgnoredGoesUnnoticed(judge: Judge, ops: seq<Operation>, arrivals: seq<Arrival>)
    ensures Run(judge, ops, Exchanges(arrivals + [Ignored])) == Run(judge, ops, Exchanges(arrivals))
    ensures !Exact(judge, ops, arrivals + [Ignored])
  {
    assert (arrivals + [Ignored])[..|arrivals|] == arrivals;
    assert Exchanges(arrivals) + [] == Exchanges(arrivals);
    assert (arrivals + [Ignored])[|arrivals|] == Ignored;
  }
}
