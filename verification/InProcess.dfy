/** The in-process transport (transport/inprocess.go:110-152, 262-536) closed over the message handler: a
    request goes out, is served, and its answer comes back as a response, through bounded channels and
    one goroutine hand at each stage, while the context stays open. */
module InProcess {
  import opened Wrappers
  import opened Text
  import Rpc = JsonRpc

  // ---- Serving a request ----

  /** A decoded JSON value. */
  datatype Json = Null | Bool(b: bool) | Number(r: real) | Str(s: string) | Arr(items: seq<Json>) | Obj(fields: map<string, Json>)

  datatype Call = Call(methodName: string, params: Json)

  /** The names that have a handler. */
  datatype Server = Server(tools: set<string>, resources: set<string>, prompts: set<string>)

  /** What code outside the transport yields for one request: the printed list or server description, and
      what the registered handler returns if it is called. */
  datatype Yield = Yield(description: string, handler: Result<string, string>)

  const INVALID_PARAMS := -32602
  const NOT_FOUND := -32601
  const INTERNAL := -32603

  /** A string field of the parameters. */
  function Field(params: Json, key: string): Option<string> {
    if params.Obj? && key in params.fields && params.fields[key].Str? then Some(params.fields[key].s) else None
  }

  /** A request that a registered handler answers. */
  function Handled(params: Json, key: string, missing: string, known: set<string>, unknown: string, y: Yield): Rpc.Body {
    if !params.Obj? then Rpc.Error(INVALID_PARAMS, "Invalid params")
    else if Field(params, key).None? then Rpc.Error(INVALID_PARAMS, missing)
    else
      var name := Field(params, key).value;
      if name !in known then Rpc.Error(NOT_FOUND, unknown + name)
      else if y.handler.Err? then Rpc.Error(INTERNAL, y.handler.error)
      else Rpc.Result(y.handler.value)
  }

  function Serve(server: Server, call: Call, y: Yield): Rpc.Body {
    if call.methodName in {"initialize", "tools/list", "resources/list", "prompts/list"} then Rpc.Result(y.description)
    else if call.methodName == "tools/call" then
      Handled(call.params, "name", "Missing tool name", server.tools, "Tool not found: ", y)
    else if call.methodName == "resources/read" then
      Handled(call.params, "uri", "Missing URI", server.resources, "Resource not found: ", y)
    else if call.methodName == "prompts/get" then
      Handled(call.params, "name", "Missing prompt name", server.prompts, "Prompt not found: ", y)
    else Rpc.Error(NOT_FOUND, "Method not found: " + call.methodName)
  }

  // ---- States and steps ----

  datatype State = State(
    rpc: Rpc.State,                        // the correlation state; its outgoing channel is the first stage
    server: Server,
    calls: map<nat, Call>,                 // what each request asks
    serving: seq<nat>,                     // the request bridgeOutgoing handles, 0 for a notification
    reply: seq<Rpc.Response>,              // the response bridgeOutgoing sends
    incoming: seq<Rpc.Response>,           // incomingChan of the message handler
    parsed: seq<Rpc.Response>,             // the response processIncomingMessages sends on
    responses: seq<Rpc.Response>,          // responseChan
    served: map<nat, Rpc.Body>,            // history: how each request was served
    sent: seq<nat>,                        // history: the requests put out, in order
    delivered: seq<nat>)                   // history: the requests whose response was correlated

  datatype Step =
    | Begin | Register(call: Call) | Enqueue(id: nat) | Notify | TimerFires(id: nat)
    | AddTool(name: string) | AddResource(name: string) | AddPrompt(name: string)
    | BridgeReceive | BridgeServe(y: Yield) | BridgeSend | Parse | Dispatch | Correlate

  /** The steps that the transport takes by itself. */
  predicate Internal(step: Step) {
    step.BridgeReceive? || step.BridgeServe? || step.BridgeSend? || step.Parse? || step.Dispatch? || step.Correlate?
  }

  function Init(capacity: nat): State {
    State(Rpc.Init(capacity), Server({}, {}, {}), map[], [], [], [], [], [], map[], [], [])
  }

  predicate Enabled(s: State, step: Step) {
    match step
    case Begin => Rpc.Enabled(s.rpc, Rpc.Begin)
    case Register(_) => Rpc.Enabled(s.rpc, Rpc.Register) && s.rpc.counter < Rpc.MAX_EXACT
    case Enqueue(id) => Rpc.Enabled(s.rpc, Rpc.Enqueue(id))
    case Notify => Rpc.Enabled(s.rpc, Rpc.Notify)
    case TimerFires(id) => Rpc.Enabled(s.rpc, Rpc.TimerFires(id))
    case AddTool(_) => true
    case AddResource(_) => true
    case AddPrompt(_) => true
    case BridgeReceive => s.rpc.outgoing != [] && s.serving == [] && s.reply == []
    case BridgeServe(_) => s.serving != []
    case BridgeSend => s.reply != [] && |s.incoming| < s.rpc.capacity
    case Parse => s.incoming != [] && s.parsed == []
    case Dispatch => s.parsed != [] && |s.responses| < s.rpc.capacity
    case Correlate => s.responses != []
  }

  function CallOf(s: State, id: nat): Call {
    if id in s.calls then s.calls[id] else Call("", Null)
  }

  /** The response as it is after encoding and decoding: the id is a float. */
  function ResponseTo(id: nat, body: Rpc.Body): Rpc.Response {
    Rpc.Response(Rpc.Float(id as real), body)
  }

  function ReceiveStep(s: State): State
    requires s.rpc.outgoing != []
  {
    s.(rpc := Rpc.Apply(s.rpc, Rpc.TakeOutgoing), serving := s.rpc.outgoing[..1])
  }

  /** A request is served and answered, a notification is ignored. */
  function ServeStep(s: State, y: Yield): State
    requires s.serving != []
  {
    var id := s.serving[0];
    if id == 0 then s.(serving := [])
    else
      var body := Serve(s.server, CallOf(s, id), y);
      s.(serving := [], reply := [ResponseTo(id, body)], served := s.served[id := body])
  }

  /** The request that a response in transit belongs to. */
  function Owner(r: Rpc.Response): nat {
    if r.id.Float? && Rpc.Trunc(r.id.r) >= 0 then Rpc.Trunc(r.id.r) else 0
  }

  function CorrelateStep(s: State): State
    requires s.responses != []
  {
    s.(rpc := Rpc.RespondStep(s.rpc, s.responses[0]), responses := s.responses[1..],
       delivered := s.delivered + [Owner(s.responses[0])])
  }

  function Apply(s: State, step: Step): State
    requires Enabled(s, step)
  {
    match step
    case Begin => s.(rpc := Rpc.Apply(s.rpc, Rpc.Begin))
    case Register(call) => s.(rpc := Rpc.RegisterStep(s.rpc), calls := s.calls[s.rpc.counter + 1 := call])
    case Enqueue(id) => s.(rpc := Rpc.Apply(s.rpc, Rpc.Enqueue(id)), sent := s.sent + [id])
    case Notify => s.(rpc := Rpc.Apply(s.rpc, Rpc.Notify))
    case TimerFires(id) => s.(rpc := Rpc.Apply(s.rpc, Rpc.TimerFires(id)))
    case AddTool(name) => s.(server := s.server.(tools := s.server.tools + {name}))
    case AddResource(name) => s.(server := s.server.(resources := s.server.resources + {name}))
    case AddPrompt(name) => s.(server := s.server.(prompts := s.server.prompts + {name}))
    case BridgeReceive => ReceiveStep(s)
    case BridgeServe(y) => ServeStep(s, y)
    case BridgeSend => s.(incoming := s.incoming + s.reply, reply := [])
    case Parse => s.(incoming := s.incoming[1..], parsed := s.incoming[..1])
    case Dispatch => s.(responses := s.responses + s.parsed, parsed := [])
    case Correlate => CorrelateStep(s)
  }

  predicate Valid(s: State, steps: seq<Step>)
    decreases |steps|
  {
    steps == [] || (Enabled(s, steps[0]) && Valid(Apply(s, steps[0]), steps[1..]))
  }

  function Exec(s: State, steps: seq<Step>): State
    requires Valid(s, steps)
    decreases |steps|
  {
    if steps == [] then s else Exec(Apply(s, steps[0]), steps[1..])
  }

  // ---- The invariant ----

  /** The requests among what is in the outgoing channel. */
  function Wanted(q: seq<nat>): seq<nat> {
    if q == [] then [] else (if q[0] == 0 then [] else [q[0]]) + Wanted(q[1..])
  }

  function Owners(rs: seq<Rpc.Response>): (ids: seq<nat>)
    ensures |ids| == |rs|
    ensures forall i :: 0 <= i < |rs| ==> ids[i] == Owner(rs[i])
  {
    if rs == [] then [] else [Owner(rs[0])] + Owners(rs[1..])
  }

  /** The responses on their way back, oldest first, and the messages on their way out. */
  function Back(s: State): seq<Rpc.Response> {
    s.responses + (s.parsed + (s.incoming + s.reply))
  }

  function Out(s: State): seq<nat> {
    s.serving + s.rpc.outgoing
  }

  /** Every request put out, in order: its response was correlated, is on its way back, or it is still on
      its way out. */
  predicate Conserved(s: State) {
    s.delivered + (Owners(Back(s)) + Wanted(Out(s))) == s.sent
  }

  predicate Distinct(q: seq<nat>) {
    forall i, j :: 0 <= i < j < |q| ==> q[i] != q[j]
  }

  predicate Hands(s: State) {
    && |s.serving| + |s.reply| <= 1 && |s.parsed| <= 1
    && |s.incoming| <= s.rpc.capacity && |s.responses| <= s.rpc.capacity
  }

  /** A response on its way back carries its request's id and what it was served. */
  predicate Genuine(s: State, r: Rpc.Response) {
    var id := Owner(r);
    id > 0 && r.id == Rpc.Float(id as real) && id in s.served && r.body == s.served[id]
  }

  predicate AllGenuine(s: State) {
    forall r :: r in Back(s) ==> Genuine(s, r)
  }

  /** What has become of one issued id. */
  predicate Settled(s: State, id: nat)
    requires id in s.rpc.outcomes
  {
    var o := s.rpc.outcomes[id];
    && id > 0 && o != Rpc.Withdrawn && o != Rpc.ClosedByShutdown
    && (o.Answered? ==> id in s.delivered && id in s.served && o.response.body == s.served[id])
    && (id in s.delivered ==> o != Rpc.Waiting)
  }

  predicate AllSettled(s: State) {
    && !s.rpc.done
    && (forall id :: id in s.rpc.outcomes ==> Settled(s, id))
    && (forall id :: id in s.sent ==> id in s.rpc.enqueued)
    && (forall id :: id in s.rpc.enqueued ==> id in s.sent)
  }

  /** Exactly the requests are served whose response was correlated or is on its way back. */
  ghost predicate ServedSent(s: State) {
    forall id: nat :: id in s.served <==> id in s.delivered || id in Owners(Back(s))
  }

  ghost predicate Inv(s: State) {
    Rpc.Inv(s.rpc) && Hands(s) && Conserved(s) && Distinct(s.sent) && AllGenuine(s) && AllSettled(s) && ServedSent(s)
  }

  // ---- Steps keep the invariant ----

  lemma {:induction false} WantedConcat(a: seq<nat>, b: seq<nat>)
    ensures Wanted(a + b) == Wanted(a) + Wanted(b)
  {
    if a == [] {
      assert a + b == b;
    } else {
      assert (a + b)[1..] == a[1..] + b;
      WantedConcat(a[1..], b);
    }
  }

  lemma {:induction false} WantedOne(id: nat)
    ensures Wanted([id]) == if id == 0 then [] else [id]
  {
    assert [id][1..] == [];
    assert Wanted([]) == [];
  }

  lemma {:induction false} OwnersConcat(a: seq<Rpc.Response>, b: seq<Rpc.Response>)
    ensures Owners(a + b) == Owners(a) + Owners(b)
  {
  }

  /** The parts of a state that the invariant is about, but for where messages are. */
  predicate SameBooks(s: State, t: State) {
    && t.sent == s.sent && t.delivered == s.delivered && t.served == s.served
    && t.rpc.outcomes == s.rpc.outcomes && t.rpc.enqueued == s.rpc.enqueued && t.rpc.done == s.rpc.done
  }

  lemma {:induction false} SettledSame(s: State, t: State)
    requires AllSettled(s) && SameBooks(s, t)
    ensures AllSettled(t)
  {
    forall id | id in t.rpc.outcomes ensures Settled(t, id) {
      assert Settled(s, id);
    }
  }

  lemma {:induction false} SameFlow(s: State, t: State)
    requires Inv(s) && SameBooks(s, t) && Rpc.Inv(t.rpc) && Hands(t)
    requires Back(t) == Back(s) && Wanted(Out(t)) == Wanted(Out(s))
    ensures Inv(t)
  {
    SettledSame(s, t);
    forall r | r in Back(t) ensures Genuine(t, r) {
      assert Genuine(s, r);
    }
  }

  lemma {:induction false} ReceiveKeepsInv(s: State)
    requires Inv(s) && Enabled(s, BridgeReceive)
    ensures Inv(ReceiveStep(s))
  {
    var t := ReceiveStep(s);
    PullLast(s.rpc.outgoing);
    Rpc.StepKeepsInv(s.rpc, Rpc.TakeOutgoing);
    assert Out(t) == Out(s);
    SameFlow(s, t);
  }

  lemma {:induction false} MoveBack(s: State, step: Step)
    requires Enabled(s, step) && (step.BridgeSend? || step.Parse? || step.Dispatch?)
    ensures Back(Apply(s, step)) == Back(s)
  {
    match step
    case BridgeSend => assert s.incoming + s.reply + [] == s.incoming + s.reply;
    case Parse => Pull(s.incoming, s.reply);
    case Dispatch => Push(s.responses, s.parsed, s.incoming + s.reply);
  }

  /** Moves within the pipeline. */
  lemma {:induction false} MoveKeepsInv(s: State, step: Step)
    requires Inv(s) && Enabled(s, step) && (step.BridgeSend? || step.Parse? || step.Dispatch?)
    ensures Inv(Apply(s, step))
  {
    MoveBack(s, step);
    SameFlow(s, Apply(s, step));
  }

  lemma {:induction false} DistinctSplit(a: seq<nat>, x: nat, b: seq<nat>)
    requires Distinct(a + ([x] + b))
    ensures x !in a && x !in b
  {
    var q := a + ([x] + b);
    assert q[|a|] == x;
    forall i | 0 <= i < |a| ensures a[i] != x {
      assert q[i] == a[i];
    }
    forall i | 0 <= i < |b| ensures b[i] != x {
      assert q[|a| + 1 + i] == b[i];
    }
  }

  lemma {:induction false} ServedSplit(s: State)
    requires Conserved(s) && Distinct(s.sent) && s.serving != [] && s.serving[0] != 0 && |s.serving| == 1
    ensures var id := s.serving[0];
            && s.delivered + (Owners(Back(s)) + ([id] + Wanted(s.rpc.outgoing))) == s.sent
            && id !in s.delivered && id !in Owners(Back(s)) && id in s.sent
  {
    var id := s.serving[0];
    WantedConcat(s.serving, s.rpc.outgoing);
    WantedOne(id);
    assert s.serving == [id];
    Assoc(s.delivered, Owners(Back(s)), [id] + Wanted(s.rpc.outgoing));
    DistinctSplit(s.delivered + Owners(Back(s)), id, Wanted(s.rpc.outgoing));
    assert id in [id] + Wanted(s.rpc.outgoing);
  }

  lemma {:induction false} TruncOfReal(n: nat)
    ensures Rpc.Trunc(n as real) == n
  {
  }

  lemma {:induction false} ServeMoves(s: State, y: Yield)
    requires Inv(s) && s.serving != [] && s.serving[0] != 0
    ensures var t := ServeStep(s, y);
            Conserved(t) && Back(t) == Back(s) + t.reply && Hands(t) && Owners(Back(t)) == Owners(Back(s)) + [s.serving[0]]
  {
    var t := ServeStep(s, y);
    var id := s.serving[0];
    ServedSplit(s);
    TruncOfReal(id);
    assert s.reply == [] && s.incoming + [] == s.incoming;
    Assoc(s.parsed, s.incoming, t.reply);
    Assoc(s.responses, s.parsed + s.incoming, t.reply);
    OwnersConcat(Back(s), t.reply);
    assert Owners(t.reply) == [id];
    Assoc(Owners(Back(s)), [id], Wanted(s.rpc.outgoing));
    EmptyPlus(s.rpc.outgoing);
  }

  lemma {:induction false} ServeGenuine(s: State, y: Yield)
    requires Inv(s) && s.serving != [] && s.serving[0] != 0 && Back(ServeStep(s, y)) == Back(s) + ServeStep(s, y).reply
    requires s.serving[0] !in Owners(Back(s))
    ensures AllGenuine(ServeStep(s, y))
  {
    var t := ServeStep(s, y);
    TruncOfReal(s.serving[0]);
    forall r | r in Back(t) ensures Genuine(t, r) {
      if r in Back(s) {
        assert Genuine(s, r);
        OwnerIn(Back(s), r);
      }
    }
  }

  lemma {:induction false} OwnerIn(rs: seq<Rpc.Response>, r: Rpc.Response)
    requires r in rs
    ensures Owner(r) in Owners(rs)
  {
    var i :| 0 <= i < |rs| && rs[i] == r;
    assert Owners(rs)[i] == Owner(r);
  }

  lemma {:induction false} ServeSettled(s: State, y: Yield)
    requires Inv(s) && s.serving != [] && s.serving[0] != 0 && s.serving[0] in s.sent && s.serving[0] !in s.delivered
    ensures AllSettled(ServeStep(s, y))
  {
    var t := ServeStep(s, y);
    forall i | i in t.rpc.outcomes ensures Settled(t, i) {
      assert Settled(s, i);
    }
  }

  lemma {:induction false} ServeKeepsInv(s: State, y: Yield)
    requires Inv(s) && Enabled(s, BridgeServe(y))
    ensures Inv(ServeStep(s, y))
  {
    if s.serving[0] == 0 {
      IgnoreKeepsInv(s);
    } else {
      ServedSplit(s);
      ServeMoves(s, y);
      ServeGenuine(s, y);
      ServeSettled(s, y);
    }
  }

  lemma {:induction false} IgnoreKeepsInv(s: State)
    requires Inv(s) && s.serving != [] && s.serving[0] == 0
    ensures Inv(s.(serving := []))
  {
    WantedConcat(s.serving, s.rpc.outgoing);
    assert s.serving == [0];
    WantedOne(0);
    EmptyPlus(Wanted(s.rpc.outgoing));
    EmptyPlus(s.rpc.outgoing);
    SameFlow(s, s.(serving := []));
  }

  // ---- Correlating ----

  lemma {:induction false} BackFirst(s: State)
    requires s.responses != []
    ensures Back(s) == [s.responses[0]] + Back(s.(responses := s.responses[1..]))
    ensures Owners(Back(s)) == [Owner(s.responses[0])] + Owners(Back(s.(responses := s.responses[1..])))
  {
    var rest := s.parsed + (s.incoming + s.reply);
    HeadTail(s.responses);
    Assoc([s.responses[0]], s.responses[1..], rest);
    OwnersConcat([s.responses[0]], s.responses[1..] + rest);
  }

  /** What correlating a genuine response does to the correlation state. */
  lemma {:induction false} Answers(s: State, r: Rpc.Response, id: nat)
    requires Inv(s) && Genuine(s, r) && id == Owner(r)
    ensures var u := Rpc.RespondStep(s.rpc, r);
            && Rpc.Inv(u) && u.done == s.rpc.done && u.enqueued == s.rpc.enqueued && u.outgoing == s.rpc.outgoing
            && u.capacity == s.rpc.capacity
            && u.outcomes == if id in s.rpc.pending then s.rpc.outcomes[id := Rpc.Answered(r.(id := Rpc.Int(id)))]
                             else s.rpc.outcomes
  {
    LookupOwn(s.rpc.pending, r, id);
    if id in s.rpc.pending {
      Rpc.AnswerKeepsInv(s.rpc, id, r);
    }
  }

  lemma {:induction false} LookupOwn(pending: set<nat>, r: Rpc.Response, id: nat)
    requires r.id == Rpc.Float(id as real)
    ensures Rpc.Lookup(pending, r.id) == if id in pending then Some(id) else None
  {
    TruncOfReal(id);
  }

  lemma {:induction false} CorrelateConserves(s: State)
    requires Inv(s) && s.responses != []
    ensures Conserved(CorrelateStep(s)) && Back(CorrelateStep(s)) == Back(s.(responses := s.responses[1..]))
    ensures Owner(s.responses[0]) in s.sent && Genuine(s, s.responses[0])
  {
    var r := s.responses[0];
    var id := Owner(r);
    BackFirst(s);
    assert r in Back(s);
    Answers(s, r, id);
    var rest := Owners(Back(s.(responses := s.responses[1..])));
    Assoc([id], rest, Wanted(Out(s)));
    Assoc(s.delivered, [id], rest + Wanted(Out(s)));
    assert id in s.sent by {
      assert id in s.delivered + [id] + (rest + Wanted(Out(s)));
    }
  }

  lemma {:induction false} CorrelateSettled(s: State)
    requires Inv(s) && s.responses != [] && Owner(s.responses[0]) in s.sent && Genuine(s, s.responses[0])
    ensures AllSettled(CorrelateStep(s)) && Rpc.Inv(CorrelateStep(s).rpc)
  {
    var t := CorrelateStep(s);
    Answers(s, s.responses[0], Owner(s.responses[0]));
    forall i | i in t.rpc.outcomes ensures Settled(t, i) {
      assert Settled(s, i) && Rpc.IdOk(s.rpc, i);
      CorrelateSettlesOne(s, t, i);
    }
  }

  lemma {:induction false} CorrelateSettlesOne(s: State, t: State, i: nat)
    requires s.responses != [] && i in s.rpc.outcomes && Settled(s, i) && Rpc.IdOk(s.rpc, i)
    requires var r := s.responses[0];
             var id := Owner(r);
             && Genuine(s, r) && t.served == s.served && t.delivered == s.delivered + [id]
             && t.rpc.outcomes == if id in s.rpc.pending then s.rpc.outcomes[id := Rpc.Answered(r.(id := Rpc.Int(id)))]
                                  else s.rpc.outcomes
    ensures i in t.rpc.outcomes && Settled(t, i)
  {
  }

  lemma {:induction false} CorrelateKeepsInv(s: State)
    requires Inv(s) && s.responses != []
    ensures Inv(CorrelateStep(s))
  {
    var t := CorrelateStep(s);
    CorrelateConserves(s);
    CorrelateSettled(s);
    Answers(s, s.responses[0], Owner(s.responses[0]));
    BackFirst(s);
    forall r | r in Back(t) ensures Genuine(t, r) {
      assert r in Back(s);
      assert Genuine(s, r);
    }
  }

  // ---- Sending ----

  lemma {:induction false} EnqueueIsNew(s: State, id: nat)
    requires Inv(s) && Enabled(s, Enqueue(id))
    ensures id > 0 && id !in s.sent
  {
    assert Rpc.IdOk(s.rpc, id);
  }

  lemma {:induction false} DistinctLast(q: seq<nat>, x: nat)
    requires Distinct(q) && x !in q
    ensures Distinct(q + [x])
  {
  }

  lemma {:induction false} EnqueueConserves(s: State, t: State, id: nat)
    requires Conserved(s) && id > 0 && Back(t) == Back(s) && t.delivered == s.delivered && t.sent == s.sent + [id]
    requires t.serving == s.serving && t.rpc.outgoing == s.rpc.outgoing + [id]
    ensures Conserved(t)
  {
    Assoc(s.serving, s.rpc.outgoing, [id]);
    WantedConcat(Out(s), [id]);
    WantedOne(id);
    Assoc(Owners(Back(s)), Wanted(Out(s)), [id]);
    Assoc(s.delivered, Owners(Back(s)) + Wanted(Out(s)), [id]);
  }

  lemma {:induction false} EnqueueKeepsInv(s: State, id: nat)
    requires Inv(s) && Enabled(s, Enqueue(id))
    ensures Inv(Apply(s, Enqueue(id)))
  {
    var t := Apply(s, Enqueue(id));
    EnqueueIsNew(s, id);
    DistinctLast(s.sent, id);
    EnqueueConserves(s, t, id);
    Rpc.StepKeepsInv(s.rpc, Rpc.Enqueue(id));
    forall i | i in t.rpc.outcomes ensures Settled(t, i) {
      assert Settled(s, i);
    }
    forall r | r in Back(t) ensures Genuine(t, r) {
      assert Genuine(s, r);
    }
  }

  lemma {:induction false} NotifyKeepsInv(s: State)
    requires Inv(s) && Enabled(s, Notify)
    ensures Inv(Apply(s, Notify))
  {
    var t := Apply(s, Notify);
    Rpc.StepKeepsInv(s.rpc, Rpc.Notify);
    Assoc(s.serving, s.rpc.outgoing, [0]);
    WantedConcat(Out(s), [0]);
    WantedOne(0);
    assert Wanted(Out(s)) + [] == Wanted(Out(s));
    SameFlow(s, t);
  }

  /** A step of the correlation state alone that gives no id an answer and leaves the sent ids alone. */
  lemma {:induction false} RpcKeepsInv(s: State, t: State, step: Rpc.Step)
    requires Inv(s) && Rpc.Enabled(s.rpc, step) && t.rpc == Rpc.Apply(s.rpc, step)
    requires step.Begin? || step.Register? || step.TimerFires?
    requires t == s.(rpc := t.rpc, calls := t.calls)
    ensures Inv(t)
  {
    Rpc.StepKeepsInv(s.rpc, step);
    forall i | i in t.rpc.outcomes ensures Settled(t, i) {
      RpcSettled(s, t, step, i);
    }
    forall r | r in Back(t) ensures Genuine(t, r) {
      assert Genuine(s, r);
    }
  }

  lemma {:induction false} RpcSettled(s: State, t: State, step: Rpc.Step, i: nat)
    requires Inv(s) && Rpc.Enabled(s.rpc, step) && t.rpc == Rpc.Apply(s.rpc, step)
    requires step.Begin? || step.Register? || step.TimerFires?
    requires t == s.(rpc := t.rpc, calls := t.calls) && i in t.rpc.outcomes
    ensures Settled(t, i)
  {
    if i in s.rpc.outcomes {
      assert Settled(s, i) && Rpc.IdOk(s.rpc, i);
    } else {
      DeliveredWereSent(s, i);
    }
  }

  lemma {:induction false} DeliveredWereSent(s: State, i: nat)
    requires Inv(s) && i !in s.rpc.outcomes
    ensures i !in s.delivered
  {
    assert s.rpc.enqueued <= s.rpc.outcomes.Keys;
    forall x | x in s.delivered ensures x in s.rpc.outcomes {
      assert x in s.delivered + (Owners(Back(s)) + Wanted(Out(s)));
    }
  }

  lemma {:induction false} StepKeepsInv(s: State, step: Step)
    requires Inv(s) && Enabled(s, step)
    ensures Inv(Apply(s, step))
  {
    var t := Apply(s, step);
    match step
    case Begin => RpcKeepsInv(s, t, Rpc.Begin);
    case Register(call) => RpcKeepsInv(s, t, Rpc.Register);
    case TimerFires(id) => RpcKeepsInv(s, t, Rpc.TimerFires(id));
    case Enqueue(id) => EnqueueKeepsInv(s, id);
    case Notify => NotifyKeepsInv(s);
    case BridgeReceive => ReceiveKeepsInv(s);
    case BridgeServe(y) => ServeKeepsInv(s, y);
    case Correlate => CorrelateKeepsInv(s);
    case BridgeSend => MoveKeepsInv(s, step);
    case Parse => MoveKeepsInv(s, step);
    case Dispatch => MoveKeepsInv(s, step);
    case _ => SameFlow(s, t);
  }

  lemma {:induction false} RunKeepsInv(s: State, steps: seq<Step>)
    requires Inv(s) && Valid(s, steps)
    ensures Inv(Exec(s, steps))
    decreases |steps|
  {
    if steps != [] {
      StepKeepsInv(s, steps[0]);
      RunKeepsInv(Apply(s, steps[0]), steps[1..]);
    }
  }

  lemma {:induction false} InitInv(capacity: nat)
    ensures Inv(Init(capacity))
  {
    Rpc.InitInv(capacity);
  }

  // ---- Draining ----

  /** The steps left for what is in transit: each message takes six at most. */
  function Measure(s: State): nat {
    6 * |s.rpc.outgoing| + 5 * |s.serving| + 4 * |s.reply| + 3 * |s.incoming| + 2 * |s.parsed| + |s.responses|
  }

  predicate Drained(s: State) {
    s.rpc.outgoing == [] && s.serving == [] && s.reply == [] && s.incoming == [] && s.parsed == [] && s.responses == []
  }

  /** An internal step that is possible when something is in transit: the furthest message moves. */
  function NextStep(s: State): Step {
    if s.responses != [] then Correlate
    else if s.parsed != [] then Dispatch
    else if s.incoming != [] then Parse
    else if s.reply != [] then BridgeSend
    else if s.serving != [] then BridgeServe(Yield("", Ok("")))
    else BridgeReceive
  }

  /** No deadlock: while anything is in transit the transport can take a step by itself. */
  lemma {:induction false} NeverStuck(s: State)
    requires !Drained(s) && s.rpc.capacity > 0
    ensures Internal(NextStep(s)) && Enabled(s, NextStep(s))
  {
  }

  /** Closer to empty, with the same capacity and requests. */
  predicate Closer(s: State, t: State) {
    Measure(t) < Measure(s) && t.rpc.capacity == s.rpc.capacity && t.rpc.enqueued == s.rpc.enqueued
  }

  lemma {:induction false} CorrelateCloser(s: State)
    requires Inv(s) && s.responses != []
    ensures Closer(s, CorrelateStep(s))
  {
    var r := s.responses[0];
    assert r in Back(s);
    assert Genuine(s, r);
    Answers(s, r, Owner(r));
  }

  lemma {:induction false} ReceiveCloser(s: State)
    requires s.rpc.outgoing != [] && s.serving == []
    ensures Closer(s, ReceiveStep(s))
  {
  }

  lemma {:induction false} ServeCloser(s: State, y: Yield)
    requires s.serving != [] && s.reply == []
    ensures Closer(s, ServeStep(s, y))
  {
  }

  lemma {:induction false} MoveCloser(s: State, step: Step)
    requires Enabled(s, step) && (step.BridgeSend? || step.Parse? || step.Dispatch?)
    ensures Closer(s, Apply(s, step))
  {
  }

  /** Every internal step brings the loop closer to empty. */
  lemma {:induction false} StepDecreases(s: State, step: Step)
    requires Inv(s) && Enabled(s, step) && Internal(step)
    ensures Closer(s, Apply(s, step))
  {
    match step
    case BridgeReceive => ReceiveCloser(s);
    case BridgeServe(y) => ServeCloser(s, y);
    case Correlate => CorrelateCloser(s);
    case _ => MoveCloser(s, step);
  }

  predicate AllInternal(steps: seq<Step>) {
    forall step :: step in steps ==> Internal(step)
  }

  lemma {:induction false} RunDecreases(s: State, steps: seq<Step>)
    requires Inv(s) && Valid(s, steps) && AllInternal(steps)
    ensures Measure(Exec(s, steps)) + |steps| <= Measure(s)
    ensures Exec(s, steps).rpc.capacity == s.rpc.capacity && Exec(s, steps).rpc.enqueued == s.rpc.enqueued
    decreases |steps|
  {
    if steps != [] {
      assert steps[0] in steps;
      assert forall x :: x in steps[1..] ==> x in steps;
      StepDecreases(s, steps[0]);
      StepKeepsInv(s, steps[0]);
      RunDecreases(Apply(s, steps[0]), steps[1..]);
    }
  }

  /** Once nothing is in transit, every request that was put out has been answered, with its own id and
      with what it was served, or has timed out. */
  lemma {:induction false} DrainedIsAnswered(s: State, id: nat)
    requires Inv(s) && Drained(s) && id in s.rpc.enqueued
    ensures id in s.rpc.outcomes && id in s.served
    ensures var o := s.rpc.outcomes[id];
            o == Rpc.TimedOut || (o.Answered? && o.response == Rpc.Response(Rpc.Int(id), s.served[id]))
  {
    assert Back(s) == [] && Out(s) == [];
    assert s.delivered == s.sent by {
      assert Owners([]) == [] && Wanted([]) == [];
      assert s.delivered + ([] + []) == s.delivered;
    }
    assert Settled(s, id) && Rpc.IdOk(s.rpc, id);
  }

  /** Left to itself, from any reachable state, the loop stops after finitely many steps, and when it
      stops it is empty and every request that was put out is answered or has timed out. */
  lemma {:induction false} Drains(s: State, steps: seq<Step>, id: nat)
    requires Inv(s) && s.rpc.capacity > 0 && Valid(s, steps) && AllInternal(steps)
    requires forall step :: Internal(step) ==> !Enabled(Exec(s, steps), step)
    ensures |steps| <= Measure(s) && Drained(Exec(s, steps))
    ensures id in s.rpc.enqueued ==>
      var t := Exec(s, steps);
      id in t.rpc.outcomes && id in t.served
      && (t.rpc.outcomes[id] == Rpc.TimedOut
          || (t.rpc.outcomes[id].Answered? && t.rpc.outcomes[id].response == Rpc.Response(Rpc.Int(id), t.served[id])))
  {
    var t := Exec(s, steps);
    RunDecreases(s, steps);
    RunKeepsInv(s, steps);
    assert Drained(t) by {
      if !Drained(t) {
        NeverStuck(t);
      }
    }
    if id in s.rpc.enqueued {
      DrainedIsAnswered(t, id);
    }
  }

  /** How a request is served is decided once, by the server and the request as they are then. */
  lemma {:induction false} ServedOnce(s: State, step: Step, id: nat)
    requires Inv(s) && Enabled(s, step)
    ensures var t := Apply(s, step);
            && (id in s.served ==> id in t.served && t.served[id] == s.served[id])
            && (id in t.served && id !in s.served ==>
                  step.BridgeServe? && s.serving == [id] && t.served[id] == Serve(s.server, CallOf(s, id), step.y))
  {
    if step.BridgeServe? && s.serving[0] != 0 {
      NotServedYet(s, s.serving[0]);
    }
  }

  lemma {:induction false} NotServedYet(s: State, id: nat)
    requires Inv(s) && s.serving == [id] && id != 0
    ensures id !in s.served
  {
    ServedSplit(s);
  }

  // ---- The transport ----

  /** The transport around its message handler. Each goroutine's loop is cut at its sends and receives. */
  class InProcessTransport {
    const messageHandler: Rpc.MessageHandler
    var tools: set<string>
    var resources: set<string>
    var prompts: set<string>
    var calls: map<nat, Call>
    var serving: seq<nat>
    var reply: seq<Rpc.Response>
    var incoming: seq<Rpc.Response>
    var parsed: seq<Rpc.Response>
    var responses: seq<Rpc.Response>
    ghost var served: map<nat, Rpc.Body>
    ghost var sent: seq<nat>
    ghost var delivered: seq<nat>

    ghost function View(): State
      reads this, messageHandler
    {
      State(messageHandler.View(), Server(tools, resources, prompts), calls, serving, reply, incoming, parsed, responses,
            served, sent, delivered)
    }

    constructor ()
      ensures View() == Init(100)
    {
      messageHandler := new Rpc.MessageHandler(100);
      tools, resources, prompts, calls := {}, {}, {}, map[];
      serving, reply, incoming, parsed, responses := [], [], [], [], [];
      served, sent, delivered := map[], [], [];
    }

    method AddTool(name: string)
      modifies `tools
      ensures View() == Apply(old(View()), Step.AddTool(name))
    {
      tools := tools + {name};
    }

    method AddResource(uri: string)
      modifies `resources
      ensures View() == Apply(old(View()), Step.AddResource(uri))
    {
      resources := resources + {uri};
    }

    method AddPrompt(name: string)
      modifies `prompts
      ensures View() == Apply(old(View()), Step.AddPrompt(name))
    {
      prompts := prompts + {name};
    }

    /** The part of SendRequest that gives out the id and stores the pending request. */
    method StartRequest(call: Call) returns (id: nat)
      requires Enabled(View(), Register(call))
      modifies messageHandler, `calls
      ensures id == old(messageHandler.counter) + 1
      ensures View() == Apply(old(View()), Register(call))
    {
      id := messageHandler.RegisterRequest();
      calls := calls[id := call];
    }

    /** The send at the end of SendRequest. */
    method PutOut(id: nat)
      requires Enabled(View(), Enqueue(id)) && !messageHandler.done
      modifies messageHandler, `sent
      ensures View() == Apply(old(View()), Enqueue(id))
    {
      var ok := messageHandler.FinishSend(id);
      sent := sent + [id];
    }

    method BridgeOutgoingReceive()
      requires Enabled(View(), BridgeReceive)
      modifies messageHandler`outgoing, `serving
      ensures View() == ReceiveStep(old(View()))
    {
      var id := messageHandler.ReceiveOutgoing();
      serving := [id];
    }

    /** A string field of the parameters, with the two ways it can be missing. */
    method ReadParam(params: Json, key: string, missing: string) returns (r: Result<string, Rpc.Body>)
      ensures !params.Obj? ==> r == Err(Rpc.Error(INVALID_PARAMS, "Invalid params"))
      ensures params.Obj? && Field(params, key).None? ==> r == Err(Rpc.Error(INVALID_PARAMS, missing))
      ensures Field(params, key).Some? ==> r == Ok(Field(params, key).value)
    {
      if !params.Obj? {
        return Err(Rpc.Error(INVALID_PARAMS, "Invalid params"));
      }
      if key !in params.fields || !params.fields[key].Str? {
        return Err(Rpc.Error(INVALID_PARAMS, missing));
      }
      return Ok(params.fields[key].s);
    }

    method CallHandler(params: Json, key: string, missing: string, known: set<string>, unknown: string, y: Yield)
      returns (body: Rpc.Body)
      ensures body == Handled(params, key, missing, known, unknown, y)
    {
      var name := ReadParam(params, key, missing);
      if name.Err? {
        return name.error;
      }
      if name.value !in known {
        return Rpc.Error(NOT_FOUND, unknown + name.value);
      }
      if y.handler.Err? {
        return Rpc.Error(INTERNAL, y.handler.error);
      }
      return Rpc.Result(y.handler.value);
    }

    method HandleRequest(call: Call, y: Yield) returns (body: Rpc.Body)
      ensures body == Serve(Server(tools, resources, prompts), call, y)
    {
      match call.methodName {
        case "initialize" => return Rpc.Result(y.description);
        case "tools/list" => return Rpc.Result(y.description);
        case "tools/call" =>
          body := CallHandler(call.params, "name", "Missing tool name", tools, "Tool not found: ", y);
        case "resources/list" => return Rpc.Result(y.description);
        case "resources/read" =>
          body := CallHandler(call.params, "uri", "Missing URI", resources, "Resource not found: ", y);
        case "prompts/list" => return Rpc.Result(y.description);
        case "prompts/get" =>
          body := CallHandler(call.params, "name", "Missing prompt name", prompts, "Prompt not found: ", y);
        case _ => return Rpc.Error(NOT_FOUND, "Method not found: " + call.methodName);
      }
    }

    /** bridgeOutgoing between its receive and its send: what has an id is answered. */
    method BridgeOutgoingServe(y: Yield)
      requires serving != [] && (serving[0] != 0 ==> serving[0] in calls)
      modifies `serving, `reply, `served
      ensures View() == ServeStep(old(View()), y)
    {
      var id := serving[0];
      serving := [];
      if id != 0 {
        var body := HandleRequest(calls[id], y);
        reply := [ResponseTo(id, body)];
        served := served[id := body];
      }
    }

    method BridgeOutgoingSend()
      requires Enabled(View(), BridgeSend)
      modifies `incoming, `reply
      ensures View() == Apply(old(View()), BridgeSend)
    {
      incoming := incoming + reply;
      reply := [];
    }

    method ProcessIncomingReceive()
      requires Enabled(View(), Parse)
      modifies `incoming, `parsed
      ensures View() == Apply(old(View()), Parse)
    {
      parsed := incoming[..1];
      incoming := incoming[1..];
    }

    method ProcessIncomingSend()
      requires Enabled(View(), Dispatch)
      modifies `responses, `parsed
      ensures View() == Apply(old(View()), Dispatch)
    {
      responses := responses + parsed;
      parsed := [];
    }

    method HandleResponses()
      requires Enabled(View(), Correlate)
      modifies messageHandler, `responses, `delivered
      ensures View() == CorrelateStep(old(View()))
    {
      var response := responses[0];
      responses := responses[1..];
      var panicked := messageHandler.CorrelateResponse(response);
      delivered := delivered + [Owner(response)];
    }
  }
}
