/** Admission and the worker pool of the server (server/server.go:126-167, 304-436): a bounded queue, a
    dispatcher that waits for one of N permits, and a goroutine for each dispatched request. Requests are
    numbered in the order they are received. The context stays open. */
module ServerPool {
  import opened Wrappers
  import opened Text

  datatype Request = Request(id: string, methodName: string)

  datatype Body = Result(value: string) | Error(code: int, message: string)

  /** A call of SendResponse, with the number of the request it answers. */
  datatype Reply = Reply(request: nat, id: string, body: Body)

  const OVERLOADED := Error(-32000, "Server overloaded")

  /** What the code behind a request yields: a built-in handler a body, a custom one a value or an error. */
  datatype Yield = Yield(builtin: Body, custom: Result<string, string>)

  /** The custom handlers at the time of an answer, and what the code behind it yielded. */
  datatype Routing = Routing(handlers: set<string>, y: Yield)

  const BUILTIN := {"initialize", "resources/list", "resources/read", "tools/list", "tools/call", "prompts/list", "prompts/get"}

  /** The answer of handleRequest. */
  function Answer(methodName: string, handlers: set<string>, y: Yield): Body {
    if methodName in BUILTIN then y.builtin
    else if methodName in handlers then
      match y.custom case Ok(value) => Result(value) case Err(message) => Error(-32603, message)
    else Error(-32601, "Method not found: " + methodName)
  }

  // ---- States and steps ----

  datatype State = State(
    limit: nat,
    handlers: set<string>,
    requests: seq<Request>,      // history: what was received
    arriving: seq<nat>,          // the request processRequests holds
    queue: seq<nat>,             // requestChan
    held: seq<nat>,              // the request the dispatcher holds
    permits: nat,                // workerPool
    running: set<nat>,           // goroutines that have not answered
    returning: set<nat>,         // goroutines that have answered and hold a permit
    accepted: seq<nat>,          // history: put in the queue
    refused: seq<nat>,           // history: refused
    dispatched: seq<nat>,        // history: given a permit
    answered: seq<nat>,          // history: answered
    replies: seq<Reply>,         // history: the calls of SendResponse
    routed: map<nat, Routing>)   // history: what each answer was made from

  datatype Step =
    | Receive(request: Request) | Admit | TakeWork | Acquire | Finish(k: nat, y: Yield) | Return(k: nat)
    | RegisterHandler(methodName: string)

  function Init(limit: nat): State {
    State(limit, {}, [], [], [], [], limit, {}, {}, [], [], [], [], [], map[])
  }

  predicate Enabled(s: State, step: Step) {
    match step
    case Receive(_) => s.arriving == []
    case Admit => s.arriving != []
    case TakeWork => s.queue != [] && s.held == []
    case Acquire => s.held != [] && s.permits > 0
    case Finish(k, _) => k in s.running
    case Return(k) => k in s.returning
    case RegisterHandler(_) => true
  }

  function RequestOf(s: State, k: nat): Request {
    if k < |s.requests| then s.requests[k] else Request("", "")
  }

  function ReceiveStep(s: State, request: Request): State {
    s.(requests := s.requests + [request], arriving := [|s.requests|])
  }

  /** The select with a default: queued if the channel has room, else refused. */
  function AdmitStep(s: State): State
    requires s.arriving != []
  {
    var k := s.arriving[0];
    if |s.queue| < s.limit
    then s.(arriving := [], queue := s.queue + [k], accepted := s.accepted + [k])
    else s.(arriving := [], refused := s.refused + [k], replies := s.replies + [Reply(k, RequestOf(s, k).id, OVERLOADED)])
  }

  function TakeStep(s: State): State
    requires s.queue != []
  {
    s.(queue := s.queue[1..], held := s.queue[..1])
  }

  function AcquireStep(s: State): State
    requires s.held != [] && s.permits > 0
  {
    s.(held := [], permits := s.permits - 1, running := s.running + {s.held[0]}, dispatched := s.dispatched + [s.held[0]])
  }

  function FinishStep(s: State, k: nat, y: Yield): State {
    var r := RequestOf(s, k);
    s.(running := s.running - {k}, returning := s.returning + {k}, answered := s.answered + [k],
       replies := s.replies + [Reply(k, r.id, Answer(r.methodName, s.handlers, y))],
       routed := s.routed[k := Routing(s.handlers, y)])
  }

  function ReturnStep(s: State, k: nat): State {
    s.(returning := s.returning - {k}, permits := s.permits + 1)
  }

  function Apply(s: State, step: Step): State
    requires Enabled(s, step)
  {
    match step
    case Receive(request) => ReceiveStep(s, request)
    case Admit => AdmitStep(s)
    case TakeWork => TakeStep(s)
    case Acquire => AcquireStep(s)
    case Finish(k, y) => FinishStep(s, k, y)
    case Return(k) => ReturnStep(s, k)
    case RegisterHandler(m) => s.(handlers := s.handlers + {m})
  }

  predicate Valid(s: State, steps: seq<Step>)
    decreases |steps|
  {
    steps == [] || (Enabled(s, steps[0]) && Valid(Apply(s, steps[0]), steps[1..]))
  }

  function Exec(s: State, steps: seq<Step>): State
    requires Valid(s, steps)
    decreases |steps|
  {
    if steps == [] then s else Exec(Apply(s, steps[0]), steps[1..])
  }

  // ---- The invariant ----

  predicate Increasing(q: seq<nat>) {
    forall i, j :: 0 <= i < j < |q| ==> q[i] < q[j]
  }

  predicate Distinct(q: seq<nat>) {
    forall i, j :: 0 <= i < j < |q| ==> q[i] != q[j]
  }

  /** The number of requests whose admission is decided. */
  function Decided(s: State): int {
    |s.requests| - |s.arriving|
  }

  /** Each decided request was accepted or refused, not both, in order. */
  predicate Admission(s: State) {
    && (s.arriving == [] || (s.requests != [] && s.arriving == [|s.requests| - 1]))
    && Increasing(s.accepted) && Increasing(s.refused)
    && (forall k :: k in s.accepted ==> k < Decided(s) && k !in s.refused)
    && (forall k :: k in s.refused ==> k < Decided(s))
    && (forall k :: 0 <= k < Decided(s) ==> k in s.accepted || k in s.refused)
    && |s.accepted| + |s.refused| == Decided(s)
  }

  /** The accepted requests, in order: dispatched, held, queued. */
  predicate Fifo(s: State) {
    s.dispatched + (s.held + s.queue) == s.accepted && |s.queue| <= s.limit && |s.held| <= 1
  }

  /** Each dispatched request is running or answered, and permits are conserved. */
  predicate Work(s: State) {
    && (forall k :: k in s.running ==> k in s.dispatched && k !in s.answered)
    && (forall k :: k in s.answered ==> k in s.dispatched)
    && (forall k :: k in s.dispatched ==> k in s.running || k in s.answered)
    && (forall k :: k in s.returning ==> k in s.answered)
    && Distinct(s.answered)
    && |s.running| + |s.answered| == |s.dispatched|
    && s.permits + |s.running| + |s.returning| == s.limit
  }

  predicate ReplyOk(s: State, r: Reply) {
    && r.request < |s.requests| && r.id == s.requests[r.request].id
    && (r.request in s.refused || r.request in s.answered)
    && (r.request in s.refused ==> r.body == OVERLOADED)
    && (r.request in s.answered ==> r.request in s.routed && AnswersOwn(s, r))
  }

  /** The body is the answer to the request's own method, routed as it was when the goroutine answered. */
  predicate AnswersOwn(s: State, r: Reply)
    requires r.request < |s.requests| && r.request in s.routed
  {
    r.body == Answer(s.requests[r.request].methodName, s.routed[r.request].handlers, s.routed[r.request].y)
  }

  predicate Replies(s: State) {
    && (forall r :: r in s.replies ==> ReplyOk(s, r))
    && (forall i, j :: 0 <= i < j < |s.replies| ==> s.replies[i].request != s.replies[j].request)
    && |s.replies| == |s.refused| + |s.answered|
    && (forall k :: k in s.routed ==> k in s.answered)
  }

  predicate Inv(s: State) {
    Admission(s) && Fifo(s) && Work(s) && Replies(s)
  }

  // ---- Steps keep the invariant ----

  lemma {:induction false} ReceiveKeepsInv(s: State, request: Request)
    requires Inv(s) && s.arriving == []
    ensures Inv(ReceiveStep(s, request))
  {
    var t := ReceiveStep(s, request);
    forall r | r in t.replies ensures ReplyOk(t, r) {
      assert ReplyOk(s, r);
    }
  }

  lemma {:induction false} IncreasingLast(q: seq<nat>, k: nat)
    requires Increasing(q) && forall x :: x in q ==> x < k
    ensures Increasing(q + [k])
  {
    var r := q + [k];
    forall i, j | 0 <= i < j < |r| ensures r[i] < r[j] {
      assert r[i] in q;
    }
  }

  lemma {:induction false} AcceptKeepsInv(s: State)
    requires Inv(s) && s.arriving != [] && |s.queue| < s.limit
    ensures Inv(AdmitStep(s))
  {
    var t := AdmitStep(s);
    var k := s.arriving[0];
    IncreasingLast(s.accepted, k);
    Assoc(s.held, s.queue, [k]);
    Assoc(s.dispatched, s.held + s.queue, [k]);
    forall r | r in t.replies ensures ReplyOk(t, r) {
      assert ReplyOk(s, r);
    }
  }

  lemma {:induction false} RefuseKeepsInv(s: State)
    requires Inv(s) && s.arriving != [] && |s.queue| >= s.limit
    ensures Inv(AdmitStep(s))
  {
    var t := AdmitStep(s);
    var k := s.arriving[0];
    IncreasingLast(s.refused, k);
    DispatchedAreAccepted(s);
    NewReply(s, t, Reply(k, RequestOf(s, k).id, OVERLOADED));
  }

  lemma {:induction false} DispatchedAreAccepted(s: State)
    requires Fifo(s)
    ensures forall k :: k in s.dispatched ==> k in s.accepted
    ensures forall k :: k in s.held ==> k in s.accepted
  {
    forall k | k in s.dispatched ensures k in s.accepted {
      assert k in s.dispatched + (s.held + s.queue);
    }
    forall k | k in s.held ensures k in s.accepted {
      assert k in s.held + s.queue;
      assert k in s.dispatched + (s.held + s.queue);
    }
  }

  /** A reply to a request that has none yet. */
  lemma {:induction false} NewReply(s: State, t: State, r: Reply)
    requires Replies(s) && t.requests == s.requests && t.replies == s.replies + [r] && ReplyOk(t, r)
    requires r.request !in s.refused && r.request !in s.answered
    requires forall k :: k in s.routed && k != r.request ==> k in t.routed && t.routed[k] == s.routed[k]
    requires forall k :: k in t.routed ==> k in s.routed || k in t.answered
    requires (t.refused == s.refused + [r.request] && t.answered == s.answered)
             || (t.refused == s.refused && t.answered == s.answered + [r.request])
    ensures Replies(t)
  {
    forall x | x in t.replies ensures ReplyOk(t, x) {
      if x in s.replies {
        assert ReplyOk(s, x);
      }
    }
    forall i, j | 0 <= i < j < |t.replies| ensures t.replies[i].request != t.replies[j].request {
      assert t.replies[i] in s.replies;
      assert ReplyOk(s, t.replies[i]);
    }
  }

  lemma {:induction false} TakeKeepsInv(s: State)
    requires Inv(s) && s.queue != [] && s.held == []
    ensures Inv(TakeStep(s))
  {
    var t := TakeStep(s);
    PullLast(s.queue);
    forall r | r in t.replies ensures ReplyOk(t, r) {
      assert ReplyOk(s, r);
    }
  }

  lemma {:induction false} HeldIsNew(s: State)
    requires Inv(s) && s.held != []
    ensures s.held[0] !in s.dispatched && s.held[0] !in s.answered && s.held[0] !in s.running
    ensures s.dispatched + [s.held[0]] + ([] + s.queue) == s.accepted
  {
    var k := s.held[0];
    assert s.held == [k];
    Push(s.dispatched, s.held, s.queue);
    var all := s.dispatched + [k] + ([] + s.queue);
    assert all[|s.dispatched|] == k;
    forall i | 0 <= i < |s.dispatched| ensures s.dispatched[i] != k {
      assert all[i] == s.dispatched[i];
    }
  }

  lemma {:induction false} AcquireKeepsInv(s: State)
    requires Inv(s) && s.held != [] && s.permits > 0
    ensures Inv(AcquireStep(s))
  {
    var t := AcquireStep(s);
    HeldIsNew(s);
    forall r | r in t.replies ensures ReplyOk(t, r) {
      assert ReplyOk(s, r);
    }
  }

  lemma {:induction false} FinishWork(s: State, k: nat, y: Yield)
    requires Inv(s) && k in s.running
    ensures Work(FinishStep(s, k, y))
  {
    var t := FinishStep(s, k, y);
    assert k !in s.returning;
    forall i, j | 0 <= i < j < |t.answered| ensures t.answered[i] != t.answered[j] {
      assert t.answered[i] in s.answered;
    }
  }

  lemma {:induction false} FinishKeepsInv(s: State, k: nat, y: Yield)
    requires Inv(s) && k in s.running
    ensures Inv(FinishStep(s, k, y))
  {
    FinishWork(s, k, y);
    FinishReplies(s, k, y);
  }

  lemma {:induction false} FinishReplies(s: State, k: nat, y: Yield)
    requires Inv(s) && k in s.running
    ensures Replies(FinishStep(s, k, y))
  {
    DispatchedAreAccepted(s);
    assert k in s.accepted && k < |s.requests|;
    var r := RequestOf(s, k);
    NewReply(s, FinishStep(s, k, y), Reply(k, r.id, Answer(r.methodName, s.handlers, y)));
  }

  lemma {:induction false} ReturnKeepsInv(s: State, k: nat)
    requires Inv(s) && k in s.returning
    ensures Inv(ReturnStep(s, k))
  {
    var t := ReturnStep(s, k);
    forall r | r in t.replies ensures ReplyOk(t, r) {
      assert ReplyOk(s, r);
    }
  }

  lemma {:induction false} StepKeepsInv(s: State, step: Step)
    requires Inv(s) && Enabled(s, step)
    ensures Inv(Apply(s, step))
  {
    match step
    case Receive(request) => ReceiveKeepsInv(s, request);
    case Admit =>
      if |s.queue| < s.limit {
        AcceptKeepsInv(s);
      } else {
        RefuseKeepsInv(s);
      }
    case TakeWork => TakeKeepsInv(s);
    case Acquire => AcquireKeepsInv(s);
    case Finish(k, y) => FinishKeepsInv(s, k, y);
    case Return(k) => ReturnKeepsInv(s, k);
    case RegisterHandler(m) =>
      forall r | r in s.replies ensures ReplyOk(Apply(s, step), r) {
        assert ReplyOk(s, r);
      }
  }

  lemma {:induction false} RunKeepsInv(s: State, steps: seq<Step>)
    requires Inv(s) && Valid(s, steps)
    ensures Inv(Exec(s, steps)) && Exec(s, steps).limit == s.limit
    decreases |steps|
  {
    if steps != [] {
      StepKeepsInv(s, steps[0]);
      RunKeepsInv(Apply(s, steps[0]), steps[1..]);
    }
  }

  // ---- The properties ----

  datatype Place = Arriving | Refused | Queued | Held | Running | Answered

  predicate At(s: State, k: nat, p: Place) {
    match p
    case Arriving => k in s.arriving
    case Refused => k in s.refused
    case Queued => k in s.queue
    case Held => k in s.held
    case Running => k in s.running
    case Answered => k in s.answered
  }

  /** The one place where a request is. */
  function PlaceOf(s: State, k: nat): Place {
    if k in s.arriving then Arriving
    else if k in s.refused then Refused
    else if k in s.queue then Queued
    else if k in s.held then Held
    else if k in s.running then Running
    else Answered
  }

  lemma {:induction false} WaitingOnce(s: State, k: nat)
    requires Inv(s)
    ensures k in s.dispatched ==> k !in s.held && k !in s.queue
    ensures k in s.held ==> k !in s.queue
    ensures k in s.accepted <==> k in s.dispatched || k in s.held || k in s.queue
  {
    var d, h := |s.dispatched|, |s.held|;
    var all := s.dispatched + (s.held + s.queue);
    forall i, j | 0 <= i < d && 0 <= j < h + |s.queue| ensures s.dispatched[i] != (s.held + s.queue)[j] {
      assert all[i] == s.dispatched[i] && all[d + j] == (s.held + s.queue)[j];
    }
    forall i, j | 0 <= i < h && 0 <= j < |s.queue| ensures s.held[i] != s.queue[j] {
      assert all[d + i] == s.held[i] && all[d + h + j] == s.queue[j];
    }
    assert forall x :: x in s.held || x in s.queue ==> x in s.held + s.queue;
  }

  lemma {:induction false} OnePlace(s: State, k: nat, p: Place)
    requires Inv(s)
    ensures k < |s.requests| ==> (At(s, k, p) <==> p == PlaceOf(s, k))
    ensures At(s, k, p) ==> k < |s.requests|
  {
    WaitingOnce(s, k);
  }

  /** In every run: permits and busy goroutines make N, so returning a permit never blocks; every received
      request, and nothing else, is in exactly one place; the places add up; and at most 2N + 1 accepted
      requests are unanswered. */
  lemma {:induction false} Conservation(limit: nat, steps: seq<Step>)
    requires Valid(Init(limit), steps)
    ensures var t := Exec(Init(limit), steps);
            && t.permits + |t.running| + |t.returning| == limit
            && (forall k :: k in t.returning ==> t.permits < limit)
            && (forall k, p :: 0 <= k < |t.requests| ==> (At(t, k, p) <==> p == PlaceOf(t, k)))
            && (forall k: nat, p :: At(t, k, p) ==> k < |t.requests|)
            && |t.requests| == |t.arriving| + |t.refused| + |t.queue| + |t.held| + |t.running| + |t.answered|
            && |t.accepted| - |t.answered| == |t.queue| + |t.held| + |t.running| <= 2 * limit + 1
  {
    RunKeepsInv(Init(limit), steps);
    var t := Exec(Init(limit), steps);
    assert |t.dispatched + (t.held + t.queue)| == |t.dispatched| + (|t.held| + |t.queue|);
    forall k | k in t.returning ensures t.permits < limit {
      assert t.returning != {};
    }
    forall k, p | 0 <= k < |t.requests| ensures At(t, k, p) <==> p == PlaceOf(t, k) {
      OnePlace(t, k, p);
    }
    forall k: nat, p | At(t, k, p) ensures k < |t.requests| {
      OnePlace(t, k, p);
    }
  }

  /** In every run each request gets at most one reply, under its own id; a refusal and an answer exclude
      each other, and the requests with a reply are the refused and the answered ones. A refusal says that
      the server is overloaded; an answer is the one to the request's own method, as it was routed then. */
  lemma {:induction false} RepliesOnce(limit: nat, steps: seq<Step>)
    requires Valid(Init(limit), steps)
    ensures var t := Exec(Init(limit), steps);
            && (forall i, j :: 0 <= i < j < |t.replies| ==> t.replies[i].request != t.replies[j].request)
            && (forall r :: r in t.replies ==>
                  && r.request < |t.requests| && r.id == t.requests[r.request].id
                  && (r.request in t.refused || r.request in t.answered) && !(r.request in t.refused && r.request in t.answered)
                  && (r.request in t.refused ==> r.body == OVERLOADED)
                  && (r.request in t.answered ==> r.request in t.routed && AnswersOwn(t, r)))
            && |t.replies| == |t.refused| + |t.answered|
  {
    RunKeepsInv(Init(limit), steps);
    var t := Exec(Init(limit), steps);
    DispatchedAreAccepted(t);
    forall r | r in t.replies ensures ReplyOk(t, r) {
    }
  }

  /** An answer is routed once, by the goroutine that gives it, with the handlers of that moment. */
  lemma {:induction false} RoutedOnce(s: State, step: Step, k: nat)
    requires Inv(s) && Enabled(s, step)
    ensures var t := Apply(s, step);
            && (k in s.routed ==> k in t.routed && t.routed[k] == s.routed[k])
            && (k in t.routed && k !in s.routed ==>
                  step.Finish? && step.k == k && k in s.running && t.routed[k] == Routing(s.handlers, step.y))
  {
  }

  /** Dispatch follows the order of arrival. */
  lemma {:induction false} DispatchInOrder(limit: nat, steps: seq<Step>)
    requires Valid(Init(limit), steps)
    ensures var t := Exec(Init(limit), steps);
            Increasing(t.dispatched + (t.held + t.queue)) && Increasing(t.dispatched)
  {
    RunKeepsInv(Init(limit), steps);
    var t := Exec(Init(limit), steps);
    var all := t.dispatched + (t.held + t.queue);
    forall i, j | 0 <= i < j < |t.dispatched| ensures t.dispatched[i] < t.dispatched[j] {
      assert all[i] == t.dispatched[i] && all[j] == t.dispatched[j];
    }
  }

  /** A request is refused exactly when N accepted ones are still in the queue. */
  lemma {:induction false} RefusedIffFull(s: State)
    requires Inv(s) && Enabled(s, Admit)
    ensures s.arriving[0] in Apply(s, Admit).refused <==> |s.queue| == s.limit
    ensures s.arriving[0] in Apply(s, Admit).accepted <==> |s.queue| < s.limit
  {
    assert s.arriving[0] !in s.refused && s.arriving[0] !in s.accepted;
  }

  /** The steps that a request still needs. */
  function Measure(s: State): nat {
    4 * |s.queue| + 3 * |s.held| + 2 * |s.running| + |s.returning|
  }

  predicate Internal(step: Step) {
    step.TakeWork? || step.Acquire? || step.Finish? || step.Return?
  }

  /** While an accepted request is unanswered the pool can take a step by itself. */
  lemma {:induction false} NeverStuck(s: State)
    requires Inv(s) && s.limit > 0 && (s.queue != [] || s.held != [] || s.running != {})
    ensures exists step :: Internal(step) && Enabled(s, step)
  {
    if k :| k in s.running {
      assert Enabled(s, Finish(k, Yield(OVERLOADED, Ok(""))));
    } else if k :| k in s.returning {
      assert Enabled(s, Return(k));
    } else if s.held != [] {
      assert s.running == {} && s.returning == {};
      assert Enabled(s, Acquire);
    } else {
      assert Enabled(s, TakeWork);
    }
  }

  lemma {:induction false} StepDecreases(s: State, step: Step)
    requires Inv(s) && Enabled(s, step) && Internal(step)
    ensures Measure(Apply(s, step)) < Measure(s)
    ensures Apply(s, step).accepted == s.accepted && Apply(s, step).limit == s.limit
  {
    if step.Acquire? {
      HeldIsNew(s);
    }
  }

  lemma {:induction false} RunDecreases(s: State, steps: seq<Step>)
    requires Inv(s) && Valid(s, steps) && forall step :: step in steps ==> Internal(step)
    ensures var t := Exec(s, steps);
            Measure(t) + |steps| <= Measure(s) && t.accepted == s.accepted && Inv(t) && t.limit == s.limit
    decreases |steps|
  {
    if steps != [] {
      assert steps[0] in steps;
      assert forall x :: x in steps[1..] ==> x in steps;
      StepDecreases(s, steps[0]);
      StepKeepsInv(s, steps[0]);
      RunDecreases(Apply(s, steps[0]), steps[1..]);
    }
  }

  /** Left to itself the pool stops after finitely many steps, and then every accepted request is answered
      and every permit is back. */
  lemma {:induction false} EveryAcceptedIsAnswered(s: State, steps: seq<Step>, k: nat)
    requires Inv(s) && s.limit > 0 && Valid(s, steps) && forall step :: step in steps ==> Internal(step)
    requires forall step :: Internal(step) ==> !Enabled(Exec(s, steps), step)
    ensures |steps| <= Measure(s)
    ensures k in s.accepted ==> k in Exec(s, steps).answered
    ensures Exec(s, steps).permits == s.limit
  {
    var t := Exec(s, steps);
    RunDecreases(s, steps);
    assert t.queue == [] && t.held == [] && t.running == {} by {
      if t.queue != [] || t.held != [] || t.running != {} {
        NeverStuck(t);
      }
    }
    assert t.returning == {} by {
      if j :| j in t.returning {
        assert Enabled(t, Return(j));
      }
    }
    assert t.dispatched == t.accepted by {
      assert t.dispatched + ([] + []) == t.dispatched;
    }
  }

  // ---- The server ----

  /** The server's pool. A channel of permits is its number of permits; each loop body is cut where it
      waits. */
  class Server {
    const maxConcurrentRequests: nat
    var requestHandlers: set<string>
    var workerPool: nat
    var received: nat
    var arriving: seq<(nat, Request)>
    var requestChan: seq<(nat, Request)>
    var held: seq<(nat, Request)>
    var running: map<nat, Request>
    var returning: set<nat>
    var replies: seq<Reply>
    ghost var requests: seq<Request>
    ghost var accepted: seq<nat>
    ghost var refused: seq<nat>
    ghost var dispatched: seq<nat>
    ghost var answered: seq<nat>
    ghost var routed: map<nat, Routing>

    ghost function View(): State
      reads this
    {
      State(maxConcurrentRequests, requestHandlers, requests, Numbers(arriving), Numbers(requestChan), Numbers(held),
            workerPool, running.Keys, returning, accepted, refused, dispatched, answered, replies, routed)
    }

    /** Every piece of work carries the request of its number. */
    ghost predicate Coherent()
      reads this
    {
      && received == |requests|
      && (forall w :: w in arriving + requestChan + held ==> w.0 < |requests| && w.1 == requests[w.0])
      && (forall k :: k in running ==> k < |requests| && running[k] == requests[k])
    }

    constructor (limit: nat)
      ensures View() == Init(if limit == 0 then 100 else limit) && Coherent()
    {
      maxConcurrentRequests := if limit == 0 then 100 else limit;
      requestHandlers, workerPool, received, arriving, requestChan, held := {}, 0, 0, [], [], [];
      running, returning, replies := map[], {}, [];
      requests, accepted, refused, dispatched, answered, routed := [], [], [], [], [], map[];
      new;
      for i := 0 to maxConcurrentRequests
        invariant workerPool == i && Coherent()
        invariant View() == Init(maxConcurrentRequests).(permits := i)
      {
        workerPool := workerPool + 1;
      }
    }

    method RegisterHandler(methodName: string)
      requires Coherent()
      modifies `requestHandlers
      ensures View() == Apply(old(View()), Step.RegisterHandler(methodName)) && Coherent()
    {
      requestHandlers := requestHandlers + {methodName};
    }

    /** processRequests receives a request from the transport. */
    method ReceiveRequest(request: Request)
      requires Coherent() && arriving == []
      modifies `arriving, `received, `requests
      ensures View() == ReceiveStep(old(View()), request) && Coherent()
    {
      arriving := [(received, request)];
      received := received + 1;
      requests := requests + [request];
    }

    /** The select with a default in processRequests. */
    method AdmitRequest()
      requires Coherent() && arriving != [] && |arriving| == 1
      modifies `arriving, `requestChan, `replies, `accepted, `refused
      ensures View() == AdmitStep(old(View())) && Coherent()
    {
      var work := arriving[0];
      assert work in arriving + requestChan + held;
      NumbersConcat(requestChan, [work]);
      arriving := [];
      if |requestChan| < maxConcurrentRequests {
        requestChan := requestChan + [work];
        accepted := accepted + [work.0];
      } else {
        replies := replies + [Reply(work.0, work.1.id, Error(-32000, "Server overloaded"))];
        refused := refused + [work.0];
      }
    }

    /** dispatchRequests receives work. */
    method TakeWork()
      requires Coherent() && requestChan != [] && held == []
      modifies `requestChan, `held
      ensures View() == TakeStep(old(View())) && Coherent()
    {
      assert requestChan == [requestChan[0]] + requestChan[1..];
      NumbersConcat([requestChan[0]], requestChan[1..]);
      held := [requestChan[0]];
      requestChan := requestChan[1..];
    }

    /** dispatchRequests takes a permit and starts a goroutine. */
    method AcquireWorker()
      requires Coherent() && |held| == 1 && workerPool > 0
      modifies `workerPool, `held, `running, `dispatched
      ensures View() == AcquireStep(old(View())) && Coherent()
    {
      var work := held[0];
      assert work in arriving + requestChan + held;
      held := [];
      workerPool := workerPool - 1;
      running := running[work.0 := work.1];
      dispatched := dispatched + [work.0];
    }

    /** The routing of handleRequest. */
    method Route(methodName: string, y: Yield) returns (body: Body)
      ensures body == Answer(methodName, requestHandlers, y)
    {
      match methodName {
        case "initialize" => body := y.builtin;
        case "resources/list" => body := y.builtin;
        case "resources/read" => body := y.builtin;
        case "tools/list" => body := y.builtin;
        case "tools/call" => body := y.builtin;
        case "prompts/list" => body := y.builtin;
        case "prompts/get" => body := y.builtin;
        case _ =>
          if methodName !in requestHandlers {
            body := Error(-32601, "Method not found: " + methodName);
          } else if y.custom.Err? {
            body := Error(-32603, y.custom.error);
          } else {
            body := Result(y.custom.value);
          }
      }
    }

    /** handleRequest up to its reply. */
    method HandleRequest(k: nat, y: Yield)
      requires Coherent() && k in running
      modifies `running, `returning, `replies, `answered, `routed
      ensures View() == FinishStep(old(View()), k, y) && Coherent()
    {
      var request := running[k];
      var body := Route(request.methodName, y);
      replies := replies + [Reply(k, request.id, body)];
      running := running - {k};
      returning := returning + {k};
      answered := answered + [k];
      routed := routed[k := Routing(requestHandlers, y)];
    }

    /** The deferred send that gives the permit back; the channel has room, by Conservation. */
    method ReturnWorker(k: nat)
      requires Coherent() && k in returning && workerPool < maxConcurrentRequests
      modifies `workerPool, `returning
      ensures View() == ReturnStep(old(View()), k) && Coherent()
    {
      returning := returning - {k};
      workerPool := workerPool + 1;
    }
  }

  function Numbers(ws: seq<(nat, Request)>): (ks: seq<nat>)
    ensures |ks| == |ws|
  {
    if ws == [] then [] else [ws[0].0] + Numbers(ws[1..])
  }

  lemma {:induction false} NumbersConcat(a: seq<(nat, Request)>, b: seq<(nat, Request)>)
    ensures Numbers(a + b) == Numbers(a) + Numbers(b)
    decreases |a|
  {
    if a == [] {
      assert a + b == b;
    } else {
      assert (a + b)[1..] == a[1..] + b;
      NumbersConcat(a[1..], b);
    }
  }
}
