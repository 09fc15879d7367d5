/** What the requests to the server are answered with, told by the steps of a run: which handlers were
    registered by then, what the code behind the request yielded, and which errors there are. */
module ServerAnswers {
  import opened Wrappers
  import opened Text
  import opened ServerPool

  /** A built-in method is answered by its own code, also when a custom handler has its name; another one by its
      custom handler, whose failure is an internal error; and a method without any is not found. */
  predicate Answers(methodName: string, handlers: set<string>, y: Yield, body: Body) {
    if methodName == "initialize" || methodName == "resources/list" || methodName == "resources/read"
       || methodName == "tools/list" || methodName == "tools/call"
       || methodName == "prompts/list" || methodName == "prompts/get"
    then body == y.builtin
    else if methodName !in handlers then body.Error? && body.code == -32601
    else match y.custom
      case Ok(value) => body == Result(value)
      case Err(message) => body == Error(-32603, message)
  }

  lemma {:induction false} AnswerAnswers(methodName: string, handlers: set<string>, y: Yield)
    ensures Answers(methodName, handlers, y, Answer(methodName, handlers, y))
  {
  }

  // ---- What the steps received, registered and yielded ----

  function Received(steps: seq<Step>): seq<Request> {
    if steps == [] then [] else (if steps[0].Receive? then [steps[0].request] else []) + Received(steps[1..])
  }

  function Registered(handlers: set<string>, step: Step): set<string> {
    if step.RegisterHandler? then handlers + {step.methodName} else handlers
  }

  /** The handlers there were, and what was yielded, when the goroutine of a request finished. */
  function RoutingOf(steps: seq<Step>, handlers: set<string>, k: nat): Option<Routing> {
    if steps == [] then None
    else if steps[0].Finish? && steps[0].k == k then Some(Routing(handlers, steps[0].y))
    else RoutingOf(steps[1..], Registered(handlers, steps[0]), k)
  }

  lemma {:induction false} StepHistory(s: State, step: Step)
    requires Enabled(s, step)
    ensures var t := Apply(s, step);
            && t.requests == s.requests + (if step.Receive? then [step.request] else [])
            && t.handlers == Registered(s.handlers, step) && t.limit == s.limit
  {
  }

  lemma {:induction false} RunReceives(s: State, steps: seq<Step>)
    requires Valid(s, steps)
    ensures Exec(s, steps).requests == s.requests + Received(steps)
    decreases |steps|
  {
    if steps != [] {
      StepHistory(s, steps[0]);
      RunReceives(Apply(s, steps[0]), steps[1..]);
      Assoc(s.requests, if steps[0].Receive? then [steps[0].request] else [], Received(steps[1..]));
    }
  }

  lemma {:induction false} RoutedStays(s: State, steps: seq<Step>, k: nat)
    requires Inv(s) && Valid(s, steps) && k in s.routed
    ensures k in Exec(s, steps).routed && Exec(s, steps).routed[k] == s.routed[k]
    decreases |steps|
  {
    if steps != [] {
      RoutedOnce(s, steps[0], k);
      StepKeepsInv(s, steps[0]);
      RoutedStays(Apply(s, steps[0]), steps[1..], k);
    }
  }

  lemma {:induction false} FinishRoutes(s: State, step: Step, k: nat)
    requires Inv(s) && Enabled(s, step) && k !in s.routed
    ensures k in Apply(s, step).routed <==> step.Finish? && step.k == k
  {
    RoutedOnce(s, step, k);
  }

  lemma {:induction false} RunRoutes(s: State, steps: seq<Step>, k: nat)
    requires Inv(s) && Valid(s, steps) && k !in s.routed
    ensures var t, r := Exec(s, steps), RoutingOf(steps, s.handlers, k);
            (k in t.routed <==> r.Some?) && (k in t.routed ==> t.routed[k] == r.value)
    decreases |steps|
  {
    if steps != [] {
      var u := Apply(s, steps[0]);
      StepKeepsInv(s, steps[0]);
      StepHistory(s, steps[0]);
      FinishRoutes(s, steps[0], k);
      RoutedOnce(s, steps[0], k);
      if k in u.routed {
        RoutedStays(u, steps[1..], k);
      } else {
        RunRoutes(u, steps[1..], k);
      }
    }
  }

  /** In every run a request that was answered is answered under its own id, by the rules above, with the
      handlers that were registered and what was yielded when its goroutine finished. */
  lemma {:induction false} AnsweredByTheRules(limit: nat, steps: seq<Step>, r: Reply)
    requires Valid(Init(limit), steps)
    requires r in Exec(Init(limit), steps).replies && r.request in Exec(Init(limit), steps).answered
    ensures r.request < |Received(steps)| && r.id == Received(steps)[r.request].id
    ensures var routing := RoutingOf(steps, {}, r.request);
            routing.Some?
            && Answers(Received(steps)[r.request].methodName, routing.value.handlers, routing.value.y, r.body)
  {
    RepliesOnce(limit, steps);
    RunKeepsInv(Init(limit), steps);
    RunReceives(Init(limit), steps);
    EmptyPlus(Received(steps));
    RunRoutes(Init(limit), steps, r.request);
    var t := Exec(Init(limit), steps);
    var routing := t.routed[r.request];
    AnswerAnswers(t.requests[r.request].methodName, routing.handlers, routing.y);
  }

  /** In every run a refused request is told, under its own id, that the server is overloaded. */
  lemma {:induction false} RefusedAsOverloaded(limit: nat, steps: seq<Step>, r: Reply)
    requires Valid(Init(limit), steps)
    requires r in Exec(Init(limit), steps).replies && r.request in Exec(Init(limit), steps).refused
    ensures r.request < |Received(steps)| && r.id == Received(steps)[r.request].id
    ensures r.body.Error? && r.body.code == -32000
    ensures RoutingOf(steps, {}, r.request).None?
  {
    RepliesOnce(limit, steps);
    RunKeepsInv(Init(limit), steps);
    RunReceives(Init(limit), steps);
    EmptyPlus(Received(steps));
    RunRoutes(Init(limit), steps, r.request);
    DispatchedAreAccepted(Exec(Init(limit), steps));
  }
}
