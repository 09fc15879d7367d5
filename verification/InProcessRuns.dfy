/** What requests over the in-process transport are answered with, told by the steps of a run: what each one
    asked, which names had a handler by then, and which errors there are. */
module InProcessRuns {
  import opened Wrappers
  import opened Text
  import Rpc = JsonRpc
  import opened InProcess

  predicate IsError(body: Rpc.Body, code: int) {
    body.Error? && body.code == code
  }

  /** A request that names a handler: its parameters must be an object with that name as a string, which must
      be registered, and the handler must succeed; then its value is the result. */
  predicate Named(params: Json, key: string, known: set<string>, y: Yield, body: Rpc.Body) {
    match params
    case Obj(fields) =>
      if key !in fields || !fields[key].Str? then IsError(body, -32602)
      else if fields[key].s !in known then IsError(body, -32601)
      else if y.handler.Err? then IsError(body, -32603) && body.message == y.handler.error
      else body == Rpc.Result(y.handler.value)
    case _ => IsError(body, -32602)
  }

  /** Tools and prompts are named by `name`, resources by `uri`; lists and the description always succeed; and
      there is no other method. */
  predicate Serves(server: Server, call: Call, y: Yield, body: Rpc.Body) {
    if call.methodName == "tools/call" then Named(call.params, "name", server.tools, y, body)
    else if call.methodName == "prompts/get" then Named(call.params, "name", server.prompts, y, body)
    else if call.methodName == "resources/read" then Named(call.params, "uri", server.resources, y, body)
    else if call.methodName == "initialize" || call.methodName == "tools/list"
            || call.methodName == "resources/list" || call.methodName == "prompts/list"
    then body == Rpc.Result(y.description)
    else IsError(body, -32601)
  }

  lemma {:induction false} ServeServes(server: Server, call: Call, y: Yield)
    ensures Serves(server, call, y, Serve(server, call, y))
  {
  }

  // ---- What the steps asked and registered ----

  /** The calls in the order of their ids, which start at 1. */
  function Asked(steps: seq<Step>): seq<Call> {
    if steps == [] then [] else (if steps[0].Register? then [steps[0].call] else []) + Asked(steps[1..])
  }

  function Added(server: Server, step: Step): Server {
    match step
    case AddTool(name) => Server(server.tools + {name}, server.resources, server.prompts)
    case AddResource(name) => Server(server.tools, server.resources + {name}, server.prompts)
    case AddPrompt(name) => Server(server.tools, server.resources, server.prompts + {name})
    case _ => server
  }

  /** The names there were, and what was yielded, when the bridge served a request. */
  function ServedWith(s: State, steps: seq<Step>, server: Server, id: nat): Option<(Server, Yield)>
    requires Valid(s, steps)
    decreases |steps|
  {
    if steps == [] then None
    else if steps[0].BridgeServe? && s.serving[0] == id then Some((server, steps[0].y))
    else ServedWith(Apply(s, steps[0]), steps[1..], Added(server, steps[0]), id)
  }

  lemma {:induction false} StepHistory(s: State, step: Step)
    requires Enabled(s, step)
    ensures var t := Apply(s, step);
            && t.server == Added(s.server, step)
            && t.rpc.counter == s.rpc.counter + (if step.Register? then 1 else 0)
            && t.calls == if step.Register? then s.calls[s.rpc.counter + 1 := step.call] else s.calls
  {
  }

  /** Calls are numbered as they come and stay as they are. */
  lemma {:induction false} RunAsks(s: State, steps: seq<Step>, id: nat)
    requires Valid(s, steps)
    ensures var t := Exec(s, steps);
            && t.rpc.counter == s.rpc.counter + |Asked(steps)|
            && (id <= s.rpc.counter && id in s.calls ==> id in t.calls && t.calls[id] == s.calls[id])
            && (s.rpc.counter < id <= t.rpc.counter ==>
                  id in t.calls && t.calls[id] == Asked(steps)[id - s.rpc.counter - 1])
    decreases |steps|
  {
    if steps != [] {
      StepHistory(s, steps[0]);
      RunAsks(Apply(s, steps[0]), steps[1..], id);
      if !steps[0].Register? {
        EmptyPlus(Asked(steps[1..]));
      }
    }
  }

  // ---- How each request is served ----

  lemma {:induction false} ServingIsIssued(s: State)
    requires Inv(s) && s.serving != [] && s.serving[0] != 0
    ensures 1 <= s.serving[0] <= s.rpc.counter
  {
    ServedSplit(s);
    assert Rpc.IdOk(s.rpc, s.serving[0]);
  }

  lemma {:induction false} StepServes(s: State, step: Step, id: nat)
    requires Inv(s) && Enabled(s, step) && id != 0 && id !in s.served
    ensures id in Apply(s, step).served <==> step.BridgeServe? && s.serving[0] == id
    ensures id in Apply(s, step).served ==>
              id <= s.rpc.counter && Apply(s, step).served[id] == Serve(s.server, CallOf(s, id), step.y)
  {
    ServedOnce(s, step, id);
    if step.BridgeServe? && s.serving[0] == id {
      ServingIsIssued(s);
    }
  }

  lemma {:induction false} ServedStays(s: State, steps: seq<Step>, id: nat)
    requires Inv(s) && Valid(s, steps) && id in s.served
    ensures id in Exec(s, steps).served && Exec(s, steps).served[id] == s.served[id]
    decreases |steps|
  {
    if steps != [] {
      ServedOnce(s, steps[0], id);
      StepKeepsInv(s, steps[0]);
      ServedStays(Apply(s, steps[0]), steps[1..], id);
    }
  }

  /** Every call up to the counter is known. */
  predicate CallsKnown(s: State) {
    forall id :: 1 <= id <= s.rpc.counter ==> id in s.calls
  }

  lemma {:induction false} RunServes(s: State, steps: seq<Step>, id: nat)
    requires Inv(s) && CallsKnown(s) && Valid(s, steps) && id != 0 && id !in s.served
    ensures var t, w := Exec(s, steps), ServedWith(s, steps, s.server, id);
            (id in t.served <==> w.Some?)
            && (id in t.served ==>
                  id in t.calls && id <= t.rpc.counter && Serves(w.value.0, t.calls[id], w.value.1, t.served[id]))
    decreases |steps|
  {
    if steps != [] {
      var u := Apply(s, steps[0]);
      StepKeepsInv(s, steps[0]);
      StepHistory(s, steps[0]);
      StepServes(s, steps[0], id);
      if id in u.served {
        ServeServes(s.server, CallOf(s, id), steps[0].y);
        ServedStays(u, steps[1..], id);
        RunAsks(u, steps[1..], id);
      } else {
        RunServes(u, steps[1..], id);
      }
    }
  }

  /** In every run a request that was served was served by the rules above: for the call that was registered
      under its id, with the names that had a handler and what was yielded when the bridge served it. */
  lemma {:induction false} ServedByTheRules(capacity: nat, steps: seq<Step>, id: nat)
    requires Valid(Init(capacity), steps) && id in Exec(Init(capacity), steps).served
    ensures 1 <= id <= |Asked(steps)|
    ensures var w := ServedWith(Init(capacity), steps, Server({}, {}, {}), id);
            w.Some? && Serves(w.value.0, Asked(steps)[id - 1], w.value.1, Exec(Init(capacity), steps).served[id])
  {
    InitInv(capacity);
    RunKeepsInv(Init(capacity), steps);
    ServedIsPositive(Exec(Init(capacity), steps), id);
    RunServes(Init(capacity), steps, id);
    RunAsks(Init(capacity), steps, id);
  }

  lemma {:induction false} ServedIsPositive(s: State, id: nat)
    requires Inv(s) && id in s.served
    ensures id != 0
  {
    if id in s.delivered {
      assert id in s.delivered + (Owners(Back(s)) + Wanted(Out(s)));
    } else {
      assert id in Owners(Back(s)) + Wanted(Out(s));
      assert id in s.delivered + (Owners(Back(s)) + Wanted(Out(s)));
    }
    assert Rpc.IdOk(s.rpc, id);
  }

  lemma {:induction false} CapacityStays(s: State, steps: seq<Step>)
    requires Valid(s, steps)
    ensures Exec(s, steps).rpc.capacity == s.rpc.capacity
    decreases |steps|
  {
    if steps != [] {
      CapacityStays(Apply(s, steps[0]), steps[1..]);
    }
  }

  lemma {:induction false} AtRestIsAnswered(t: State, id: nat)
    requires Inv(t) && t.rpc.capacity > 0 && id in t.rpc.enqueued
    requires forall step :: Internal(step) ==> !Enabled(t, step)
    ensures id in t.rpc.outcomes && id in t.served
    ensures t.rpc.outcomes[id] == Rpc.TimedOut
         || t.rpc.outcomes[id] == Rpc.Answered(Rpc.Response(Rpc.Int(id), t.served[id]))
  {
    if !Drained(t) {
      NeverStuck(t);
    }
    DrainedIsAnswered(t, id);
  }

  /** In every run that has come to rest, each request that was put out has timed out, or it was answered under
      its own id with what these rules say. */
  lemma {:induction false} AnsweredByTheRules(capacity: nat, steps: seq<Step>, id: nat)
    requires capacity > 0 && Valid(Init(capacity), steps) && id in Exec(Init(capacity), steps).rpc.enqueued
    requires forall step :: Internal(step) ==> !Enabled(Exec(Init(capacity), steps), step)
    ensures var t := Exec(Init(capacity), steps);
            id in t.rpc.outcomes && id in t.served
            && (t.rpc.outcomes[id] == Rpc.TimedOut
                || t.rpc.outcomes[id] == Rpc.Answered(Rpc.Response(Rpc.Int(id), t.served[id])))
    ensures 1 <= id <= |Asked(steps)|
    ensures var w := ServedWith(Init(capacity), steps, Server({}, {}, {}), id);
            w.Some? && Serves(w.value.0, Asked(steps)[id - 1], w.value.1, Exec(Init(capacity), steps).served[id])
  {
    InitInv(capacity);
    RunKeepsInv(Init(capacity), steps);
    CapacityStays(Init(capacity), steps);
    AtRestIsAnswered(Exec(Init(capacity), steps), id);
    ServedByTheRules(capacity, steps, id);
  }
}
