/** What becomes of a request, told by the steps of a run: its first response, timer, withdrawal or shutdown
    decides, and a response reaches it with its body. */
module JsonRpcRuns {
  import opened Wrappers
  import opened Text
  import opened JsonRpc

  /** A response id names a request when it is the request's number, or a float from there up to, and without,
      the next number. */
  predicate Names(id: Id, n: nat)
    requires n >= 1
  {
    match id
    case Int(i) => i == n
    case Float(r) => n as real <= r < (n + 1) as real
    case _ => false
  }

  /** Which pending request a response id selects, whatever it is. */
  lemma {:induction false} LookupNames(pending: set<nat>, id: Id, n: nat)
    requires n >= 1
    ensures Lookup(pending, id) == Some(n) <==> n in pending && Names(id, n)
  {
  }

  /** The outcome that a step has for a waiting request, if any. */
  function Event(step: Step, id: nat): Outcome
    requires id >= 1
  {
    match step
    case Respond(r) => if Names(r.id, id) then Answered(Response(Int(id), r.body)) else Waiting
    case TimerFires(i) => if i == id then TimedOut else Waiting
    case Withdraw(i) => if i == id then Withdrawn else Waiting
    case Sweep => ClosedByShutdown
    case _ => Waiting
  }

  /** The first step of a run that decides about a request. */
  function FirstEvent(steps: seq<Step>, id: nat): Outcome
    requires id >= 1
  {
    if steps == [] then Waiting
    else if Event(steps[0], id) != Waiting then Event(steps[0], id)
    else FirstEvent(steps[1..], id)
  }

  /** What the channel of a request with that outcome has seen. */
  predicate Received(h: seq<ChanOp>, o: Outcome) {
    match o
    case Waiting => h == []
    case Withdrawn => h == []
    case Answered(r) => h == [Put(r), Shut]
    case TimedOut => h == [Shut]
    case ClosedByShutdown => h == [Shut]
  }

  predicate IsWaiting(s: State, id: nat) {
    id >= 1 && id in s.outcomes && s.outcomes[id] == Waiting
  }

  lemma {:induction false} RespondDecides(s: State, r: Response, id: nat)
    requires Inv(s) && Hashable(r.id) && IsWaiting(s, id)
    ensures var t := RespondStep(s, r); id in t.outcomes && t.outcomes[id] == Event(Respond(r), id)
  {
    assert IdOk(s, id);
    LookupNames(s.pending, r.id, id);
    var o := Lookup(s.pending, r.id);
    if o.Some? {
      assert o.value in s.outcomes && IdOk(s, o.value);
    }
  }

  lemma {:induction false} OtherStepDecides(s: State, step: Step, id: nat)
    requires Inv(s) && Enabled(s, step) && IsWaiting(s, id) && !step.Respond?
    ensures var t := Apply(s, step); id in t.outcomes && t.outcomes[id] == Event(step, id)
  {
    assert IdOk(s, id);
  }

  /** In every run from where a request waits, its outcome is what the first step that names it says, with the
      body of the response that answered it, and its channel has seen exactly that. */
  lemma {:induction false} FirstEventDecides(s: State, steps: seq<Step>, id: nat)
    requires Inv(s) && Valid(s, steps) && IsWaiting(s, id)
    ensures var t := Exec(s, steps);
            id in t.outcomes && t.outcomes[id] == FirstEvent(steps, id) && Received(History(t, id), FirstEvent(steps, id))
    decreases |steps|
  {
    if steps == [] {
      assert IdOk(s, id);
    } else {
      var u := Apply(s, steps[0]);
      StepKeepsInv(s, steps[0]);
      if steps[0].Respond? {
        RespondDecides(s, steps[0].response, id);
      } else {
        OtherStepDecides(s, steps[0], id);
      }
      assert IdOk(u, id);
      if u.outcomes[id] == Waiting {
        FirstEventDecides(u, steps[1..], id);
      } else {
        RunKeepsOutcome(u, steps[1..], id);
      }
    }
  }

  /** A request that registers waits under the next id, with an empty channel and an armed timer. */
  lemma {:induction false} RegisteredWaits(s: State)
    requires Inv(s) && Enabled(s, Register)
    ensures var t, id := Apply(s, Register), s.counter + 1;
            && id !in s.outcomes && IsWaiting(t, id) && History(t, id) == []
            && id in t.pending && id in t.timers && id in t.sending && t.counter == id
  {
    forall i | i in s.outcomes ensures i != s.counter + 1 {
      assert IdOk(s, i);
    }
  }

  // ---- The outgoing channel ----

  /** What a step puts out: a request, or 0 for a notification. */
  function PutBy(step: Step): seq<nat> {
    match step
    case Enqueue(id) => [id]
    case Notify => [0]
    case _ => []
  }

  function PutOut(steps: seq<Step>): seq<nat> {
    if steps == [] then [] else PutBy(steps[0]) + PutOut(steps[1..])
  }

  function Taken(steps: seq<Step>): nat {
    if steps == [] then 0 else (if steps[0].TakeOutgoing? then 1 else 0) + Taken(steps[1..])
  }

  function Enqueues(steps: seq<Step>): nat {
    if steps == [] then 0 else (if steps[0].Enqueue? then 1 else 0) + Enqueues(steps[1..])
  }

  lemma {:induction false} StepPuts(s: State, step: Step)
    requires Enabled(s, step)
    ensures var t := Apply(s, step);
            && (if step.TakeOutgoing? then s.outgoing != [] && t.outgoing == s.outgoing[1..]
                else t.outgoing == s.outgoing + PutBy(step))
            && t.requestsSent == s.requestsSent + (if step.Enqueue? then 1 else 0)
  {
    assert s.outgoing + [] == s.outgoing;
  }

  lemma {:induction false} TakenFirst(q: seq<nat>, more: seq<nat>, k: nat)
    requires q != [] && k <= |q[1..] + more|
    ensures k + 1 <= |q + more| && (q[1..] + more)[k..] == (q + more)[k + 1..]
  {
  }

  /** What is left of a queue that the steps put to and take from. */
  ghost predicate Queue(before: seq<nat>, steps: seq<Step>, after: seq<nat>) {
    var all := before + PutOut(steps);
    Taken(steps) <= |all| && after == all[Taken(steps)..]
  }

  lemma {:induction false} QueueStep(before: seq<nat>, step: Step, between: seq<nat>, steps: seq<Step>, after: seq<nat>)
    requires if step.TakeOutgoing? then before != [] && between == before[1..] else between == before + PutBy(step)
    requires Queue(between, steps, after)
    ensures Queue(before, [step] + steps, after)
  {
    assert ([step] + steps)[1..] == steps;
    if step.TakeOutgoing? {
      EmptyPlus(PutOut(steps));
      TakenFirst(before, PutOut(steps), Taken(steps));
    } else {
      Assoc(before, PutBy(step), PutOut(steps));
    }
  }

  /** In every run what is in the outgoing channel is what was put out and not yet taken, in order. */
  lemma {:induction false} OutgoingIsAQueue(s: State, steps: seq<Step>)
    requires Valid(s, steps)
    ensures Queue(s.outgoing, steps, Exec(s, steps).outgoing)
    decreases |steps|
  {
    if steps == [] {
      assert s.outgoing + [] == s.outgoing;
    } else {
      var u := Apply(s, steps[0]);
      StepPuts(s, steps[0]);
      OutgoingIsAQueue(u, steps[1..]);
      QueueStep(s.outgoing, steps[0], u.outgoing, steps[1..], Exec(s, steps).outgoing);
      HeadTail(steps);
    }
  }

  /** And every request put out is counted. */
  lemma {:induction false} SentAreCounted(s: State, steps: seq<Step>)
    requires Valid(s, steps)
    ensures Exec(s, steps).requestsSent == s.requestsSent + Enqueues(steps)
    decreases |steps|
  {
    if steps != [] {
      StepPuts(s, steps[0]);
      SentAreCounted(Apply(s, steps[0]), steps[1..]);
    }
  }
}
