/** Correlation at a finer grain: a timer's callback and correlateResponse take the lock separately
    from closing the channel, so the two can cross. With the code's unconditional close in the
    callback (internal/jsonrpc.go:138-143) a channel can be closed twice or sent on when closed; a
    callback that closes only if it removed the entry never does either. */
module TimerRace {
  import Rpc = JsonRpc

  /** How far a started timer callback is: before the lock, or after it, with whether the entry was
      still there. */
  datatype Callback = Started | Looked(removed: bool)

  /** How far correlateResponse is after it has taken the entry out of the map. */
  datatype Delivery = Taken(response: Rpc.Response) | Sent(response: Rpc.Response)

  datatype Ending = ByCallback | ByResponse | ByShutdown | ByCaller

  datatype State = State(
    repaired: bool,                      // the callback closes only if it removed the entry
    counter: nat,
    pending: set<nat>, armed: set<nat>,
    callbacks: map<nat, Callback>, deliveries: map<nat, Delivery>,
    channels: map<nat, seq<Rpc.ChanOp>>,
    removedBy: map<nat, Ending>,         // history: who took the entry out
    called: set<nat>)                    // history: callbacks that have finished

  datatype Step =
    | Register
    | FireStart(id: nat) | FireLook(id: nat) | FireClose(id: nat)
    | Take(id: nat, response: Rpc.Response) | DeliverSend(id: nat) | DeliverClose(id: nat)
    | Withdraw(id: nat) | Sweep

  function Init(repaired: bool): State {
    State(repaired, 0, {}, {}, map[], map[], map[], map[], {})
  }

  predicate Enabled(s: State, step: Step) {
    match step
    case Register => true
    case FireStart(id) => id in s.armed
    case FireLook(id) => id in s.callbacks && s.callbacks[id].Started?
    case FireClose(id) => id in s.callbacks && s.callbacks[id].Looked?
    case Take(id, _) => id in s.pending
    case DeliverSend(id) => id in s.deliveries && s.deliveries[id].Taken?
    case DeliverClose(id) => id in s.deliveries && s.deliveries[id].Sent?
    case Withdraw(id) => id in s.pending
    case Sweep => true
  }

  function Hist(s: State, id: nat): seq<Rpc.ChanOp> {
    if id in s.channels then s.channels[id] else []
  }

  function Apply(s: State, step: Step): State
    requires Enabled(s, step)
  {
    match step
    case Register =>
      var id := s.counter + 1;
      s.(counter := id, pending := s.pending + {id}, armed := s.armed + {id}, channels := s.channels[id := []])
    case FireStart(id) => s.(armed := s.armed - {id}, callbacks := s.callbacks[id := Started])
    case FireLook(id) =>
      if id in s.pending
      then s.(pending := s.pending - {id}, callbacks := s.callbacks[id := Looked(true)],
              removedBy := s.removedBy[id := ByCallback])
      else s.(callbacks := s.callbacks[id := Looked(false)])
    case FireClose(id) =>
      var t := s.(callbacks := s.callbacks - {id}, called := s.called + {id});
      if s.repaired && !s.callbacks[id].removed then t
      else t.(channels := s.channels[id := Rpc.CloseChannel(Hist(s, id))])
    case Take(id, r) =>
      s.(pending := s.pending - {id}, deliveries := s.deliveries[id := Taken(r)],
         removedBy := s.removedBy[id := ByResponse])
    case DeliverSend(id) =>
      s.(armed := s.armed - {id}, deliveries := s.deliveries[id := Sent(s.deliveries[id].response)],
         channels := s.channels[id := Rpc.Send(Hist(s, id), s.deliveries[id].response)])
    case DeliverClose(id) =>
      s.(deliveries := s.deliveries - {id}, channels := s.channels[id := Rpc.CloseChannel(Hist(s, id))])
    case Withdraw(id) =>
      s.(pending := s.pending - {id}, armed := s.armed - {id}, removedBy := s.removedBy[id := ByCaller])
    case Sweep =>
      s.(pending := {}, armed := s.armed - s.pending, channels := Rpc.SweptChannels(s.channels, s.pending),
         removedBy := map id | id in s.removedBy.Keys + s.pending ::
                        if id in s.pending then ByShutdown else s.removedBy[id])
  }

  predicate Valid(s: State, steps: seq<Step>)
    decreases |steps|
  {
    steps == [] || (Enabled(s, steps[0]) && Valid(Apply(s, steps[0]), steps[1..]))
  }

  function Exec(s: State, steps: seq<Step>): State
    requires Valid(s, steps)
    decreases |steps|
  {
    if steps == [] then s else Exec(Apply(s, steps[0]), steps[1..])
  }

  /** The entry of `id` was taken by someone who closes the channel. */
  predicate TakenByCloser(s: State, id: nat) {
    id in s.removedBy && (s.removedBy[id] == ByResponse || s.removedBy[id] == ByShutdown)
  }

  /** The callback of `id` has finished, and has closed. */
  predicate CallbackClosed(s: State, id: nat) {
    id in s.called && !(s.repaired && !(id in s.removedBy && s.removedBy[id] == ByCallback))
  }

  predicate Delivered(s: State, id: nat) {
    id in s.removedBy && s.removedBy[id] == ByResponse && id !in s.deliveries
  }

  /** A value went into the channel. */
  predicate Received(h: seq<Rpc.ChanOp>) {
    exists op :: op in h && op.Put?
  }

  /** Everything about one issued id. */
  predicate IdOk(s: State, id: nat) {
    && (id in s.pending <==> id !in s.removedBy)
    && (id in s.deliveries ==> id in s.removedBy && s.removedBy[id] == ByResponse)
    && !(id in s.armed && id in s.callbacks) && !(id in s.armed && id in s.called) && !(id in s.callbacks && id in s.called)
    && (id in s.callbacks && s.callbacks[id].Looked? ==>
          id !in s.pending && (s.callbacks[id].removed <==> id in s.removedBy && s.removedBy[id] == ByCallback))
    && (id in s.called ==> id !in s.pending)
    && (id in s.removedBy && s.removedBy[id] == ByCallback ==> id in s.callbacks || id in s.called)
    && (id in s.callbacks && s.callbacks[id].Started? ==> !(id in s.removedBy && s.removedBy[id] == ByCallback))
    && (var h := Hist(s, id);
        var closing := CallbackClosed(s, id);
        var swept := id in s.removedBy && s.removedBy[id] == ByShutdown;
        && (Rpc.Shut in h <==> closing || swept || Delivered(s, id))
        && (Rpc.Panic in h ==> closing && (swept || (id in s.deliveries && s.deliveries[id].Sent?) || Delivered(s, id)))
        && (closing && (swept || Delivered(s, id)) ==> Rpc.Panic in h)
        && (Received(h) ==> id in s.removedBy && s.removedBy[id] == ByResponse
                            && !(id in s.deliveries && s.deliveries[id].Taken?))
        && (id in s.deliveries && s.deliveries[id].Sent? ==> (Rpc.Panic in h <==> !Received(h))))
  }

  predicate Known(s: State, id: nat) {
    id in s.pending || id in s.armed || id in s.callbacks || id in s.deliveries || id in s.channels
    || id in s.removedBy || id in s.called
  }

  ghost predicate Inv(s: State) {
    && (forall id: nat :: Known(s, id) ==> 1 <= id <= s.counter)
    && (forall id :: 1 <= id <= s.counter ==> id in s.channels && IdOk(s, id))
  }

  /** Everything the two states say about one id is the same. */
  predicate SameId(s: State, t: State, id: nat) {
    && s.repaired == t.repaired && Hist(s, id) == Hist(t, id)
    && (id in s.pending <==> id in t.pending) && (id in s.armed <==> id in t.armed) && (id in s.called <==> id in t.called)
    && (id in s.callbacks <==> id in t.callbacks) && (id in s.callbacks ==> t.callbacks[id] == s.callbacks[id])
    && (id in s.deliveries <==> id in t.deliveries) && (id in s.deliveries ==> t.deliveries[id] == s.deliveries[id])
    && (id in s.removedBy <==> id in t.removedBy) && (id in s.removedBy ==> t.removedBy[id] == s.removedBy[id])
  }

  lemma {:induction false} SameIdOk(s: State, t: State, id: nat)
    requires IdOk(s, id) && SameId(s, t, id)
    ensures IdOk(t, id)
  {
  }

  predicate IsAbout(s: State, step: Step, id: nat) {
    match step
    case Register => false
    case Sweep => id in s.pending
    case Take(i, _) => i == id
    case _ => step.id == id
  }

  lemma {:induction false} OthersSame(s: State, step: Step, id: nat)
    requires Enabled(s, step) && !IsAbout(s, step, id) && id != s.counter + 1
    ensures SameId(s, Apply(s, step), id)
  {
  }

  lemma {:induction false} ReceivedLast(h: seq<Rpc.ChanOp>, op: Rpc.ChanOp)
    ensures Received(h + [op]) <==> Received(h) || op.Put?
  {
    if Received(h) {
      var o :| o in h && o.Put?;
      assert o in h + [op];
    }
    assert op in h + [op];
  }

  lemma {:induction false} DeliveryKeepsId(s: State, step: Step, id: nat)
    requires IdOk(s, id) && Enabled(s, step) && IsAbout(s, step, id)
    requires step.Take? || step.DeliverSend? || step.DeliverClose?
    ensures IdOk(Apply(s, step), id)
  {
    var h, t := Hist(s, id), Apply(s, step);
    if step.DeliverSend? {
      var r := s.deliveries[id].response;
      assert !Received(h) && Rpc.Panic !in h;
      var op := if Rpc.Shut in h then Rpc.Panic else Rpc.Put(r);
      assert Hist(t, id) == h + [op];
      ReceivedLast(h, op);
    } else if step.DeliverClose? {
      var op := if Rpc.Shut in h then Rpc.Panic else Rpc.Shut;
      assert Hist(t, id) == h + [op];
      ReceivedLast(h, op);
    }
  }

  lemma {:induction false} CallbackKeepsId(s: State, step: Step, id: nat)
    requires IdOk(s, id) && Enabled(s, step) && IsAbout(s, step, id)
    requires step.FireStart? || step.FireLook? || step.FireClose? || step.Withdraw?
    ensures IdOk(Apply(s, step), id)
  {
  }

  lemma {:induction false} SweepKeepsId(s: State, id: nat)
    requires IdOk(s, id) && id in s.pending && id in s.channels
    ensures IdOk(Apply(s, Sweep), id)
  {
  }

  lemma {:induction false} StepKeepsId(s: State, step: Step, id: nat)
    requires Inv(s) && Enabled(s, step) && 1 <= id <= s.counter
    ensures IdOk(Apply(s, step), id) && id in Apply(s, step).channels
  {
    var t := Apply(s, step);
    assert IdOk(s, id) && id in s.channels;
    if !IsAbout(s, step, id) {
      OthersSame(s, step, id);
      SameIdOk(s, t, id);
    } else if step.Sweep? {
      SweepKeepsId(s, id);
    } else if step.Take? || step.DeliverSend? || step.DeliverClose? {
      DeliveryKeepsId(s, step, id);
    } else {
      CallbackKeepsId(s, step, id);
    }
  }

  lemma {:induction false} StepKeepsInv(s: State, step: Step)
    requires Inv(s) && Enabled(s, step)
    ensures Inv(Apply(s, step))
  {
    var t := Apply(s, step);
    forall id | 1 <= id <= t.counter ensures id in t.channels && IdOk(t, id) {
      if id <= s.counter {
        StepKeepsId(s, step, id);
      } else {
        assert !Known(s, id);
      }
    }
    forall id: nat | Known(t, id) ensures 1 <= id <= t.counter {
      assert Known(s, id) || id == t.counter;
    }
  }

  lemma {:induction false} RunKeepsInv(s: State, steps: seq<Step>)
    requires Inv(s) && Valid(s, steps)
    ensures Inv(Exec(s, steps)) && Exec(s, steps).repaired == s.repaired
    decreases |steps|
  {
    if steps != [] {
      StepKeepsInv(s, steps[0]);
      RunKeepsInv(Apply(s, steps[0]), steps[1..]);
    }
  }

  /** Close only if you removed the entry: no run panics. */
  lemma {:induction false} RepairedNeverPanics(steps: seq<Step>, id: nat)
    requires Valid(Init(true), steps)
    ensures Rpc.Panic !in Hist(Exec(Init(true), steps), id)
  {
    RunKeepsInv(Init(true), steps);
    var t := Exec(Init(true), steps);
    if Known(t, id) {
      assert IdOk(t, id);
    }
  }

  /** As written, a channel has panicked in exactly these cases: no delivery is under way, and the callback
      finished although a response or the shutdown had already taken the entry; or a delivery has just sent,
      and its value did not go in. */
  lemma {:induction false} PanicsExactlyWhenLost(steps: seq<Step>, id: nat)
    requires Valid(Init(false), steps)
    requires 1 <= id <= Exec(Init(false), steps).counter
    ensures var t := Exec(Init(false), steps);
            Rpc.Panic in Hist(t, id) <==>
            if id !in t.deliveries then id in t.called && TakenByCloser(t, id)
            else t.deliveries[id].Sent? && !Received(Hist(t, id))
  {
    RunKeepsInv(Init(false), steps);
    assert IdOk(Exec(Init(false), steps), id);
  }

  /** The run in which a timer fires while its response is being delivered. */
  lemma {:induction false} CrossingPanics(r: Rpc.Response)
    ensures var steps := [Register, FireStart(1), Take(1, r), DeliverSend(1), DeliverClose(1), FireLook(1), FireClose(1)];
            Valid(Init(false), steps) && Hist(Exec(Init(false), steps), 1) == [Rpc.Put(r), Rpc.Shut, Rpc.Panic]
  {
    var s0 := Init(false);
    var s1 := Apply(s0, Register);
    var s2 := Apply(s1, FireStart(1));
    var s3 := Apply(s2, Take(1, r));
    var s4 := Apply(s3, DeliverSend(1));
    assert Hist(s4, 1) == [Rpc.Put(r)];
    var s5 := Apply(s4, DeliverClose(1));
    assert Hist(s5, 1) == [Rpc.Put(r), Rpc.Shut];
    var s6 := Apply(s5, FireLook(1));
    var s7 := Apply(s6, FireClose(1));
    assert Hist(s7, 1) == [Rpc.Put(r), Rpc.Shut, Rpc.Panic];
    OneStep(s6, FireClose(1), []);
    OneStep(s5, FireLook(1), [FireClose(1)]);
    OneStep(s4, DeliverClose(1), [FireLook(1), FireClose(1)]);
    OneStep(s3, DeliverSend(1), [DeliverClose(1), FireLook(1), FireClose(1)]);
    OneStep(s2, Take(1, r), [DeliverSend(1), DeliverClose(1), FireLook(1), FireClose(1)]);
    OneStep(s1, FireStart(1), [Take(1, r), DeliverSend(1), DeliverClose(1), FireLook(1), FireClose(1)]);
    OneStep(s0, Register, [FireStart(1), Take(1, r), DeliverSend(1), DeliverClose(1), FireLook(1), FireClose(1)]);
  }

  lemma {:induction false} OneStep(s: State, step: Step, rest: seq<Step>)
    requires Enabled(s, step) && Valid(Apply(s, step), rest)
    ensures Valid(s, [step] + rest) && Exec(s, [step] + rest) == Exec(Apply(s, step), rest)
  {
    assert ([step] + rest)[1..] == rest;
  }
}
