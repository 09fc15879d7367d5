/** Request/response correlation (internal/jsonrpc.go). One step is one lock-protected operation with
    its timer and channel effects; arming a timer and storing the pending request are one step, and a
    stopped timer does not fire. */
module JsonRpc {
  import opened Wrappers

  // ---- Ids and responses ----

  /** A JSON-RPC id as a Go `interface{}`: requests are issued with `Int`, JSON decodes to the others.
      `Composite` is an array or an object. */
  datatype Id = Null | Bool(b: bool) | Int(n: int) | Float(r: real) | Str(s: string) | Composite

  /** What a Go map can be asked for; a lookup with another key panics. */
  predicate Hashable(id: Id) {
    !id.Composite?
  }

  datatype Body = Result(value: string) | Error(code: int, message: string)

  datatype Response = Response(id: Id, body: Body)

  /** Integers up to here are exact as float64. */
  const MAX_EXACT := 0x20_0000_0000_0000

  /** Go's `int64(f)`: truncation toward zero. */
  function Trunc(r: real): int {
    if r >= 0.0 then r.Floor else -((-r).Floor)
  }

  /** What an id that was sent as an integer is after encoding and decoding. */
  function JsonId(n: nat): Id
    requires n <= MAX_EXACT
  {
    Float(n as real)
  }

  /** The pending request that a response id selects (internal/jsonrpc.go:298-311). */
  function Lookup(pending: set<nat>, id: Id): (o: Option<nat>)
    ensures o.Some? ==> o.value in pending
  {
    match id
    case Int(n) => if n >= 0 && n in pending then Some(n) else None
    case Float(r) => var n := Trunc(r); if n >= 0 && n in pending then Some(n) else None
    case _ => None
  }

  // ---- Channels ----

  /** What happened on a response channel; Panic is Go's panic on a closed channel. */
  datatype ChanOp = Put(response: Response) | Shut | Panic

  /** A non-blocking send on a channel of capacity one that nobody else sends on. */
  function Send(h: seq<ChanOp>, r: Response): seq<ChanOp> {
    if Shut in h then h + [Panic]
    else if exists op :: op in h && op.Put? then h
    else h + [Put(r)]
  }

  function CloseChannel(h: seq<ChanOp>): seq<ChanOp> {
    if Shut in h then h + [Panic] else h + [Shut]
  }

  // ---- States and steps ----

  datatype Outcome = Waiting | Answered(response: Response) | TimedOut | ClosedByShutdown | Withdrawn

  datatype State = State(
    capacity: nat,                        // of the outgoing channel
    counter: nat,                         // the last id given out
    done: bool,                           // the context is cancelled
    starting: nat,                        // SendRequest calls past the context check
    sending: set<nat>,                    // SendRequest calls waiting to put their request out
    pending: set<nat>,                    // pendingRequests
    timers: set<nat>,                     // armed request timers
    channels: map<nat, seq<ChanOp>>,      // the response channels
    outgoing: seq<nat>,                   // requests in the outgoing channel, 0 for a notification: ids start at 1
    requestsSent: nat, responsesReceived: nat, timeouts: nat,
    enqueued: set<nat>,                   // history: requests that were put out
    outcomes: map<nat, Outcome>)          // history: what became of each id

  datatype Step =
    | Begin | Register | Enqueue(id: nat) | Withdraw(id: nat)
    | Respond(response: Response) | TimerFires(id: nat)
    | Cancel | Sweep | TakeOutgoing
    | Notify    // SendNotification puts a notification out
    | SkipId    // another user of the shared counter takes an id

  function Init(capacity: nat): State {
    State(capacity, 0, false, 0, {}, {}, {}, map[], [], 0, 0, 0, {}, map[])
  }

  predicate Enabled(s: State, step: Step) {
    match step
    case Begin => !s.done
    case Register => s.starting > 0
    case Enqueue(id) => id in s.sending && |s.outgoing| < s.capacity
    case Withdraw(id) => id in s.sending && s.done
    case Respond(r) => Hashable(r.id)    // else the process ends in a panic
    case TimerFires(id) => id in s.timers
    case Cancel => true
    case Sweep => s.done
    case TakeOutgoing => s.outgoing != []
    case Notify => |s.outgoing| < s.capacity
    case SkipId => true
  }

  function RegisterStep(s: State): State {
    var id := s.counter + 1;
    s.(counter := id, starting := if s.starting > 0 then s.starting - 1 else 0, sending := s.sending + {id},
       pending := s.pending + {id}, timers := s.timers + {id},
       channels := s.channels[id := []], outcomes := s.outcomes[id := Waiting])
  }

  function History(s: State, id: nat): seq<ChanOp> {
    if id in s.channels then s.channels[id] else []
  }

  /** correlateResponse once it has found the request. */
  function AnswerStep(s: State, id: nat, r: Response): State {
    var own := r.(id := Int(id));
    var h := History(s, id);
    var sent := Send(h, own);
    s.(pending := s.pending - {id}, timers := s.timers - {id},
       channels := s.channels[id := CloseChannel(sent)],
       responsesReceived := s.responsesReceived + (if sent == h + [Put(own)] then 1 else 0),
       outcomes := s.outcomes[id := Answered(own)])
  }

  function RespondStep(s: State, r: Response): State {
    var o := Lookup(s.pending, r.id);
    if o.None? then s else AnswerStep(s, o.value, r)
  }

  function SweptChannels(channels: map<nat, seq<ChanOp>>, ids: set<nat>): map<nat, seq<ChanOp>> {
    map id | id in channels :: if id in ids then CloseChannel(channels[id]) else channels[id]
  }

  function Resolve(s: State, ids: set<nat>, o: Outcome): map<nat, Outcome> {
    map id | id in s.outcomes.Keys + ids :: if id in ids then o else s.outcomes[id]
  }

  function Apply(s: State, step: Step): State
    requires Enabled(s, step)
  {
    match step
    case Begin => s.(starting := s.starting + 1)
    case Register => RegisterStep(s)
    case Enqueue(id) =>
      s.(sending := s.sending - {id}, outgoing := s.outgoing + [id],
         requestsSent := s.requestsSent + 1, enqueued := s.enqueued + {id})
    case Withdraw(id) =>
      var t := s.(sending := s.sending - {id});
      if id in s.pending
      then t.(pending := s.pending - {id}, timers := s.timers - {id}, outcomes := s.outcomes[id := Withdrawn])
      else t
    case Respond(r) => RespondStep(s, r)
    case TimerFires(id) =>
      s.(timeouts := s.timeouts + 1, timers := s.timers - {id}, pending := s.pending - {id},
         channels := s.channels[id := CloseChannel(History(s, id))],
         outcomes := if id in s.pending then s.outcomes[id := TimedOut] else s.outcomes)
    case Cancel => s.(done := true)
    case Sweep =>
      s.(pending := {}, timers := s.timers - s.pending,
         channels := SweptChannels(s.channels, s.pending),
         outcomes := Resolve(s, s.pending, ClosedByShutdown))
    case TakeOutgoing => s.(outgoing := s.outgoing[1..])
    case Notify => s.(outgoing := s.outgoing + [0])
    case SkipId => s.(counter := s.counter + 1)
  }

  predicate Valid(s: State, steps: seq<Step>)
    decreases |steps|
  {
    steps == [] || (Enabled(s, steps[0]) && Valid(Apply(s, steps[0]), steps[1..]))
  }

  function Exec(s: State, steps: seq<Step>): State
    requires Valid(s, steps)
    decreases |steps|
  {
    if steps == [] then s else Exec(Apply(s, steps[0]), steps[1..])
  }

  // ---- The invariant ----

  /** The whole history of a channel whose request ended so. */
  function Expected(o: Outcome): seq<ChanOp> {
    match o
    case Answered(r) => [Put(r), Shut]
    case TimedOut => [Shut]
    case ClosedByShutdown => [Shut]
    case _ => []
  }

  function AnsweredIds(m: map<nat, Outcome>): set<nat> {
    set id | id in m && m[id].Answered?
  }

  function TimedOutIds(m: map<nat, Outcome>): set<nat> {
    set id | id in m && m[id].TimedOut?
  }

  /** One issued id: it is pending with an armed timer exactly while it waits, and its channel holds
      exactly what its outcome calls for. */
  predicate IdOk(s: State, id: nat)
    requires id in s.outcomes
  {
    && 1 <= id <= s.counter
    && (id in s.pending <==> s.outcomes[id] == Waiting) && (id in s.timers <==> s.outcomes[id] == Waiting)
    && History(s, id) == Expected(s.outcomes[id])
    && (s.outcomes[id].Answered? ==> s.outcomes[id].response.id == Int(id))
    && !(id in s.sending && id in s.enqueued)
    && (s.outcomes[id] == Waiting ==> id in s.sending || id in s.enqueued)
    && (s.outcomes[id] == Withdrawn ==> id !in s.sending && id !in s.enqueued)
  }

  predicate Shape(s: State) {
    && s.channels.Keys == s.outcomes.Keys
    && s.pending <= s.outcomes.Keys && s.timers <= s.outcomes.Keys
    && s.sending <= s.outcomes.Keys && s.enqueued <= s.outcomes.Keys
    && (forall id :: id in s.outcomes ==> IdOk(s, id))
  }

  /** The counters count the outcomes. */
  predicate Counted(s: State) {
    && s.responsesReceived == |AnsweredIds(s.outcomes)| && s.timeouts == |TimedOutIds(s.outcomes)|
    && s.requestsSent == |s.enqueued| && |s.outgoing| <= s.capacity
  }

  predicate Inv(s: State) {
    Shape(s) && Counted(s)
  }

  /** The parts of a state that decide about one id. */
  predicate SameId(s: State, t: State, id: nat) {
    && id in s.outcomes && id in t.outcomes && s.outcomes[id] == t.outcomes[id] && History(s, id) == History(t, id)
    && (id in s.pending <==> id in t.pending) && (id in s.timers <==> id in t.timers)
    && (id in s.sending || id in s.enqueued <==> id in t.sending || id in t.enqueued)
    && (id in t.sending && id in t.enqueued ==> id in s.sending && id in s.enqueued)
    && s.counter <= t.counter
  }

  lemma {:induction false} Recount(m: map<nat, Outcome>, id: nat, o: Outcome)
    requires id in m ==> m[id] == Waiting || m[id] == o
    requires id in m && m[id] == o ==> !o.Answered? && !o.TimedOut?
    ensures |AnsweredIds(m[id := o])| == |AnsweredIds(m)| + (if o.Answered? then 1 else 0)
    ensures |TimedOutIds(m[id := o])| == |TimedOutIds(m)| + (if o.TimedOut? then 1 else 0)
  {
    RecountAnswered(m, id, o);
    RecountTimedOut(m, id, o);
  }

  lemma {:induction false} RecountAnswered(m: map<nat, Outcome>, id: nat, o: Outcome)
    requires id !in AnsweredIds(m)
    ensures |AnsweredIds(m[id := o])| == |AnsweredIds(m)| + (if o.Answered? then 1 else 0)
  {
    if o.Answered? {
      assert AnsweredIds(m[id := o]) == AnsweredIds(m) + {id};
    } else {
      assert AnsweredIds(m[id := o]) == AnsweredIds(m);
    }
  }

  lemma {:induction false} RecountTimedOut(m: map<nat, Outcome>, id: nat, o: Outcome)
    requires id !in TimedOutIds(m)
    ensures |TimedOutIds(m[id := o])| == |TimedOutIds(m)| + (if o.TimedOut? then 1 else 0)
  {
    if o.TimedOut? {
      assert TimedOutIds(m[id := o]) == TimedOutIds(m) + {id};
    } else {
      assert TimedOutIds(m[id := o]) == TimedOutIds(m);
    }
  }

  lemma {:induction false} AnswerKeepsInv(s: State, id: nat, r: Response)
    requires Inv(s) && id in s.pending
    ensures Inv(AnswerStep(s, id, r))
    ensures History(AnswerStep(s, id, r), id) == [Put(r.(id := Int(id))), Shut]
  {
    var own := r.(id := Int(id));
    var t := AnswerStep(s, id, r);
    assert IdOk(s, id);
    assert Send([], own) == [Put(own)];
    Recount(s.outcomes, id, Answered(own));
    ShapeBut(s, t, id);
  }

  /** A step that changes one id only needs to be looked at there. */
  lemma {:induction false} ShapeBut(s: State, t: State, id: nat)
    requires Shape(s)
    requires t.channels.Keys == t.outcomes.Keys == s.outcomes.Keys + {id}
    requires t.pending <= t.outcomes.Keys && t.timers <= t.outcomes.Keys
    requires t.sending <= t.outcomes.Keys && t.enqueued <= t.outcomes.Keys
    requires IdOk(t, id)
    requires forall i :: i in s.outcomes && i != id ==> SameId(s, t, i)
    ensures Shape(t)
  {
    forall i | i in t.outcomes ensures IdOk(t, i) {
      if i != id {
        assert IdOk(s, i) && SameId(s, t, i);
      }
    }
  }

  lemma {:induction false} RegisterKeepsInv(s: State)
    requires Inv(s)
    ensures Inv(RegisterStep(s))
  {
    var t := RegisterStep(s);
    var id := s.counter + 1;
    assert id !in s.outcomes by {
      forall i | i in s.outcomes ensures i != id {
        assert IdOk(s, i);
      }
    }
    Recount(s.outcomes, id, Waiting);
    ShapeBut(s, t, id);
  }

  lemma {:induction false} TimerKeepsInv(s: State, id: nat)
    requires Inv(s) && Enabled(s, TimerFires(id))
    ensures Inv(Apply(s, TimerFires(id)))
  {
    var t := Apply(s, TimerFires(id));
    assert IdOk(s, id);
    Recount(s.outcomes, id, TimedOut);
    ShapeBut(s, t, id);
  }

  lemma {:induction false} SweepCounts(s: State)
    requires forall id :: id in s.pending ==> id in s.outcomes && s.outcomes[id] == Waiting
    ensures var m := Resolve(s, s.pending, ClosedByShutdown);
            AnsweredIds(m) == AnsweredIds(s.outcomes) && TimedOutIds(m) == TimedOutIds(s.outcomes)
  {
  }

  lemma {:induction false} SweepKeepsInv(s: State)
    requires Inv(s) && Enabled(s, Sweep)
    ensures Inv(Apply(s, Sweep))
  {
    var t := Apply(s, Sweep);
    assert t.outcomes.Keys == s.outcomes.Keys;
    forall id | id in t.outcomes ensures IdOk(t, id) {
      assert IdOk(s, id);
    }
    forall id | id in s.outcomes ensures id in s.pending <==> s.outcomes[id] == Waiting {
      assert IdOk(s, id);
    }
    SweepCounts(s);
  }

  lemma {:induction false} SendKeepsInv(s: State, step: Step, id: nat)
    requires Inv(s) && Enabled(s, step) && (step == Withdraw(id) || step == Enqueue(id))
    ensures Inv(Apply(s, step))
  {
    var t := Apply(s, step);
    assert IdOk(s, id);
    if id in s.pending && step.Withdraw? {
      Recount(s.outcomes, id, Withdrawn);
    }
    ShapeBut(s, t, id);
  }

  lemma {:induction false} StepKeepsInv(s: State, step: Step)
    requires Inv(s) && Enabled(s, step)
    ensures Inv(Apply(s, step))
  {
    match step
    case Register => RegisterKeepsInv(s);
    case Enqueue(id) => SendKeepsInv(s, step, id);
    case Withdraw(id) => SendKeepsInv(s, step, id);
    case Respond(r) =>
      var o := Lookup(s.pending, r.id);
      if o.Some? {
        AnswerKeepsInv(s, o.value, r);
      }
    case TimerFires(id) => TimerKeepsInv(s, id);
    case Sweep => SweepKeepsInv(s);
    case _ => SameOutcomes(s, Apply(s, step));
  }

  lemma {:induction false} SameOutcomes(s: State, t: State)
    requires Inv(s) && t == s.(counter := t.counter, done := t.done, starting := t.starting, outgoing := t.outgoing)
    requires s.counter <= t.counter && |t.outgoing| <= s.capacity
    ensures Inv(t)
  {
    forall id | id in t.outcomes ensures IdOk(t, id) {
      assert IdOk(s, id);
    }
  }

  lemma {:induction false} RunKeepsInv(s: State, steps: seq<Step>)
    requires Inv(s) && Valid(s, steps)
    ensures Inv(Exec(s, steps))
    decreases |steps|
  {
    if steps != [] {
      StepKeepsInv(s, steps[0]);
      RunKeepsInv(Apply(s, steps[0]), steps[1..]);
    }
  }

  // ---- Exactly one outcome ----

  /** What has happened to an id, and on its channel, stays. */
  lemma {:induction false} StepKeepsOutcome(s: State, step: Step, id: nat)
    requires Inv(s) && Enabled(s, step) && id in s.outcomes && s.outcomes[id] != Waiting
    ensures var t := Apply(s, step);
            id in t.outcomes && t.outcomes[id] == s.outcomes[id] && History(t, id) == History(s, id)
  {
    assert IdOk(s, id);
    if step.Register? {
      assert id != s.counter + 1;
    }
  }

  lemma {:induction false} RunKeepsOutcome(s: State, steps: seq<Step>, id: nat)
    requires Inv(s) && Valid(s, steps) && id in s.outcomes && s.outcomes[id] != Waiting
    ensures var t := Exec(s, steps);
            id in t.outcomes && t.outcomes[id] == s.outcomes[id] && History(t, id) == History(s, id)
    decreases |steps|
  {
    if steps != [] {
      StepKeepsInv(s, steps[0]);
      StepKeepsOutcome(s, steps[0], id);
      RunKeepsOutcome(Apply(s, steps[0]), steps[1..], id);
    }
  }

  lemma {:induction false} InitInv(capacity: nat)
    ensures Inv(Init(capacity))
  {
    assert AnsweredIds(map[]) == {} && TimedOutIds(map[]) == {};
  }

  /** In every run each id has one outcome; its channel got nothing, was closed, or got the one
      response with its own id and was then closed; the pending ids are the unresolved ones; and the
      counters count the outcomes. */
  lemma {:induction false} ExactlyOnce(capacity: nat, steps: seq<Step>, id: nat)
    requires Valid(Init(capacity), steps)
    ensures var t := Exec(Init(capacity), steps);
            && (id in t.channels <==> id in t.outcomes)
            && (id in t.pending <==> id in t.outcomes && t.outcomes[id] == Waiting)
            && (id in t.outcomes ==>
                  || History(t, id) == []
                  || History(t, id) == [Shut]
                  || exists r :: History(t, id) == [Put(r), Shut] && r.id == Int(id) && t.outcomes[id] == Answered(r))
            && (id in t.outcomes && History(t, id) == [] ==> t.outcomes[id] in {Waiting, Withdrawn})
            && t.responsesReceived == |AnsweredIds(t.outcomes)| && t.timeouts == |TimedOutIds(t.outcomes)|
  {
    InitInv(capacity);
    RunKeepsInv(Init(capacity), steps);
    var t := Exec(Init(capacity), steps);
    if id in t.outcomes {
      assert IdOk(t, id);
    }
  }

  // ---- Ids after JSON ----

  lemma {:induction false} JsonIdFindsOwnRequest(pending: set<nat>, n: nat)
    requires n <= MAX_EXACT
    ensures Lookup(pending, JsonId(n)) == if n in pending then Some(n) else None
  {
    assert Trunc(n as real) == n;
  }

  /** A float id selects a request other than the one it equals exactly when it is fractional. */
  lemma {:induction false} MisdirectedIffFractional(pending: set<nat>, r: real)
    requires Lookup(pending, Float(r)).Some?
    ensures Lookup(pending, Float(r)).value as real != r <==> r.Floor as real != r
  {
  }

  lemma {:induction false} FractionalIdAnswersAnother()
    ensures Lookup({1}, Float(1.5)) == Some(1)
  {
    assert Trunc(1.5) == 1;
  }

  // ---- Order independence ----

  function DeliverAll(s: State, rs: seq<Response>): State
    decreases |rs|
  {
    if rs == [] then s else DeliverAll(RespondStep(s, rs[0]), rs[1..])
  }

  /** Responses to requests with the given, distinct, ids, as JSON decodes them. */
  predicate FromJson(rs: seq<Response>, ids: seq<nat>) {
    |rs| == |ids|
    && (forall i :: 0 <= i < |rs| ==> ids[i] <= MAX_EXACT && rs[i].id == JsonId(ids[i]))
    && forall i, j :: 0 <= i < j < |ids| ==> ids[i] != ids[j]
  }

  lemma {:induction false} RespondOne(s: State, r: Response, n: nat, id: nat)
    requires Inv(s) && n <= MAX_EXACT && r.id == JsonId(n)
    ensures var t := RespondStep(s, r);
            && Inv(t) && t.pending == s.pending - {n}
            && History(t, id) == if id == n && n in s.pending then [Put(r.(id := Int(n))), Shut] else History(s, id)
  {
    JsonIdFindsOwnRequest(s.pending, n);
    if n in s.pending {
      AnswerKeepsInv(s, n, r);
    }
  }

  /** Delivery leaves every channel alone that no response names, or whose request is not pending. */
  lemma {:induction false} LeavesOthers(s: State, rs: seq<Response>, ids: seq<nat>, id: nat)
    requires Inv(s) && FromJson(rs, ids)
    ensures var t := DeliverAll(s, rs);
            && Inv(t) && (id in t.pending <==> id in s.pending && id !in ids)
            && (id !in s.pending || id !in ids ==> History(t, id) == History(s, id))
    decreases |rs|
  {
    if rs != [] {
      RespondOne(s, rs[0], ids[0], id);
      HeadIn(ids, id);
      LeavesOthers(RespondStep(s, rs[0]), rs[1..], ids[1..], id);
    }
  }

  lemma {:induction false} HeadIn<T>(xs: seq<T>, x: T)
    requires xs != []
    ensures x in xs <==> x == xs[0] || x in xs[1..]
  {
    assert xs == [xs[0]] + xs[1..];
  }

  /** Each pending request that a response names gets that response, wherever it stands in the order. */
  lemma {:induction false} DeliversToOwners(s: State, rs: seq<Response>, ids: seq<nat>, i: nat)
    requires Inv(s) && FromJson(rs, ids) && i < |rs| && ids[i] in s.pending
    ensures History(DeliverAll(s, rs), ids[i]) == [Put(rs[i].(id := Int(ids[i]))), Shut]
    decreases |rs|
  {
    RespondOne(s, rs[0], ids[0], ids[i]);
    var u := RespondStep(s, rs[0]);
    if i == 0 {
      LeavesOthers(u, rs[1..], ids[1..], ids[0]);
    } else {
      DeliversToOwners(u, rs[1..], ids[1..], i - 1);
    }
  }

  lemma {:induction false} RespondCommutes(s: State, a: Response, b: Response, m: nat, n: nat)
    requires m != n && m <= MAX_EXACT && n <= MAX_EXACT && a.id == JsonId(m) && b.id == JsonId(n)
    ensures RespondStep(RespondStep(s, a), b) == RespondStep(RespondStep(s, b), a)
  {
    JsonIdFindsOwnRequest(s.pending, m);
    JsonIdFindsOwnRequest(s.pending, n);
    JsonIdFindsOwnRequest(RespondStep(s, a).pending, n);
    JsonIdFindsOwnRequest(RespondStep(s, b).pending, m);
    if m in s.pending && n in s.pending {
      AnswersCommute(s, m, a, n, b);
    }
  }

  lemma {:induction false} AnswersCommute(s: State, m: nat, a: Response, n: nat, b: Response)
    requires m != n
    ensures AnswerStep(AnswerStep(s, m, a), n, b) == AnswerStep(AnswerStep(s, n, b), m, a)
  {
    var x := AnswerStep(AnswerStep(s, m, a), n, b);
    var y := AnswerStep(AnswerStep(s, n, b), m, a);
    assert History(AnswerStep(s, m, a), n) == History(s, n) && History(AnswerStep(s, n, b), m) == History(s, m);
    assert x.channels == y.channels;
    assert x.outcomes == y.outcomes;
    assert x.pending == y.pending && x.timers == y.timers;
  }

  function Remove<T>(xs: seq<T>, i: nat): (r: seq<T>)
    requires i < |xs|
    ensures |r| == |xs| - 1
  {
    xs[..i] + xs[i + 1..]
  }

  lemma {:induction false} MoveToFront(s: State, rs: seq<Response>, ids: seq<nat>, i: nat)
    requires FromJson(rs, ids) && i < |rs|
    ensures DeliverAll(s, rs) == DeliverAll(RespondStep(s, rs[i]), Remove(rs, i))
    decreases i
  {
    if i == 0 {
      assert Remove(rs, 0) == rs[1..];
    } else {
      MoveToFront(RespondStep(s, rs[0]), rs[1..], ids[1..], i - 1);
      RespondCommutes(s, rs[0], rs[i], ids[0], ids[i]);
      assert rs[1..][i - 1] == rs[i];
      var rest := Remove(rs, i);
      assert rest[0] == rs[0] && rest[1..] == Remove(rs[1..], i - 1);
    }
  }

  lemma {:induction false} RemoveKeepsFromJson(rs: seq<Response>, ids: seq<nat>, i: nat)
    requires FromJson(rs, ids) && i < |rs|
    ensures FromJson(Remove(rs, i), Remove(ids, i))
    ensures multiset(Remove(rs, i)) == multiset(rs) - multiset{rs[i]}
  {
    assert rs == rs[..i] + [rs[i]] + rs[i + 1..];
    forall k | 0 <= k < |rs| - 1
      ensures Remove(rs, i)[k] == rs[if k < i then k else k + 1] && Remove(ids, i)[k] == ids[if k < i then k else k + 1]
    {
    }
  }

  /** Any two orders of the same responses, with distinct ids, end in the same state. */
  lemma {:induction false} OrderDoesNotMatter(s: State, rs: seq<Response>, ids: seq<nat>, qs: seq<Response>, jds: seq<nat>)
    requires FromJson(rs, ids) && FromJson(qs, jds) && multiset(rs) == multiset(qs)
    ensures DeliverAll(s, rs) == DeliverAll(s, qs)
    decreases |rs|
  {
    if rs == [] {
      assert |multiset(rs)| == |multiset(qs)|;
    } else {
      assert rs[0] in multiset(qs);
      var i :| 0 <= i < |qs| && qs[i] == rs[0];
      MoveToFront(s, qs, jds, i);
      RemoveKeepsFromJson(qs, jds, i);
      RemoveKeepsFromJson(rs, ids, 0);
      assert Remove(rs, 0) == rs[1..];
      OrderDoesNotMatter(RespondStep(s, rs[0]), rs[1..], Remove(ids, 0), Remove(qs, i), Remove(jds, i));
    }
  }

  // ---- The handler ----

  /** The message handler's correlation state. SendRequest is the three atomic pieces Begin, Register
      and Enqueue or Withdraw, between which other goroutines run. */
  class MessageHandler {
    const capacity: nat
    var counter: nat
    var done: bool
    var starting: nat
    var sending: set<nat>
    var pendingRequests: set<nat>
    var timers: set<nat>
    var channels: map<nat, seq<ChanOp>>
    var outgoing: seq<nat>
    var requestsSent: nat
    var responsesReceived: nat
    var timeouts: nat
    ghost var enqueued: set<nat>
    ghost var outcomes: map<nat, Outcome>

    ghost function View(): State
      reads this
    {
      State(capacity, counter, done, starting, sending, pendingRequests, timers, channels, outgoing,
            requestsSent, responsesReceived, timeouts, enqueued, outcomes)
    }

    constructor (bufferSize: nat)
      ensures View() == Init(if bufferSize == 0 then 100 else bufferSize)
    {
      capacity := if bufferSize == 0 then 100 else bufferSize;
      counter, done, starting, sending, pendingRequests, timers := 0, false, 0, {}, {}, {};
      channels, outgoing, requestsSent, responsesReceived, timeouts := map[], [], 0, 0, 0;
      enqueued, outcomes := {}, map[];
    }

    function ChannelOf(id: nat): seq<ChanOp>
      reads this
    {
      if id in channels then channels[id] else []
    }

    method BeginSend() returns (ok: bool)
      modifies this
      ensures ok == Enabled(old(View()), Begin)
      ensures View() == if ok then Apply(old(View()), Begin) else old(View())
    {
      if done {
        return false;
      }
      starting := starting + 1;
      return true;
    }

    /** RequestID.Next, for the progress handler, which shares the counter. */
    method NextId() returns (id: nat)
      modifies `counter
      ensures id == old(counter) + 1 && View() == Apply(old(View()), SkipId)
    {
      counter := counter + 1;
      id := counter;
    }

    method RegisterRequest() returns (id: nat)
      requires starting > 0
      modifies this
      ensures id == old(counter) + 1 && View() == Apply(old(View()), Register)
    {
      counter := counter + 1;
      id := counter;
      starting := starting - 1;
      sending := sending + {id};
      channels := channels[id := []];
      timers := timers + {id};
      pendingRequests := pendingRequests + {id};
      outcomes := outcomes[id := Waiting];
    }

    /** The select at the end of SendRequest: put the request out, or give up when cancelled. */
    method FinishSend(id: nat) returns (sent: bool)
      requires id in sending && (|outgoing| < capacity || done)
      modifies this
      ensures sent ==> Enabled(old(View()), Enqueue(id)) && View() == Apply(old(View()), Enqueue(id))
      ensures !sent ==> Enabled(old(View()), Withdraw(id)) && View() == Apply(old(View()), Withdraw(id))
    {
      var preferSend: bool := *;
      if |outgoing| < capacity && (!done || preferSend) {
        sending := sending - {id};
        outgoing := outgoing + [id];
        requestsSent := requestsSent + 1;
        enqueued := enqueued + {id};
        return true;
      }
      sending := sending - {id};
      RemovePendingRequest(id, Withdrawn);
      return false;
    }

    method SendNotification()
      requires |outgoing| < capacity
      modifies `outgoing
      ensures View() == Apply(old(View()), Notify)
    {
      outgoing := outgoing + [0];
    }

    /** The reading end of the outgoing channel. */
    method ReceiveOutgoing() returns (id: nat)
      requires outgoing != []
      modifies `outgoing
      ensures id == old(outgoing)[0] && View() == Apply(old(View()), TakeOutgoing)
    {
      id := outgoing[0];
      outgoing := outgoing[1..];
    }

    method RemovePendingRequest(id: nat, ghost o: Outcome)
      modifies `pendingRequests, `timers, `outcomes
      ensures if id in old(pendingRequests)
              then pendingRequests == old(pendingRequests) - {id} && timers == old(timers) - {id}
                   && outcomes == old(outcomes)[id := o]
              else pendingRequests == old(pendingRequests) && timers == old(timers) && outcomes == old(outcomes)
    {
      if id in pendingRequests {
        pendingRequests := pendingRequests - {id};
        timers := timers - {id};
        outcomes := outcomes[id := o];
      }
    }

    /** The two lookups of correlateResponse. */
    method FindPending(id: Id) returns (found: Option<nat>)
      requires Hashable(id)
      ensures found == Lookup(pendingRequests, id)
    {
      if id.Int? && id.n >= 0 && id.n in pendingRequests {
        return Some(id.n);
      }
      if id.Float? {
        var intID := Trunc(id.r);
        if intID >= 0 && intID in pendingRequests {
          return Some(intID);
        }
      }
      return None;
    }

    /** The send and the close of correlateResponse. */
    method Deliver(id: nat, own: Response)
      modifies `channels, `responsesReceived
      ensures var h := History(old(View()), id);
              channels == old(channels)[id := CloseChannel(Send(h, own))]
              && responsesReceived == old(responsesReceived) + (if Send(h, own) == h + [Put(own)] then 1 else 0)
    {
      var h := ChannelOf(id);
      var sent := Send(h, own);
      if sent == h + [Put(own)] {
        responsesReceived := responsesReceived + 1;
      }
      channels := channels[id := CloseChannel(sent)];
    }

    /** correlateResponse. The lookup of an id that is no map key panics; nothing recovers, so the process
        ends there. */
    method CorrelateResponse(response: Response) returns (panicked: bool)
      modifies `pendingRequests, `timers, `channels, `responsesReceived, `outcomes
      ensures panicked <==> !Hashable(response.id)
      ensures View() == RespondStep(old(View()), response)
    {
      if response.id.Composite? {
        return true;
      }
      var found := FindPending(response.id);
      if found.Some? {
        AnswerRequest(found.value, response);
      }
      return false;
    }

    method AnswerRequest(id: nat, response: Response)
      modifies `pendingRequests, `timers, `channels, `responsesReceived, `outcomes
      ensures View() == AnswerStep(old(View()), id, response)
    {
      pendingRequests := pendingRequests - {id};
      timers := timers - {id};
      Deliver(id, response.(id := Int(id)));
      outcomes := outcomes[id := Answered(response.(id := Int(id)))];
    }

    method TimerCallback(id: nat)
      requires id in timers
      modifies this
      ensures View() == Apply(old(View()), TimerFires(id))
    {
      timeouts := timeouts + 1;
      timers := timers - {id};
      RemovePendingRequest(id, TimedOut);
      channels := channels[id := CloseChannel(ChannelOf(id))];
    }

    method StopPending()
      requires pendingRequests <= channels.Keys
      modifies `timers, `channels
      ensures timers == old(timers) - pendingRequests
      ensures channels == SweptChannels(old(channels), pendingRequests)
    {
      var left := pendingRequests;
      while left != {}
        invariant left <= pendingRequests
        invariant timers == old(timers) - (pendingRequests - left)
        invariant channels.Keys == old(channels).Keys
        invariant forall i :: i in channels ==>
          channels[i] == if i in pendingRequests - left then CloseChannel(old(channels)[i]) else old(channels)[i]
        decreases |left|
      {
        var id :| id in left;
        left := left - {id};
        timers := timers - {id};
        channels := channels[id := CloseChannel(channels[id])];
      }
    }

    /** Close: cancel the context, then stop and close everything that is pending. */
    method Close()
      requires pendingRequests <= channels.Keys
      modifies this
      ensures View() == Apply(Apply(old(View()), Cancel), Sweep)
    {
      done := true;
      StopPending();
      outcomes := Resolve(View(), pendingRequests, ClosedByShutdown);
      pendingRequests := {};
    }
  }
}
