/** Requests with progress notifications (internal/progress_handler.go): tokens, per-request and total
    timers in discrete time, and notifications that look a request up and later re-arm its timer, with
    other steps in between. Ids come from the counter of the correlation handler, whose state and steps
    are those of JsonRpc. */
module Progress {
  import opened Wrappers
  import Rpc = JsonRpc

  /** A progress token as a Go `interface{}`: issued as `IntToken`, decoded from JSON as one of the others.
      A lookup with an array or an object panics. */
  datatype Token = IntToken(n: nat) | FloatToken(r: real) | StrToken(s: string) | BoolToken(b: bool) | NullToken | CompositeToken

  /** What a request was sent with; none of it changes. A `maxTotal` of 0 means no total limit. */
  datatype Request = Request(token: Option<Token>, resets: bool, timeout: nat, start: nat, maxTotal: nat)

  /** The timeout timer (`total` false) or the total timer of a request. */
  datatype TimerKey = TimerKey(id: nat, total: bool)

  datatype State = State(
    base: Rpc.State,
    defaultTimeout: nat,
    now: nat,
    tokenCounter: nat,
    live: set<nat>,                          // keys of progressRequests
    tokens: map<Token, nat>,                 // progressTokens
    timers: map<TimerKey, nat>,              // armed timers and when they are due
    sending: set<nat>,
    noticing: Option<nat>,                   // the request the notification goroutine has looked up
    timeouts: nat,
    channels: map<nat, seq<Rpc.ChanOp>>,
    issued: map<nat, Request>,               // history
    lastReset: map<nat, nat>,                // history: when the timeout timer was last armed
    calls: seq<(Token, nat)>)                // history: callbacks called, with the request they belong to

  datatype Options = Options(onProgress: bool, resets: bool, timeout: nat, maxTotal: nat)

  datatype Step =
    | Base(step: Rpc.Step)
    | SendWithProgress(options: Options) | Sent(id: nat) | Remove(id: nat)
    | NotifyLookup(token: Token) | NotifyRearm
    | TimerFires(key: TimerKey) | CloseProgress | Tick

  function Init(capacity: nat, defaultTimeout: nat): State {
    State(Rpc.Init(capacity), defaultTimeout, 0, 0, {}, map[], map[], {}, None, 0, map[], map[], map[], [])
  }

  ghost predicate Enabled(s: State, step: Step) {
    match step
    case Base(b) => !b.SkipId? && Rpc.Enabled(s.base, b)
    case SendWithProgress(_) => !s.base.done
    case Sent(id) => id in s.sending
    case Remove(id) => id in s.sending
    case NotifyLookup(token) => s.noticing.None? && !token.CompositeToken?    // else the process ends in a panic
    case NotifyRearm => s.noticing.Some?
    case TimerFires(key) => key in s.timers && s.timers[key] <= s.now
    case CloseProgress => true
    case Tick => forall key :: key in s.timers ==> s.now < s.timers[key]
  }

  function TimersOf(id: nat): set<TimerKey> {
    {TimerKey(id, false), TimerKey(id, true)}
  }

  function TokenSet(s: State, id: nat): set<Token> {
    if id in s.issued && s.issued[id].token.Some? then {s.issued[id].token.value} else {}
  }

  /** The request that the options call for, with the next token if there is a callback. */
  function NewRequestOf(s: State, o: Options): Request {
    Request(if o.onProgress then Some(IntToken(s.tokenCounter + 1)) else None, o.resets,
            if o.timeout == 0 then s.defaultTimeout else o.timeout, s.now, o.maxTotal)
  }

  function Armed(timers: map<TimerKey, nat>, now: nat, id: nat, r: Request): map<TimerKey, nat> {
    var armed := timers[TimerKey(id, false) := now + r.timeout];
    if r.maxTotal > 0 then armed[TimerKey(id, true) := now + r.maxTotal] else armed
  }

  function WithToken(tokens: map<Token, nat>, token: Option<Token>, id: nat): map<Token, nat> {
    if token.Some? then tokens[token.value := id] else tokens
  }

  /** SendRequestWithProgress up to storing the request. */
  function SendStep(s: State, o: Options): State {
    var id, r := s.base.counter + 1, NewRequestOf(s, o);
    s.(base := s.base.(counter := id),
       tokenCounter := if o.onProgress then s.tokenCounter + 1 else s.tokenCounter,
       live := s.live + {id},
       tokens := WithToken(s.tokens, r.token, id),
       timers := Armed(s.timers, s.now, id, r),
       sending := s.sending + {id}, channels := s.channels[id := []],
       issued := s.issued[id := r], lastReset := s.lastReset[id := s.now])
  }

  /** Takes a live request out of both maps and stops its timers. */
  function Drop(s: State, id: nat): State {
    s.(live := s.live - {id}, tokens := s.tokens - TokenSet(s, id), timers := s.timers - TimersOf(id))
  }

  function FireStep(s: State, key: TimerKey): State {
    if key.id in s.live && key.id in s.channels
    then Drop(s, key.id).(channels := s.channels[key.id := Rpc.CloseChannel(s.channels[key.id])],
                          timeouts := s.timeouts + 1)
    else s.(timers := s.timers - {key})
  }

  function RearmStep(s: State, id: nat): State {
    var t := s.(noticing := None);
    if id in s.issued && s.issued[id].resets
    then t.(timers := s.timers[TimerKey(id, false) := s.now + s.issued[id].timeout], lastReset := s.lastReset[id := s.now])
    else t
  }

  ghost function Apply(s: State, step: Step): State
    requires Enabled(s, step)
  {
    match step
    case Base(b) => s.(base := Rpc.Apply(s.base, b))
    case SendWithProgress(o) => SendStep(s, o)
    case Sent(id) => s.(sending := s.sending - {id})
    case Remove(id) =>
      var t := s.(sending := s.sending - {id});
      if id in s.live then Drop(t, id) else t
    case NotifyLookup(token) =>
      if token in s.tokens && s.tokens[token] in s.live
      then s.(noticing := Some(s.tokens[token]), calls := s.calls + [(token, s.tokens[token])])
      else s
    case NotifyRearm => RearmStep(s, s.noticing.value)
    case TimerFires(key) => FireStep(s, key)
    case CloseProgress =>
      s.(live := {}, tokens := map[], timers := map key | key in s.timers && key.id !in s.live :: s.timers[key])
    case Tick => s.(now := s.now + 1)
  }

  ghost predicate Valid(s: State, steps: seq<Step>)
    decreases |steps|
  {
    steps == [] || (Enabled(s, steps[0]) && Valid(Apply(s, steps[0]), steps[1..]))
  }

  ghost function Exec(s: State, steps: seq<Step>): State
    requires Valid(s, steps)
    decreases |steps|
  {
    if steps == [] then s else Exec(Apply(s, steps[0]), steps[1..])
  }

  // ---- The invariant ----

  /** A live request: both timers are armed for the instants its history calls for. */
  predicate LiveOk(s: State, id: nat) {
    && id in s.issued && id in s.lastReset && id in s.channels && s.channels[id] == []
    && s.issued[id].start <= s.lastReset[id] <= s.now
    && TimerKey(id, false) in s.timers && s.timers[TimerKey(id, false)] == s.lastReset[id] + s.issued[id].timeout
    && (s.issued[id].maxTotal > 0 ==>
          TimerKey(id, true) in s.timers && s.timers[TimerKey(id, true)] == s.issued[id].start + s.issued[id].maxTotal)
    && (s.issued[id].maxTotal == 0 ==> TimerKey(id, true) !in s.timers)
    && (s.issued[id].token.Some? ==> s.issued[id].token.value in s.tokens && s.tokens[s.issued[id].token.value] == id)
  }

  predicate TokenOk(s: State, t: Token)
    requires t in s.tokens
  {
    var id := s.tokens[t];
    id in s.live && id in s.issued && s.issued[id].token == Some(t)
  }

  /** An id that was given to a request with progress: it is not one of the plain ids, and its token is
      an integer no greater than the counter. */
  predicate IssuedOk(s: State, id: nat)
    requires id in s.issued
  {
    && 1 <= id <= s.base.counter && id !in s.base.outcomes
    && id in s.channels && (s.channels[id] == [] || (s.channels[id] == [Rpc.Shut] && id !in s.live))
    && (s.issued[id].token.Some? ==>
          s.issued[id].token.value.IntToken? && 1 <= s.issued[id].token.value.n <= s.tokenCounter)
  }

  predicate TokensDistinct(s: State) {
    forall i, j :: i in s.issued && j in s.issued && s.issued[i].token.Some? && s.issued[i].token == s.issued[j].token ==> i == j
  }

  ghost predicate Inv(s: State) {
    Rpc.Inv(s.base) && Own(s)
  }

  ghost predicate Own(s: State) {
    && Rest(s)
    && (forall id :: id in s.issued ==> IssuedOk(s, id))
    && (forall id :: id in s.live ==> LiveOk(s, id))
    && (forall t :: t in s.tokens ==> TokenOk(s, t))
    && TokensDistinct(s)
  }

  /** The domains of the maps agree, no armed timer is overdue, and what a notification has looked up or
      called is a request that was issued, with that token. */
  ghost predicate Rest(s: State) {
    && s.live <= s.issued.Keys && s.channels.Keys == s.issued.Keys
    && (forall key :: key in s.timers ==> s.now <= s.timers[key] && key.id in s.issued)
    && (s.noticing.Some? ==> s.noticing.value in s.issued)
    && (forall i :: 0 <= i < |s.calls| ==> s.calls[i].1 in s.issued && s.issued[s.calls[i].1].token == Some(s.calls[i].0))
  }

  lemma {:induction false} BaseKeepsInv(s: State, b: Rpc.Step)
    requires Inv(s) && Enabled(s, Base(b))
    ensures Inv(Apply(s, Base(b)))
  {
    var t := Apply(s, Base(b));
    Rpc.StepKeepsInv(s.base, b);
    BaseIds(s.base, b);
    forall id | id in t.issued ensures IssuedOk(t, id) {
      assert IssuedOk(s, id);
    }
    forall id | id in t.live ensures LiveOk(t, id) {
      assert LiveOk(s, id);
    }
    forall k | k in t.tokens ensures TokenOk(t, k) {
      assert TokenOk(s, k);
    }
  }

  /** A step of the plain handler gives outcomes to no ids but the next one. */
  lemma {:induction false} BaseIds(b: Rpc.State, step: Rpc.Step)
    requires Rpc.Inv(b) && Rpc.Enabled(b, step)
    ensures b.counter <= Rpc.Apply(b, step).counter
    ensures forall id :: id in Rpc.Apply(b, step).outcomes ==> id in b.outcomes || id == b.counter + 1
  {
    if step.Withdraw? || step.Respond? || step.TimerFires? || step.Sweep? {
      assert b.pending <= b.outcomes.Keys;
    }
  }

  lemma {:induction false} SkipKeepsBase(b: Rpc.State)
    requires Rpc.Inv(b)
    ensures Rpc.Inv(b.(counter := b.counter + 1))
  {
    Rpc.StepKeepsInv(b, Rpc.SkipId);
  }

  lemma {:induction false} SendKeepsInv(s: State, o: Options)
    requires Inv(s) && !s.base.done
    ensures Inv(SendStep(s, o))
  {
    SkipKeepsBase(s.base);
    NextIdIsFresh(s);
    SendKeepsOwn(s, o);
  }

  lemma {:induction false} SendKeepsOwn(s: State, o: Options)
    requires Own(s) && s.base.counter + 1 !in s.base.outcomes && s.base.counter + 1 !in s.issued
    requires forall key :: key in s.timers ==> key.id != s.base.counter + 1
    ensures Own(SendStep(s, o))
  {
    NewTokenIsFresh(s);
    SendIssued(s, o);
    SendLive(s, o);
    SendTokens(s, o);
    SendDistinct(s, o);
    SendRest(s, o);
  }

  lemma {:induction false} SendRest(s: State, o: Options)
    requires Rest(s) && s.base.counter + 1 !in s.issued
    ensures Rest(SendStep(s, o))
  {
  }

  lemma {:induction false} SendIssued(s: State, o: Options)
    requires Own(s) && s.base.counter + 1 !in s.base.outcomes
    ensures var t := SendStep(s, o); forall i :: i in t.issued ==> IssuedOk(t, i)
  {
    var t := SendStep(s, o);
    forall i | i in t.issued ensures IssuedOk(t, i) {
      if i != s.base.counter + 1 {
        assert IssuedOk(s, i);
      }
    }
  }

  lemma {:induction false} SendLive(s: State, o: Options)
    requires Own(s) && forall key :: key in s.timers ==> key.id != s.base.counter + 1
    requires s.base.counter + 1 !in s.live && IntToken(s.tokenCounter + 1) !in s.tokens
    ensures var t := SendStep(s, o); forall i :: i in t.live ==> LiveOk(t, i)
  {
    var t := SendStep(s, o);
    forall i | i in t.live ensures LiveOk(t, i) {
      if i != s.base.counter + 1 {
        assert LiveOk(s, i);
        SendLiveOthers(s, o, i);
      } else {
        assert TimerKey(i, true) !in s.timers;
        SendLiveNew(s, o);
      }
    }
  }

  lemma {:induction false} SendLiveOthers(s: State, o: Options, i: nat)
    requires LiveOk(s, i) && i != s.base.counter + 1 && IntToken(s.tokenCounter + 1) !in s.tokens
    ensures LiveOk(SendStep(s, o), i)
  {
  }

  lemma {:induction false} SendLiveNew(s: State, o: Options)
    requires TimerKey(s.base.counter + 1, true) !in s.timers
    ensures LiveOk(SendStep(s, o), s.base.counter + 1)
  {
  }

  lemma {:induction false} SendTokens(s: State, o: Options)
    requires Own(s) && s.base.counter + 1 !in s.live && s.base.counter + 1 !in s.issued
    ensures var t := SendStep(s, o); forall k :: k in t.tokens ==> TokenOk(t, k)
  {
    var t := SendStep(s, o);
    forall k | k in t.tokens ensures TokenOk(t, k) {
      if k in s.tokens && t.tokens[k] == s.tokens[k] {
        assert TokenOk(s, k);
      }
    }
  }

  lemma {:induction false} SendDistinct(s: State, o: Options)
    requires TokensDistinct(s)
    requires forall id :: id in s.issued ==> s.issued[id].token != Some(IntToken(s.tokenCounter + 1))
    ensures TokensDistinct(SendStep(s, o))
  {
  }

  lemma {:induction false} NextIdIsFresh(s: State)
    requires Inv(s)
    ensures var id := s.base.counter + 1;
            id !in s.issued && id !in s.live && id !in s.base.outcomes && forall key :: key in s.timers ==> key.id != id
  {
    var id := s.base.counter + 1;
    forall i | i in s.issued ensures i != id {
      assert IssuedOk(s, i);
    }
    forall i | i in s.base.outcomes ensures i != id {
      assert Rpc.IdOk(s.base, i);
    }
  }

  lemma {:induction false} NewTokenIsFresh(s: State)
    requires Own(s)
    ensures IntToken(s.tokenCounter + 1) !in s.tokens
    ensures forall id :: id in s.issued ==> s.issued[id].token != Some(IntToken(s.tokenCounter + 1))
  {
    forall id | id in s.issued ensures s.issued[id].token != Some(IntToken(s.tokenCounter + 1)) {
      assert IssuedOk(s, id);
    }
    forall t | t in s.tokens ensures t != IntToken(s.tokenCounter + 1) {
      assert TokenOk(s, t);
    }
  }

  /** Dropping a live request keeps the invariant, and no trace of it stays in the maps or timers. */
  lemma {:induction false} DropKeepsOwn(s: State, id: nat)
    requires Own(s) && id in s.live
    ensures Own(Drop(s, id))
    ensures var t := Drop(s, id);
            id !in t.live && (forall k :: k in t.tokens ==> t.tokens[k] != id)
            && forall key :: key in t.timers ==> key.id != id
  {
    var t := Drop(s, id);
    DropLive(s, id);
    DropTokens(s, id);
    forall key | key in t.timers ensures key.id != id {
      assert key == TimerKey(key.id, key.total);
    }
    forall i | i in t.issued ensures IssuedOk(t, i) {
      assert IssuedOk(s, i);
    }
  }

  lemma {:induction false} DropLive(s: State, id: nat)
    requires Own(s) && id in s.live
    ensures var t := Drop(s, id); forall i :: i in t.live ==> LiveOk(t, i)
  {
    var t := Drop(s, id);
    assert LiveOk(s, id);
    forall i | i in t.live ensures LiveOk(t, i) {
      assert LiveOk(s, i);
    }
  }

  lemma {:induction false} DropTokens(s: State, id: nat)
    requires Own(s) && id in s.live
    ensures var t := Drop(s, id); forall k :: k in t.tokens ==> TokenOk(t, k) && t.tokens[k] != id
  {
    var t := Drop(s, id);
    assert LiveOk(s, id);
    forall k | k in t.tokens ensures TokenOk(t, k) && t.tokens[k] != id {
      assert TokenOk(s, k);
    }
  }

  lemma {:induction false} FireKeepsOwn(s: State, key: TimerKey)
    requires Own(s) && Enabled(s, TimerFires(key))
    ensures Own(FireStep(s, key))
  {
    if key.id in s.live {
      assert LiveOk(s, key.id);
      assert Rpc.CloseChannel([]) == [Rpc.Shut];
      DropKeepsOwn(s, key.id);
      ShutKeepsOwn(Drop(s, key.id), key.id, FireStep(s, key));
    } else {
      DeadTimerKeepsOwn(s, key);
    }
  }

  lemma {:induction false} ShutKeepsOwn(d: State, id: nat, t: State)
    requires Own(d) && id in d.issued && id !in d.live
    requires t == d.(channels := t.channels, timeouts := t.timeouts) && t.channels == d.channels[id := [Rpc.Shut]]
    ensures Own(t)
  {
    forall i | i in t.issued ensures IssuedOk(t, i) {
      assert IssuedOk(d, i);
    }
    forall i | i in t.live ensures LiveOk(t, i) {
      assert LiveOk(d, i);
    }
    forall k | k in t.tokens ensures TokenOk(t, k) {
      assert TokenOk(d, k);
    }
  }

  /** Timers of requests that are gone are nobody's business. */
  lemma {:induction false} DeadTimerKeepsOwn(s: State, key: TimerKey)
    requires Own(s) && key.id !in s.live
    ensures Own(s.(timers := s.timers - {key}))
  {
    SameRequests(s, s.(timers := s.timers - {key}));
  }

  lemma {:induction false} RearmKeepsOwn(s: State)
    requires Own(s) && s.noticing.Some?
    ensures Own(RearmStep(s, s.noticing.value))
  {
    RearmLive(s);
    RearmIssued(s);
    RearmRest(s);
  }

  lemma {:induction false} RearmLive(s: State)
    requires Own(s) && s.noticing.Some?
    ensures var t := RearmStep(s, s.noticing.value); forall i :: i in t.live ==> LiveOk(t, i)
  {
    var t := RearmStep(s, s.noticing.value);
    forall i | i in t.live ensures LiveOk(t, i) {
      assert LiveOk(s, i);
    }
  }

  lemma {:induction false} RearmIssued(s: State)
    requires Own(s) && s.noticing.Some?
    ensures var t := RearmStep(s, s.noticing.value);
            (forall i :: i in t.issued ==> IssuedOk(t, i)) && (forall k :: k in t.tokens ==> TokenOk(t, k)) && TokensDistinct(t)
  {
    var t := RearmStep(s, s.noticing.value);
    forall k | k in t.tokens ensures TokenOk(t, k) {
      assert TokenOk(s, k);
    }
    forall i | i in t.issued ensures IssuedOk(t, i) {
      assert IssuedOk(s, i);
    }
  }

  lemma {:induction false} RearmRest(s: State)
    requires Rest(s) && s.noticing.Some?
    ensures Rest(RearmStep(s, s.noticing.value))
  {
  }

  /** A change that leaves every live request and its timers alone. */
  lemma {:induction false} SameRequests(s: State, t: State)
    requires Own(s) && t.base == s.base && t.issued == s.issued && t.channels == s.channels && t.tokenCounter == s.tokenCounter
    requires t.lastReset == s.lastReset && t.calls == s.calls && t.noticing == s.noticing && s.now <= t.now
    requires t.live == s.live && t.tokens == s.tokens
    requires forall key :: key in t.timers ==> key in s.timers && t.timers[key] == s.timers[key] && t.now <= t.timers[key]
    requires forall key :: key in s.timers && key.id in s.live ==> key in t.timers
    ensures Own(t)
  {
    forall i | i in t.live ensures LiveOk(t, i) {
      assert LiveOk(s, i);
    }
    forall k | k in t.tokens ensures TokenOk(t, k) {
      assert TokenOk(s, k);
    }
    forall i | i in t.issued ensures IssuedOk(t, i) {
      assert IssuedOk(s, i);
    }
  }

  lemma {:induction false} LookupKeepsOwn(s: State, token: Token)
    requires Own(s) && Enabled(s, NotifyLookup(token))
    ensures Own(Apply(s, NotifyLookup(token)))
  {
    var t := Apply(s, NotifyLookup(token));
    if token in s.tokens {
      assert TokenOk(s, token);
    }
    forall i | i in t.live ensures LiveOk(t, i) {
      assert LiveOk(s, i);
    }
    forall k | k in t.tokens ensures TokenOk(t, k) {
      assert TokenOk(s, k);
    }
    forall i | i in t.issued ensures IssuedOk(t, i) {
      assert IssuedOk(s, i);
    }
  }

  lemma {:induction false} CloseKeepsOwn(s: State)
    requires Own(s)
    ensures Own(Apply(s, CloseProgress))
  {
    var t := Apply(s, CloseProgress);
    forall i | i in t.issued ensures IssuedOk(t, i) {
      assert IssuedOk(s, i);
    }
  }

  lemma {:induction false} StepKeepsInv(s: State, step: Step)
    requires Inv(s) && Enabled(s, step)
    ensures Inv(Apply(s, step))
  {
    match step
    case Base(b) => BaseKeepsInv(s, b);
    case SendWithProgress(o) => SendKeepsInv(s, o);
    case Sent(id) => SameRequests(s, Apply(s, step));
    case Remove(id) =>
      SameRequests(s, s.(sending := s.sending - {id}));
      if id in s.live {
        DropKeepsOwn(s.(sending := s.sending - {id}), id);
      }
    case NotifyLookup(token) => LookupKeepsOwn(s, token);
    case NotifyRearm => RearmKeepsOwn(s);
    case TimerFires(key) => FireKeepsOwn(s, key);
    case CloseProgress => CloseKeepsOwn(s);
    case Tick => SameRequests(s, Apply(s, Tick));
  }

  lemma {:induction false} RunKeepsInv(s: State, steps: seq<Step>)
    requires Inv(s) && Valid(s, steps)
    ensures Inv(Exec(s, steps))
    decreases |steps|
  {
    if steps != [] {
      StepKeepsInv(s, steps[0]);
      RunKeepsInv(Apply(s, steps[0]), steps[1..]);
    }
  }

  lemma {:induction false} InitInv(capacity: nat, defaultTimeout: nat)
    ensures Inv(Init(capacity, defaultTimeout))
  {
    Rpc.InitInv(capacity);
  }

  // ---- What it means ----

  /** In every run a live request is no older than its timeout allows, counted from its last reset, nor
      than its total limit, counted from its start. */
  lemma {:induction false} Deadlines(capacity: nat, defaultTimeout: nat, steps: seq<Step>, id: nat)
    requires Valid(Init(capacity, defaultTimeout), steps)
    ensures var t := Exec(Init(capacity, defaultTimeout), steps);
            id in t.live ==>
              && id in t.issued && id in t.lastReset
              && t.now <= t.lastReset[id] + t.issued[id].timeout
              && (t.issued[id].maxTotal > 0 ==> t.now <= t.issued[id].start + t.issued[id].maxTotal)
  {
    InitInv(capacity, defaultTimeout);
    RunKeepsInv(Init(capacity, defaultTimeout), steps);
    var t := Exec(Init(capacity, defaultTimeout), steps);
    if id in t.live {
      assert LiveOk(t, id);
    }
  }

  function Min(a: nat, b: nat): nat {
    if a <= b then a else b
  }

  /** The instant at which a live request's first timer is due. */
  function Due(s: State, id: nat): nat
    requires id in s.issued && id in s.lastReset
  {
    var byTimeout := s.lastReset[id] + s.issued[id].timeout;
    if s.issued[id].maxTotal > 0 then Min(byTimeout, s.issued[id].start + s.issued[id].maxTotal) else byTimeout
  }

  /** A timer removes a request only at the earlier of its two deadlines. */
  lemma {:induction false} TimerRemovesWhenDue(s: State, key: TimerKey)
    requires Own(s) && Enabled(s, TimerFires(key)) && key.id in s.live
    ensures key.id in s.issued && key.id in s.lastReset && s.now == Due(s, key.id)
    ensures var t := Apply(s, TimerFires(key));
            key.id !in t.live && key.id in t.channels && t.channels[key.id] == [Rpc.Shut]
  {
    assert LiveOk(s, key.id);
    assert key == TimerKey(key.id, key.total);
  }

  /** In every run progressTokens is the inverse of the tokens of the live requests; no two requests
      ever had the same token; ids of requests with progress are not ids of plain requests. */
  lemma {:induction false} MapsAgree(capacity: nat, defaultTimeout: nat, steps: seq<Step>, token: Token, id: nat)
    requires Valid(Init(capacity, defaultTimeout), steps)
    ensures var t := Exec(Init(capacity, defaultTimeout), steps);
            && ((token in t.tokens && t.tokens[token] == id)
                <==> (id in t.live && id in t.issued && t.issued[id].token == Some(token)))
            && TokensDistinct(t)
            && (id in t.issued ==> id !in t.base.outcomes && id !in t.base.pending)
  {
    InitInv(capacity, defaultTimeout);
    RunKeepsInv(Init(capacity, defaultTimeout), steps);
    var t := Exec(Init(capacity, defaultTimeout), steps);
    if id in t.live {
      assert LiveOk(t, id);
    }
    if token in t.tokens {
      assert TokenOk(t, token);
    }
    if id in t.issued {
      assert IssuedOk(t, id);
    }
  }

  lemma {:induction false} OnlySendingIssues(s: State, step: Step)
    requires Inv(s) && Enabled(s, step) && !step.SendWithProgress?
    ensures Apply(s, step).issued == s.issued && s.base.counter <= Apply(s, step).base.counter
  {
    if step.Base? {
      BaseIds(s.base, step.step);
    } else {
      OtherStepsKeepIds(s, step);
    }
  }

  lemma {:induction false} OtherStepsKeepIds(s: State, step: Step)
    requires Enabled(s, step) && !step.SendWithProgress? && !step.Base?
    ensures Apply(s, step).issued == s.issued && Apply(s, step).base == s.base
  {
  }

  lemma {:induction false} StepKeepsIds(s: State, step: Step, id: nat)
    requires Inv(s) && Enabled(s, step)
    ensures id in s.issued ==> id in Apply(s, step).issued && Apply(s, step).issued[id] == s.issued[id]
    ensures s.base.counter <= Apply(s, step).base.counter
    ensures id in Apply(s, step).issued && id !in s.issued ==> step.SendWithProgress? && id == s.base.counter + 1
  {
    if step.SendWithProgress? {
      NextIdIsFresh(s);
    } else {
      OnlySendingIssues(s, step);
    }
  }

  /** What an id was issued for never changes, and ids only grow. */
  lemma {:induction false} RunKeepsIds(s: State, steps: seq<Step>, id: nat)
    requires Inv(s) && Valid(s, steps)
    ensures var t := Exec(s, steps);
            && (id in s.issued ==> id in t.issued && t.issued[id] == s.issued[id])
            && s.base.counter <= t.base.counter
            && (id in t.issued && id !in s.issued ==> s.base.counter < id <= t.base.counter)
    decreases |steps|
  {
    if steps != [] {
      var u := Apply(s, steps[0]);
      StepKeepsInv(s, steps[0]);
      StepKeepsIds(s, steps[0], id);
      RunKeepsIds(u, steps[1..], id);
      RunKeepsInv(u, steps[1..]);
      if id in Exec(u, steps[1..]).issued {
        assert IssuedOk(Exec(u, steps[1..]), id);
      }
    }
  }

  /** In every run the id that comes next was never given to any request, plain or with progress, and an id
      that is given out later is larger than all before. */
  lemma {:induction false} IdsAreNotReused(capacity: nat, defaultTimeout: nat, before: seq<Step>, steps: seq<Step>, id: nat)
    requires Valid(Init(capacity, defaultTimeout), before) && Valid(Exec(Init(capacity, defaultTimeout), before), steps)
    ensures var s := Exec(Init(capacity, defaultTimeout), before);
            var t := Exec(s, steps);
            && s.base.counter + 1 !in s.issued && s.base.counter + 1 !in s.base.outcomes
            && (id in s.issued ==> id <= s.base.counter && id in t.issued && t.issued[id] == s.issued[id])
            && (id in t.issued && id !in s.issued ==> s.base.counter < id)
  {
    var s := Exec(Init(capacity, defaultTimeout), before);
    InitInv(capacity, defaultTimeout);
    RunKeepsInv(Init(capacity, defaultTimeout), before);
    NextIdIsFresh(s);
    RunKeepsIds(s, steps, id);
    if id in s.issued {
      assert IssuedOk(s, id);
    }
  }

  /** The request a step is about, if any. */
  ghost predicate Concerns(s: State, step: Step, id: nat) {
    match step
    case SendWithProgress(_) => id == s.base.counter + 1
    case Sent(i) => id == i
    case Remove(i) => id == i
    case NotifyLookup(token) => token in s.tokens && id == s.tokens[token]
    case NotifyRearm => s.noticing == Some(id)
    case TimerFires(key) => id == key.id
    case CloseProgress => true
    case _ => false
  }

  /** Nothing about the request differs: live or not, what it was sent with, its channel, its timers and
      its token entry. */
  ghost predicate Untouched(s: State, t: State, id: nat) {
    && (id in t.live <==> id in s.live)
    && id in s.issued && id in t.issued && t.issued[id] == s.issued[id]
    && id in s.channels && id in t.channels && t.channels[id] == s.channels[id]
    && SameTimer(s, t, TimerKey(id, false)) && SameTimer(s, t, TimerKey(id, true))
    && (forall k :: k in s.tokens && s.tokens[k] == id ==> k in t.tokens && t.tokens[k] == id)
  }

  predicate SameTimer(s: State, t: State, key: TimerKey) {
    (key in s.timers <==> key in t.timers) && (key in s.timers ==> t.timers[key] == s.timers[key])
  }

  lemma {:induction false} DropLeavesOthers(s: State, i: nat, id: nat)
    requires Own(s) && i in s.live && id in s.issued && id != i
    ensures Untouched(s, Drop(s, i), id)
  {
    assert IssuedOk(s, id) && LiveOk(s, i);
    forall k | k in s.tokens && s.tokens[k] == id ensures k in Drop(s, i).tokens {
      assert TokenOk(s, k);
    }
  }

  lemma {:induction false} SendLeavesOthers(s: State, o: Options, id: nat)
    requires Own(s) && id in s.issued
    ensures Untouched(s, SendStep(s, o), id)
  {
    assert IssuedOk(s, id);
    NewTokenIsFresh(s);
  }

  /** Whatever a step does, however late, it leaves every request it is not about untouched. */
  lemma {:induction false} OthersUntouched(s: State, step: Step, id: nat)
    requires Own(s) && Enabled(s, step) && id in s.issued && !Concerns(s, step, id)
    ensures Untouched(s, Apply(s, step), id)
  {
    var t := Apply(s, step);
    if step.Base? || step.Sent? || step.NotifyLookup? || step.Tick? {
      QuietStep(s, step);
      SameProgress(s, t, id);
    } else {
      BusyUntouched(s, step, id);
    }
  }

  lemma {:induction false} BusyUntouched(s: State, step: Step, id: nat)
    requires Own(s) && Enabled(s, step) && id in s.issued && !Concerns(s, step, id)
    requires step.SendWithProgress? || step.Remove? || step.TimerFires? || step.NotifyRearm? || step.CloseProgress?
    ensures Untouched(s, Apply(s, step), id)
  {
    match step
    case SendWithProgress(o) => SendLeavesOthers(s, o, id);
    case Remove(i) => RemoveLeavesOthers(s, i, id);
    case TimerFires(key) => FireLeavesOthers(s, key, id);
    case NotifyRearm => RearmLeavesOthers(s, id);
    case CloseProgress =>
  }

  lemma {:induction false} RemoveLeavesOthers(s: State, i: nat, id: nat)
    requires Own(s) && Enabled(s, Remove(i)) && id in s.issued && id != i
    ensures Untouched(s, Apply(s, Remove(i)), id)
  {
    if i in s.live {
      DropLeavesOthers(s, i, id);
    } else {
      SameProgress(s, Apply(s, Remove(i)), id);
    }
  }

  lemma {:induction false} QuietStep(s: State, step: Step)
    requires Enabled(s, step) && (step.Base? || step.Sent? || step.NotifyLookup? || step.Tick?)
    ensures var t := Apply(s, step);
            t.live == s.live && t.issued == s.issued && t.channels == s.channels && t.timers == s.timers && t.tokens == s.tokens
  {
  }

  lemma {:induction false} SameProgress(s: State, t: State, id: nat)
    requires Own(s) && id in s.issued
    requires t.live == s.live && t.issued == s.issued && t.channels == s.channels && t.timers == s.timers && t.tokens == s.tokens
    ensures Untouched(s, t, id)
  {
    assert IssuedOk(s, id);
  }

  lemma {:induction false} FireLeavesOthers(s: State, key: TimerKey, id: nat)
    requires Own(s) && id in s.issued && id != key.id
    ensures Untouched(s, FireStep(s, key), id)
  {
    assert IssuedOk(s, id);
    if key.id in s.live {
      DropLeavesOthers(s, key.id, id);
    }
  }

  lemma {:induction false} RearmLeavesOthers(s: State, id: nat)
    requires Own(s) && id in s.issued && s.noticing.Some? && s.noticing.value != id
    ensures Untouched(s, RearmStep(s, s.noticing.value), id)
  {
    assert IssuedOk(s, id);
  }

  /** A timer of a request that is gone does nothing but go away. */
  lemma {:induction false} StaleTimerDoesNothing(s: State, key: TimerKey)
    requires Enabled(s, TimerFires(key)) && key.id !in s.live
    ensures Apply(s, TimerFires(key)) == s.(timers := s.timers - {key})
  {
  }

  /** A token decoded from JSON is a float and is never found: such a notification changes nothing. */
  lemma {:induction false} JsonTokenIsIgnored(s: State, r: real)
    requires Own(s) && Enabled(s, NotifyLookup(FloatToken(r)))
    ensures Apply(s, NotifyLookup(FloatToken(r))) == s
  {
    forall t | t in s.tokens ensures t != FloatToken(r) {
      assert TokenOk(s, t);
      assert IssuedOk(s, s.tokens[t]);
    }
  }

  /** A request with progress is never answered: its channel is untouched or just closed, in every run,
      whatever responses arrive; and once it is no longer live its channel never changes again, so one
      that shutdown or a failed send removed is never closed. */
  lemma {:induction false} ChannelsOnlyClose(s: State, steps: seq<Step>, id: nat)
    requires Inv(s) && Valid(s, steps) && id in s.issued
    ensures var t := Exec(s, steps);
            && id in s.channels && id in t.channels && (t.channels[id] == [] || t.channels[id] == [Rpc.Shut])
            && (id !in s.live ==> id !in t.live && t.channels[id] == s.channels[id])
    decreases |steps|
  {
    assert IssuedOk(s, id);
    if steps != [] {
      StepKeepsInv(s, steps[0]);
      NextIdIsFresh(s);
      StepKeepsDead(s, steps[0], id);
      ChannelsOnlyClose(Apply(s, steps[0]), steps[1..], id);
    }
  }

  /** The request is still known, and if it was no longer live its channel is the same. */
  predicate KeptDead(s: State, t: State, id: nat) {
    id in t.issued
    && (id !in s.live ==> id !in t.live && id in s.channels && id in t.channels && t.channels[id] == s.channels[id])
  }

  lemma {:induction false} FireKeepsDead(s: State, key: TimerKey)
    requires Own(s) && key.id in s.issued
    ensures KeptDead(s, FireStep(s, key), key.id)
  {
    assert IssuedOk(s, key.id);
  }

  lemma {:induction false} StepKeepsDead(s: State, step: Step, id: nat)
    requires Own(s) && Enabled(s, step) && id in s.issued && s.base.counter + 1 !in s.issued
    ensures KeptDead(s, Apply(s, step), id)
  {
    assert IssuedOk(s, id);
    if !Concerns(s, step, id) {
      OthersUntouched(s, step, id);
    } else if step.TimerFires? {
      FireKeepsDead(s, step.key);
    }
  }

  lemma {:induction false} ShutdownLeavesChannelOpen(s: State, steps: seq<Step>, id: nat)
    requires Inv(s) && id in s.live && Valid(Apply(s, CloseProgress), steps)
    ensures var t := Exec(Apply(s, CloseProgress), steps); id in t.channels && t.channels[id] == []
  {
    assert LiveOk(s, id);
    CloseKeepsOwn(s);
    ChannelsOnlyClose(Apply(s, CloseProgress), steps, id);
  }

  // ---- The handler ----

  /** The progress handler around a correlation handler, whose counter it shares. */
  class ProgressMessageHandler {
    const handler: Rpc.MessageHandler
    const defaultTimeout: nat
    var now: nat
    var tokenCounter: nat
    var progressRequests: map<nat, Request>
    var progressTokens: map<Token, nat>
    var timers: map<TimerKey, nat>
    var sending: set<nat>
    var noticing: Option<(nat, Request)>
    var timeouts: nat
    var channels: map<nat, seq<Rpc.ChanOp>>
    ghost var issued: map<nat, Request>
    ghost var lastReset: map<nat, nat>
    ghost var calls: seq<(Token, nat)>

    ghost function View(): State
      reads this, handler
    {
      State(handler.View(), defaultTimeout, now, tokenCounter, progressRequests.Keys, progressTokens, timers, sending,
            if noticing.Some? then Some(noticing.value.0) else None, timeouts, channels, issued, lastReset, calls)
    }

    /** The stored requests are those that were issued. */
    ghost predicate Coherent()
      reads this
    {
      && (forall id :: id in progressRequests ==> id in issued && issued[id] == progressRequests[id] && id in channels)
      && (noticing.Some? ==> noticing.value.0 in issued && issued[noticing.value.0] == noticing.value.1)
    }

    constructor (handler: Rpc.MessageHandler, defaultTimeout: nat)
      ensures this.handler == handler && Coherent()
      ensures View() == Init(handler.capacity, defaultTimeout).(base := handler.View())
    {
      this.handler, this.defaultTimeout := handler, defaultTimeout;
      now, tokenCounter, progressRequests, progressTokens, timers := 0, 0, map[], map[], map[];
      sending, noticing, timeouts, channels := {}, None, 0, map[];
      issued, lastReset, calls := map[], map[], [];
    }

    method SendRequestWithProgress(options: Options) returns (id: nat, ok: bool)
      requires Coherent() && (noticing.Some? ==> noticing.value.0 <= handler.counter)
      modifies `tokenCounter, `timers, `channels, `progressRequests, `progressTokens, `sending, `issued, `lastReset
      modifies handler`counter
      ensures Coherent()
      ensures ok <==> !old(handler.done)
      ensures View() == if ok then SendStep(old(View()), options) else old(View())
    {
      if handler.done {
        return 0, false;
      }
      var progressReq;
      id, progressReq := NewRequest(options);
      StoreRequest(id, progressReq);
      return id, true;
    }

    /** The next id, the next token if there is a callback, and the request with its defaults. */
    method NewRequest(options: Options) returns (id: nat, progressReq: Request)
      modifies `tokenCounter, handler`counter
      ensures id == old(handler.counter) + 1 && handler.View() == old(handler.View()).(counter := id)
      ensures tokenCounter == if options.onProgress then old(tokenCounter) + 1 else old(tokenCounter)
      ensures progressReq == NewRequestOf(old(View()), options)
    {
      id := handler.NextId();
      var progressToken: Option<Token> := None;
      if options.onProgress {
        tokenCounter := tokenCounter + 1;
        progressToken := Some(IntToken(tokenCounter));
      }
      var timeout := options.timeout;
      if timeout == 0 {
        timeout := defaultTimeout;
      }
      progressReq := Request(progressToken, options.resets, timeout, now, options.maxTotal);
    }

    method ArmTimers(id: nat, progressReq: Request)
      modifies `timers
      ensures timers == Armed(old(timers), now, id, progressReq)
    {
      timers := timers[TimerKey(id, false) := now + progressReq.timeout];
      if progressReq.maxTotal > 0 {
        timers := timers[TimerKey(id, true) := now + progressReq.maxTotal];
      }
    }

    method StoreRequest(id: nat, progressReq: Request)
      requires Coherent() && (noticing.Some? && noticing.value.0 == id ==> noticing.value.1 == progressReq)
      modifies `timers, `channels, `progressRequests, `progressTokens, `sending, `issued, `lastReset
      ensures timers == Armed(old(timers), now, id, progressReq)
      ensures Coherent() && progressRequests == old(progressRequests)[id := progressReq]
      ensures progressTokens == WithToken(old(progressTokens), progressReq.token, id)
      ensures channels == old(channels)[id := []] && sending == old(sending) + {id}
      ensures issued == old(issued)[id := progressReq] && lastReset == old(lastReset)[id := now]
    {
      ArmTimers(id, progressReq);
      channels := channels[id := []];
      progressRequests := progressRequests[id := progressReq];
      if progressReq.token.Some? {
        progressTokens := progressTokens[progressReq.token.value := id];
      }
      sending := sending + {id};
      issued := issued[id := progressReq];
      lastReset := lastReset[id := now];
    }

    /** The part of handleProgressNotification under the read lock, and the callback. A token that is no map
        key panics, and nothing recovers. */
    method LookUpNotification(token: Token) returns (panicked: bool)
      requires Coherent() && noticing.None?
      modifies `noticing, `calls
      ensures Coherent() && (panicked <==> token.CompositeToken?)
      ensures View() == if panicked then old(View()) else Apply(old(View()), NotifyLookup(token))
    {
      if token.CompositeToken? {
        return true;
      }
      if token in progressTokens {
        var requestID := progressTokens[token];
        if requestID in progressRequests {
          noticing := Some((requestID, progressRequests[requestID]));
          calls := calls + [(token, requestID)];
        }
      }
      return false;
    }

    /** The end of handleProgressNotification: re-arm the timer of the request found before. */
    method RearmTimer()
      requires Coherent() && noticing.Some?
      modifies `noticing, `timers, `lastReset
      ensures Coherent() && View() == RearmStep(old(View()), old(noticing).value.0)
      ensures var (id, r) := old(noticing).value;
              timers == if r.resets then old(timers)[TimerKey(id, false) := now + r.timeout] else old(timers)
    {
      var (requestID, progressReq) := noticing.value;
      noticing := None;
      if progressReq.resets {
        timers := timers[TimerKey(requestID, false) := now + progressReq.timeout];
        lastReset := lastReset[requestID := now];
      }
    }

    method HandleRequestTimeout(key: TimerKey)
      requires Coherent() && key in timers && timers[key] <= now
      modifies `timers, `progressRequests, `progressTokens, `channels, `timeouts
      ensures Coherent() && View() == FireStep(old(View()), key)
    {
      if key.id !in progressRequests {
        timers := timers - {key};
        return;
      }
      TimeOutLive(key.id);
    }

    method TimeOutLive(id: nat)
      requires Coherent() && id in progressRequests
      modifies `timers, `progressRequests, `progressTokens, `channels, `timeouts
      ensures progressRequests == old(progressRequests) - {id}
      ensures progressTokens == old(progressTokens - TokenSet(View(), id))
      ensures timers == old(timers) - TimersOf(id) && timeouts == old(timeouts) + 1
      ensures channels == old(channels)[id := Rpc.CloseChannel(old(channels)[id])]
    {
      TakeOut(id);
      CountTimeout(id);
    }

    method CountTimeout(id: nat)
      requires id in channels
      modifies `channels, `timeouts
      ensures channels == old(channels)[id := Rpc.CloseChannel(old(channels)[id])] && timeouts == old(timeouts) + 1
    {
      channels := channels[id := Rpc.CloseChannel(channels[id])];
      timeouts := timeouts + 1;
    }

    /** Takes a request out of both maps and stops its timers. */
    method TakeOut(id: nat)
      requires id in progressRequests && id in issued && issued[id] == progressRequests[id]
      modifies `timers, `progressRequests, `progressTokens
      ensures progressRequests == old(progressRequests) - {id}
      ensures progressTokens == old(progressTokens - TokenSet(View(), id))
      ensures timers == old(timers) - TimersOf(id)
    {
      var progressReq := progressRequests[id];
      progressRequests := progressRequests - {id};
      if progressReq.token.Some? {
        progressTokens := progressTokens - {progressReq.token.value};
      }
      timers := timers - {TimerKey(id, false)};
      timers := timers - {TimerKey(id, true)};
    }

    method RemoveProgressRequest(id: nat)
      requires Coherent() && id in sending
      modifies `sending, `timers, `progressRequests, `progressTokens
      ensures Coherent() && View() == Apply(old(View()), Remove(id))
    {
      if id in progressRequests {
        TakeOut(id);
      }
      sending := sending - {id};
    }

    /** Close, up to closing the correlation handler: the maps are cleared and the timers stopped, but no
        response channel is closed. */
    method CloseProgressRequests()
      requires Coherent()
      modifies `timers, `progressRequests, `progressTokens
      ensures Coherent() && View() == Apply(old(View()), CloseProgress)
    {
      var requestsToCleanup := progressRequests.Keys;
      progressRequests := map[];
      progressTokens := map[];
      StopTimers(requestsToCleanup);
    }

    method StopTimers(ids: set<nat>)
      modifies `timers
      ensures timers == map key | key in old(timers) && key.id !in ids :: old(timers)[key]
    {
      var left := ids;
      while left != {}
        invariant left <= ids
        invariant forall key :: key in timers <==> key in old(timers) && key.id !in ids - left
        invariant forall key :: key in timers ==> timers[key] == old(timers)[key]
        decreases |left|
      {
        var id :| id in left;
        left := left - {id};
        StopBoth(id);
      }
    }

    method StopBoth(id: nat)
      modifies `timers
      ensures forall key :: key in timers <==> key in old(timers) && key.id != id
      ensures forall key :: key in timers ==> timers[key] == old(timers)[key]
    {
      timers := timers - TimersOf(id);
      assert forall key: TimerKey :: key.id == id ==> key in TimersOf(id) by {
        forall key: TimerKey | key.id == id ensures key in TimersOf(id) {
          assert key == TimerKey(id, key.total);
        }
      }
    }
  }
}
