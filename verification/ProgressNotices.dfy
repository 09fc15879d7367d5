/** What notifications do to the deadline of a request with progress, and what the options it was sent with
    mean, told by the steps of a run rather than by the instants that the handler keeps. */
module ProgressNotices {
  import opened Wrappers
  import Rpc = JsonRpc
  import opened Progress

  // ---- A request is sent ----

  /** The request that sending stores: the timeout is the one asked for or the default, a total limit arms a
      second timer, and a callback gets a token that no request ever had. */
  lemma {:induction false} SentAsAsked(s: State, o: Options)
    requires Inv(s) && Enabled(s, SendWithProgress(o))
    ensures s.base.counter + 1 !in s.live && AsAsked(s, Apply(s, SendWithProgress(o)), s.base.counter + 1, o)
    ensures TimersOfSent(s, Apply(s, SendWithProgress(o)), s.base.counter + 1, o)
  {
    NextIdIsFresh(s);
    NewTokenIsFresh(s);
    SentRequest(s, o);
    SentTimers(s, o);
  }

  /** The request as it is stored, with a token that no request has had. */
  predicate AsAsked(s: State, t: State, id: nat, o: Options) {
    && t.live == s.live + {id} && id in t.issued && id in t.sending && id in t.channels && t.channels[id] == []
    && var r := t.issued[id];
       && r.resets == o.resets && r.start == s.now && r.maxTotal == o.maxTotal
       && r.timeout == (if o.timeout > 0 then o.timeout else s.defaultTimeout)
       && (o.onProgress <==> r.token.Some?)
       && (o.onProgress ==> forall i :: i in s.issued ==> s.issued[i].token != r.token)
  }

  lemma {:induction false} SentRequest(s: State, o: Options)
    requires forall i :: i in s.issued ==> s.issued[i].token != Some(IntToken(s.tokenCounter + 1))
    ensures AsAsked(s, SendStep(s, o), s.base.counter + 1, o)
  {
  }

  /** The timers that a request starts with. */
  predicate TimersOfSent(s: State, t: State, id: nat, o: Options) {
    && TimerKey(id, false) in t.timers
    && t.timers[TimerKey(id, false)] == s.now + (if o.timeout > 0 then o.timeout else s.defaultTimeout)
    && (TimerKey(id, true) in t.timers <==> o.maxTotal > 0)
    && (o.maxTotal > 0 ==> t.timers[TimerKey(id, true)] == s.now + o.maxTotal)
  }

  lemma {:induction false} SentTimers(s: State, o: Options)
    requires TimerKey(s.base.counter + 1, true) !in s.timers
    ensures TimersOfSent(s, SendStep(s, o), s.base.counter + 1, o)
  {
  }

  // ---- A notification ----

  /** The live request that a token was issued to, if any, is looked up and its callback called with it;
      otherwise nothing happens. */
  lemma {:induction false} NoticeFinds(s: State, token: Token, id: nat)
    requires Own(s) && Enabled(s, NotifyLookup(token))
    ensures var t := Apply(s, NotifyLookup(token));
            if id in s.live && id in s.issued && s.issued[id].token == Some(token)
            then t == s.(noticing := Some(id), calls := s.calls + [(token, id)])
            else t.noticing != Some(id)
    ensures (forall i :: i in s.live && i in s.issued ==> s.issued[i].token != Some(token)) ==>
              Apply(s, NotifyLookup(token)) == s
  {
    if id in s.live {
      assert LiveOk(s, id);
    }
    if token in s.tokens {
      assert TokenOk(s, token);
    }
  }

  /** What was looked up stays so, whatever comes between, until the re-arm. */
  lemma {:induction false} NoticeHolds(s: State, step: Step)
    requires Enabled(s, step) && s.noticing.Some? && !step.NotifyRearm?
    ensures Apply(s, step).noticing == s.noticing
  {
    if step.Base? || step.SendWithProgress? {
      SendingHolds(s, step);
    }
  }

  lemma {:induction false} SendingHolds(s: State, step: Step)
    requires Enabled(s, step) && (step.Base? || step.SendWithProgress?)
    ensures Apply(s, step).noticing == s.noticing
  {
  }

  predicate NoRearm(steps: seq<Step>) {
    forall step :: step in steps ==> !step.NotifyRearm?
  }

  lemma {:induction false} NoticeHoldsOver(s: State, steps: seq<Step>)
    requires Valid(s, steps) && s.noticing.Some? && NoRearm(steps)
    ensures Exec(s, steps).noticing == s.noticing
    decreases |steps|
  {
    if steps != [] {
      assert steps[0] in steps;
      assert forall step :: step in steps[1..] ==> step in steps;
      NoticeHolds(s, steps[0]);
      NoticeHoldsOver(Apply(s, steps[0]), steps[1..]);
    }
  }

  /** The re-arm: the timeout starts anew if the request was sent with `resets`, and nothing else changes. */
  lemma {:induction false} RearmMeans(s: State, id: nat)
    requires Rest(s) && s.noticing == Some(id)
    ensures id in s.issued && Enabled(s, NotifyRearm)
    ensures var t, key := Apply(s, NotifyRearm), TimerKey(id, false);
            && t == s.(noticing := None, timers := t.timers, lastReset := t.lastReset)
            && (s.issued[id].resets ==>
                  t.timers == s.timers[key := s.now + s.issued[id].timeout] && t.lastReset == s.lastReset[id := s.now])
            && (!s.issued[id].resets ==> t.timers == s.timers && t.lastReset == s.lastReset)
  {
  }

  /** In every run: a notification looks up a live request by its token, other steps follow, and then its
      re-arm runs. The timeout is then due a full timeout later if the request was sent with `resets`, and
      not a moment later than before if it was not. */
  lemma {:induction false} NotificationProlongs(capacity: nat, defaultTimeout: nat, before: seq<Step>, token: Token,
                                                between: seq<Step>, id: nat)
    requires Valid(Init(capacity, defaultTimeout), before)
    requires var s := Exec(Init(capacity, defaultTimeout), before);
             id in s.live && id in s.issued && s.issued[id].token == Some(token) && Enabled(s, NotifyLookup(token))
             && Valid(Apply(s, NotifyLookup(token)), between) && NoRearm(between)
    ensures var s := Exec(Init(capacity, defaultTimeout), before);
            var u := Exec(Apply(s, NotifyLookup(token)), between);
            && Enabled(u, NotifyRearm) && id in u.issued && u.issued[id] == s.issued[id]
            && var t, key := Apply(u, NotifyRearm), TimerKey(id, false);
               if s.issued[id].resets
               then key in t.timers && t.timers[key] == u.now + s.issued[id].timeout && t.lastReset == u.lastReset[id := u.now]
               else t.timers == u.timers && t.lastReset == u.lastReset
  {
    var s := Exec(Init(capacity, defaultTimeout), before);
    InitInv(capacity, defaultTimeout);
    RunKeepsInv(Init(capacity, defaultTimeout), before);
    NoticeFinds(s, token, id);
    StepKeepsInv(s, NotifyLookup(token));
    var v := Apply(s, NotifyLookup(token));
    NoticeHoldsOver(v, between);
    RunKeepsInv(v, between);
    RunKeepsIds(v, between, id);
    RearmMeans(Exec(v, between), id);
  }

  // ---- Deadlines told by the steps ----

  /** When the run last re-armed the timer of a request after looking it up. */
  ghost function RearmedAt(s: State, steps: seq<Step>, id: nat): Option<nat>
    requires Valid(s, steps)
    decreases |steps|
  {
    if steps == [] then None
    else
      var later := RearmedAt(Apply(s, steps[0]), steps[1..], id);
      if later.Some? then later
      else if steps[0].NotifyRearm? && s.noticing == Some(id) then Some(s.now)
      else None
  }

  lemma {:induction false} OtherStepsKeepResets(s: State, step: Step)
    requires Enabled(s, step) && !step.SendWithProgress? && !step.NotifyRearm?
    ensures Apply(s, step).lastReset == s.lastReset
  {
  }

  lemma {:induction false} StepResets(s: State, step: Step, id: nat)
    requires Inv(s) && Enabled(s, step) && id in s.issued && id in s.lastReset
    ensures id in Apply(s, step).lastReset
    ensures Apply(s, step).lastReset[id]
         == if step.NotifyRearm? && s.noticing == Some(id) && s.issued[id].resets then s.now else s.lastReset[id]
  {
    if step.SendWithProgress? {
      NextIdIsFresh(s);
    } else if step.NotifyRearm? {
      RearmMeans(s, s.noticing.value);
    } else {
      OtherStepsKeepResets(s, step);
    }
  }

  /** Where a request's timeout is counted from, after these steps. */
  ghost function CountedFrom(s: State, steps: seq<Step>, id: nat, from: nat, resets: bool): nat
    requires Valid(s, steps)
  {
    var r := RearmedAt(s, steps, id);
    if resets && r.Some? then r.value else from
  }

  lemma {:induction false} ResetsOver(s: State, steps: seq<Step>, id: nat)
    requires Inv(s) && Valid(s, steps) && id in s.issued && id in s.lastReset
    ensures id in Exec(s, steps).lastReset
    ensures Exec(s, steps).lastReset[id] == CountedFrom(s, steps, id, s.lastReset[id], s.issued[id].resets)
    decreases |steps|
  {
    if steps != [] {
      StepKeepsInv(s, steps[0]);
      StepKeepsIds(s, steps[0], id);
      StepResets(s, steps[0], id);
      ResetsOver(Apply(s, steps[0]), steps[1..], id);
    }
  }

  lemma {:induction false} NotYetRearmed(s: State, step: Step, id: nat)
    requires Inv(s) && Enabled(s, step) && id !in s.issued
    ensures s.noticing != Some(id)
    ensures var t := Apply(s, step); id in t.issued ==> id in t.lastReset && t.lastReset[id] == t.issued[id].start
  {
    StepKeepsIds(s, step, id);
  }

  lemma {:induction false} NewResets(s: State, steps: seq<Step>, id: nat)
    requires Inv(s) && Valid(s, steps) && id !in s.issued
    ensures var t := Exec(s, steps);
            id in t.issued ==>
              id in t.lastReset && t.lastReset[id] == CountedFrom(s, steps, id, t.issued[id].start, t.issued[id].resets)
    decreases |steps|
  {
    if steps != [] {
      var u := Apply(s, steps[0]);
      StepKeepsInv(s, steps[0]);
      NotYetRearmed(s, steps[0], id);
      if id in u.issued {
        ResetsOver(u, steps[1..], id);
        RunKeepsIds(u, steps[1..], id);
      } else {
        NewResets(u, steps[1..], id);
      }
    }
  }

  /** In every run, a request that is live is no older than its timeout, counted from the last re-arm after a
      notification that the run made for it, or from its start when there was none or it was not sent with
      `resets`; and its timeout timer is due at exactly that instant. */
  lemma {:induction false} DeadlineOfRun(capacity: nat, defaultTimeout: nat, steps: seq<Step>, id: nat)
    requires Valid(Init(capacity, defaultTimeout), steps)
    ensures var s := Init(capacity, defaultTimeout);
            var t := Exec(s, steps);
            id in t.live ==>
              && id in t.issued && TimerKey(id, false) in t.timers
              && var due := CountedFrom(s, steps, id, t.issued[id].start, t.issued[id].resets) + t.issued[id].timeout;
                 t.timers[TimerKey(id, false)] == due && t.now <= due
  {
    var s := Init(capacity, defaultTimeout);
    InitInv(capacity, defaultTimeout);
    RunKeepsInv(s, steps);
    NewResets(s, steps, id);
    var t := Exec(s, steps);
    if id in t.live {
      assert LiveOk(t, id);
    }
  }

  /** However many notifications arrive, a request sent without `resets` is gone once its timeout is over. */
  lemma {:induction false} NotificationsDoNotProlong(capacity: nat, defaultTimeout: nat, steps: seq<Step>, id: nat)
    requires Valid(Init(capacity, defaultTimeout), steps)
    ensures var t := Exec(Init(capacity, defaultTimeout), steps);
            id in t.issued && !t.issued[id].resets ==>
              && id in t.lastReset && t.lastReset[id] == t.issued[id].start
              && (t.now > t.issued[id].start + t.issued[id].timeout ==> id !in t.live)
  {
    InitInv(capacity, defaultTimeout);
    NewResets(Init(capacity, defaultTimeout), steps, id);
    DeadlineOfRun(capacity, defaultTimeout, steps, id);
  }

  // ---- A request goes away ----

  /** No map and no timer knows the request any more. */
  ghost predicate Forgotten(s: State, id: nat) {
    id !in s.live && (forall k :: k in s.tokens ==> s.tokens[k] != id) && forall key :: key in s.timers ==> key.id != id
  }

  /** The end of a request: forgotten, with its channel closed and the end counted, or neither. */
  ghost predicate Ended(s: State, t: State, id: nat, closed: bool) {
    && Forgotten(t, id) && id in s.channels && id in t.channels
    && t.channels[id] == (if closed then [Rpc.Shut] else [])
    && t.timeouts == (if closed then s.timeouts + 1 else s.timeouts)
  }

  lemma {:induction false} FireEnds(s: State, key: TimerKey)
    requires Own(s) && Enabled(s, TimerFires(key)) && key.id in s.live
    ensures Ended(s, FireStep(s, key), key.id, true)
  {
    assert LiveOk(s, key.id);
    DropKeepsOwn(s, key.id);
  }

  lemma {:induction false} RemoveEnds(s: State, id: nat)
    requires Own(s) && Enabled(s, Remove(id)) && id in s.live
    ensures Ended(s, Apply(s, Remove(id)), id, false)
  {
    assert LiveOk(s, id);
    DropKeepsOwn(s, id);
    RemovedIs(s, id);
  }

  lemma {:induction false} RemovedIs(s: State, id: nat)
    requires id in s.sending && id in s.live
    ensures var t, d := Apply(s, Remove(id)), Drop(s, id);
            t.live == d.live && t.tokens == d.tokens && t.timers == d.timers
            && t.channels == s.channels && t.timeouts == s.timeouts
  {
  }

  lemma {:induction false} CloseEnds(s: State, id: nat)
    requires Own(s) && id in s.live
    ensures Ended(s, Apply(s, CloseProgress), id, false)
    ensures Apply(s, CloseProgress).live == {} && Apply(s, CloseProgress).tokens == map[]
  {
    assert LiveOk(s, id);
  }

  lemma {:induction false} OtherStepsKeepLive(s: State, step: Step)
    requires Enabled(s, step) && !step.TimerFires? && !step.Remove? && !step.CloseProgress?
    ensures s.live <= Apply(s, step).live
  {
  }

  lemma {:induction false} EndsItsOwn(s: State, step: Step, id: nat)
    requires Own(s) && Enabled(s, step) && id in s.live && id !in Apply(s, step).live && !step.CloseProgress?
    ensures step == Remove(id) || (step.TimerFires? && step.key.id == id)
  {
    assert LiveOk(s, id);
    if !Concerns(s, step, id) {
      OthersUntouched(s, step, id);
    } else if !step.TimerFires? && !step.Remove? {
      OtherStepsKeepLive(s, step);
    }
  }

  /** The three ways a live request ends. A timer closes its channel and is counted; a send that is given up
      and the end of the handler leave the channel open and count nothing. */
  lemma {:induction false} WaysToEnd(s: State, step: Step, id: nat)
    requires Own(s) && Enabled(s, step) && id in s.live && id !in Apply(s, step).live
    ensures step == Remove(id) || step.CloseProgress? || (step.TimerFires? && step.key.id == id)
    ensures Ended(s, Apply(s, step), id, step.TimerFires?)
  {
    if step.CloseProgress? {
      CloseEnds(s, id);
    } else {
      EndsItsOwn(s, step, id);
      if step.TimerFires? {
        FireEnds(s, step.key);
      } else {
        RemoveEnds(s, id);
      }
    }
  }
}
