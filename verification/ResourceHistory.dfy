/** The resource registry told by its runs: which handler call each returned content comes from, text
    included, when a read is a hit, and which handler is registered. */
module ResourceHistory {
  import opened Wrappers
  import opened ResourceCache

  // ---- What the handler calls yielded ----

  /** What the handler calls of a run yielded: the contents and the URIs they were read for, and for each
      reader the outcome of its latest call. */
  datatype Log = Log(yielded: set<(string, Content)>, own: map<nat, Result<Content, string>>)

  /** The outcome of a handler call, marked with the handler of the reader's entry. */
  function Outcome(s: State, id: nat, outcome: Result<string, string>): Result<Content, string>
    requires id in s.readers
  {
    match outcome
    case Ok(text) => Ok(Content(text, EntryAt(s, s.readers[id].entry).handler))
    case Err(e) => Err(e)
  }

  function Entered(log: Log, s: State, step: Step): Log
    requires Enabled(s, step)
  {
    match step
    case Run(id, outcome) =>
      var r := Outcome(s, id, outcome);
      Log(if r.Ok? then log.yielded + {(s.readers[id].uri, r.value)} else log.yielded, log.own[id := r])
    case _ => log
  }

  function LogOf(log: Log, s: State, steps: seq<Step>): Log
    requires Valid(s, steps)
    decreases |steps|
  {
    if steps == [] then log else LogOf(Entered(log, s, steps[0]), Apply(s, steps[0]), steps[1..])
  }

  /** What a reader holds was yielded, and past its handler call it holds what that call yielded. */
  predicate ReaderLogged(log: Log, id: nat, r: Reader) {
    match r.phase
    case Hit(content, _) => (r.uri, content) in log.yielded
    case Fetched(content) => (r.uri, content) in log.yielded && id in log.own && log.own[id] == Ok(content)
    case Stored(content) => (r.uri, content) in log.yielded && id in log.own && log.own[id] == Ok(content)
    case Closing(result) =>
      (result.Ok? ==> (r.uri, result.value) in log.yielded) && id in log.own && log.own[id] == result
    case _ => true
  }

  predicate EntryLogged(log: Log, e: Entry) {
    e.cache.Some? ==> (e.uri, e.cache.value.content) in log.yielded
  }

  predicate Logged(s: State, log: Log) {
    && (forall e :: 0 <= e < |s.entries| ==> EntryLogged(log, s.entries[e]))
    && (forall id :: id in s.readers ==> ReaderLogged(log, id, s.readers[id]))
    && (forall r :: r in s.returned && r.result.Ok? ==> (r.uri, r.result.value) in log.yielded)
  }

  lemma {:induction false} RunKeepsLogged(s: State, log: Log, id: nat, outcome: Result<string, string>)
    requires Logged(s, log) && InPhase(s, id, Holding)
    ensures Logged(RunStep(s, id, outcome), Entered(log, s, Run(id, outcome)))
  {
    var t, l := RunStep(s, id, outcome), Entered(log, s, Run(id, outcome));
    forall i | i in t.readers ensures ReaderLogged(l, i, t.readers[i]) {
      if i != id {
        assert ReaderLogged(log, i, s.readers[i]);
      }
    }
    forall e | 0 <= e < |t.entries| ensures EntryLogged(l, t.entries[e]) {
      assert EntryLogged(log, s.entries[e]);
    }
  }

  lemma {:induction false} StoreKeepsLogged(s: State, log: Log, id: nat)
    requires Inv(s) && Logged(s, log) && Enabled(s, Store(id))
    ensures Logged(StoreStep(s, id), log)
  {
    var t := StoreStep(s, id);
    assert ReaderLogged(log, id, s.readers[id]);
    forall e | 0 <= e < |t.entries| ensures EntryLogged(log, t.entries[e]) {
      assert EntryLogged(log, s.entries[e]);
    }
    forall i | i in t.readers ensures ReaderLogged(log, i, t.readers[i]) {
      if i != id {
        assert ReaderLogged(log, i, s.readers[i]);
      }
    }
  }

  lemma {:induction false} AccessKeepsLogged(s: State, log: Log, id: nat)
    requires Inv(s) && Logged(s, log) && Enabled(s, CountAccess(id))
    ensures Logged(AccessStep(s, id), log)
  {
    var t := AccessStep(s, id);
    assert ReaderLogged(log, id, s.readers[id]);
    forall e | 0 <= e < |t.entries| ensures EntryLogged(log, t.entries[e]) {
      assert EntryLogged(log, s.entries[e]);
    }
    forall i | i in t.readers ensures ReaderLogged(log, i, t.readers[i]) {
      if i != id {
        assert ReaderLogged(log, i, s.readers[i]);
      }
    }
  }

  /** A step that changes at most one reader, and of the entries none but by adding. */
  lemma {:induction false} ReaderKeepsLogged(s: State, t: State, log: Log, id: nat)
    requires Logged(s, log) && (id in t.readers ==> ReaderLogged(log, id, t.readers[id]))
    requires forall i :: i in t.readers && i != id ==> i in s.readers && t.readers[i] == s.readers[i]
    requires |s.entries| <= |t.entries| && t.entries[..|s.entries|] == s.entries
    requires forall e :: |s.entries| <= e < |t.entries| ==> t.entries[e].cache.None?
    requires forall r :: r in t.returned ==> r in s.returned || (r.result.Ok? ==> (r.uri, r.result.value) in log.yielded)
    ensures Logged(t, log)
  {
    forall e | 0 <= e < |t.entries| ensures EntryLogged(log, t.entries[e]) {
      if e < |s.entries| {
        assert t.entries[e] == t.entries[..|s.entries|][e] == s.entries[e];
        assert EntryLogged(log, s.entries[e]);
      }
    }
    forall i | i in t.readers ensures ReaderLogged(log, i, t.readers[i]) {
      if i != id {
        assert ReaderLogged(log, i, s.readers[i]);
      }
    }
  }

  lemma {:induction false} CheckKeepsLogged(s: State, log: Log, id: nat)
    requires Inv(s) && Logged(s, log) && Enabled(s, CheckCache(id))
    ensures Logged(CheckStep(s, id), log)
  {
    assert ReaderOk(s, s.readers[id]);
    assert EntryLogged(log, s.entries[s.readers[id].entry]);
    ReaderKeepsLogged(s, CheckStep(s, id), log, id);
  }

  lemma {:induction false} StepKeepsLogged(s: State, log: Log, step: Step)
    requires Inv(s) && Logged(s, log) && Enabled(s, step)
    ensures Logged(Apply(s, step), Entered(log, s, step))
  {
    var t := Apply(s, step);
    match step
    case Run(id, outcome) => RunKeepsLogged(s, log, id, outcome);
    case Store(id) => StoreKeepsLogged(s, log, id);
    case CountAccess(id) => AccessKeepsLogged(s, log, id);
    case CheckCache(id) => CheckKeepsLogged(s, log, id);
    case Lookup(id, _) => ReaderKeepsLogged(s, t, log, id);
    case Acquire(id) => ReaderKeepsLogged(s, t, log, id);
    case GiveUp(id) => ReaderKeepsLogged(s, t, log, id);
    case Release(id) =>
      assert ReaderLogged(log, id, s.readers[id]);
      ReaderKeepsLogged(s, t, log, id);
    case Register(_, _) => ReaderKeepsLogged(s, t, log, 0);
    case Unregister(_) => ReaderKeepsLogged(s, t, log, 0);
    case Tick => ReaderKeepsLogged(s, t, log, 0);
  }

  lemma {:induction false} RunKeepsLog(s: State, log: Log, steps: seq<Step>)
    requires Inv(s) && Logged(s, log) && Valid(s, steps)
    ensures Logged(Exec(s, steps), LogOf(log, s, steps))
    decreases |steps|
  {
    if steps != [] {
      StepKeepsInv(s, steps[0]);
      StepKeepsLogged(s, log, steps[0]);
      RunKeepsLog(Apply(s, steps[0]), Entered(log, s, steps[0]), steps[1..]);
    }
  }

  const EMPTY_LOG := Log({}, map[])

  /** In every run, whatever a read returns is, text included, what a call of a handler registered at its URI
      yielded when it was read for that URI. */
  lemma {:induction false} ReturnsWhatWasYielded(max: nat, timeout: nat, steps: seq<Step>)
    requires Valid(Init(max, timeout), steps)
    ensures var t, log := Exec(Init(max, timeout), steps), LogOf(EMPTY_LOG, Init(max, timeout), steps);
            forall r :: r in t.returned && r.result.Ok? ==>
              (r.uri, r.result.value) in log.yielded && (r.uri, r.result.value.source) in t.registered
  {
    Provenance(max, timeout, steps);
    RunKeepsLog(Init(max, timeout), EMPTY_LOG, steps);
  }

  /** When a read returns: how it was a hit or not, and what it returned. */
  predicate Finishes(s: State, step: Step, ret: Return)
    requires Enabled(s, step)
  {
    Apply(s, step).returned == s.returned + [ret]
  }

  /** In every run, a read that ends with content is a hit that returns the content it found and its age, or a
      release that returns exactly what the read's own handler call yielded. */
  lemma {:induction false} ReturnsItsOwn(max: nat, timeout: nat, steps: seq<Step>, step: Step, ret: Return)
    requires Valid(Init(max, timeout), steps) && Enabled(Exec(Init(max, timeout), steps), step)
    requires Finishes(Exec(Init(max, timeout), steps), step, ret)
    ensures var s, log := Exec(Init(max, timeout), steps), LogOf(EMPTY_LOG, Init(max, timeout), steps);
            match step
            case CountAccess(id) => id in s.readers && s.readers[id].phase.Hit? && ret.uri == s.readers[id].uri
              && ret.result == Ok(s.readers[id].phase.content) && ret.hitAge == Some(s.readers[id].phase.age)
            case Release(id) => id in s.readers && id in log.own && ret == Return(s.readers[id].uri, log.own[id], None)
            case _ => ret.result.Err? && ret.hitAge.None?
  {
    var s, log := Exec(Init(max, timeout), steps), LogOf(EMPTY_LOG, Init(max, timeout), steps);
    assert Holders(map[]) == {};
    RunKeepsInv(Init(max, timeout), steps);
    RunKeepsLog(Init(max, timeout), EMPTY_LOG, steps);
    LastReturned(s, step, ret);
    match step
    case Release(id) => assert ReaderLogged(log, id, s.readers[id]);
    case _ =>
  }

  lemma {:induction false} LastReturned(s: State, step: Step, ret: Return)
    requires Enabled(s, step) && Finishes(s, step, ret)
    ensures match step
            case CountAccess(id) => id in s.readers && s.readers[id].phase.Hit?
              && ret == Return(s.readers[id].uri, Ok(s.readers[id].phase.content), Some(s.readers[id].phase.age))
            case Release(id) => id in s.readers && s.readers[id].phase.Closing?
              && ret == Return(s.readers[id].uri, s.readers[id].phase.result, None)
            case _ => ret.result.Err? && ret.hitAge.None?
  {
    var t := Apply(s, step);
    assert t.returned[|s.returned|] == ret;
  }

  // ---- When a read is a hit ----

  /** The content that the run last stored into an entry, and when. */
  function LastStored(s: State, steps: seq<Step>, e: nat): Option<(Content, nat)>
    requires Valid(s, steps)
    decreases |steps|
  {
    if steps == [] then None
    else
      var later := LastStored(Apply(s, steps[0]), steps[1..], e);
      if later.Some? then later else StoredBy(s, steps[0], e)
  }

  /** A reader that has fetched stores into the entry that is registered at its URI. */
  function StoredBy(s: State, step: Step, e: nat): Option<(Content, nat)>
    requires Enabled(s, step)
  {
    if step.Store? && s.readers[step.reader].uri in s.resources && s.resources[s.readers[step.reader].uri] == e
    then Some((s.readers[step.reader].phase.content, s.now))
    else None
  }

  function CachedAs(stored: Option<(Content, nat)>, timeout: nat, before: Option<Cached>): Option<Cached> {
    if stored.Some? then Some(Cached(stored.value.0, stored.value.1, timeout)) else before
  }

  function CountedBy(s: State, step: Step, e: nat): nat
    requires Enabled(s, step)
  {
    if step.CountAccess? && s.readers[step.reader].uri in s.resources && s.resources[s.readers[step.reader].uri] == e
    then 1 else 0
  }

  /** What a step does to each entry there is: only storing writes a cache, only counting counts. */
  lemma {:induction false} EntryAfter(s: State, step: Step, e: nat)
    requires Enabled(s, step) && e < |s.entries|
    ensures var t := Apply(s, step);
            e < |t.entries| && t.timeout == s.timeout
            && t.entries[e] == s.entries[e].(cache := CachedAs(StoredBy(s, step, e), s.timeout, s.entries[e].cache),
                                             accessCount := s.entries[e].accessCount + CountedBy(s, step, e))
  {
  }

  lemma {:induction false} NewEntries(s: State, step: Step)
    requires Enabled(s, step)
    ensures var t := Apply(s, step);
            if step.Register? then t.entries == s.entries + [Entry(step.uri, step.handler, 0, None)]
            else |t.entries| == |s.entries|
  {
  }

  lemma {:induction false} NothingStoredYet(s: State, step: Step, e: nat)
    requires Inv(s) && Enabled(s, step) && e >= |s.entries|
    ensures StoredBy(s, step, e).None? && CountedBy(s, step, e) == 0
  {
  }

  /** How often the run counted an access to an entry. */
  function Accesses(s: State, steps: seq<Step>, e: nat): nat
    requires Valid(s, steps)
    decreases |steps|
  {
    if steps == [] then 0 else CountedBy(s, steps[0], e) + Accesses(Apply(s, steps[0]), steps[1..], e)
  }

  /** An entry's cache is what was last stored into it, and its count the accesses counted. */
  lemma {:induction false} EntryOver(s: State, steps: seq<Step>, e: nat)
    requires Inv(s) && Valid(s, steps) && e < |s.entries|
    ensures var t := Exec(s, steps);
            e < |t.entries|
            && t.entries[e] == s.entries[e].(cache := CachedAs(LastStored(s, steps, e), s.timeout, s.entries[e].cache),
                                             accessCount := s.entries[e].accessCount + Accesses(s, steps, e))
    decreases |steps|
  {
    if steps != [] {
      StepKeepsInv(s, steps[0]);
      EntryAfter(s, steps[0], e);
      EntryOver(Apply(s, steps[0]), steps[1..], e);
    }
  }

  lemma {:induction false} NewEntryOver(s: State, steps: seq<Step>, e: nat)
    requires Inv(s) && Valid(s, steps) && |s.entries| <= e < |Exec(s, steps).entries|
    ensures var t := Exec(s, steps);
            t.entries[e].cache == CachedAs(LastStored(s, steps, e), s.timeout, None)
            && t.entries[e].accessCount == Accesses(s, steps, e)
    decreases |steps|
  {
    if steps != [] {
      var u := Apply(s, steps[0]);
      StepKeepsInv(s, steps[0]);
      NewEntries(s, steps[0]);
      NothingStoredYet(s, steps[0], e);
      if e < |u.entries| {
        EntryOver(u, steps[1..], e);
      } else {
        NewEntryOver(u, steps[1..], e);
      }
    }
  }

  /** The phase of a reader that has looked into its entry's cache. */
  predicate Checked(phase: Phase, stored: Option<(Content, nat)>, now: nat, timeout: nat) {
    if stored.Some? && stored.value.1 <= now < stored.value.1 + timeout
    then phase == Hit(stored.value.0, now - stored.value.1)
    else phase == Missed
  }

  lemma {:induction false} CheckedStep(s: State, id: nat, stored: Option<(Content, nat)>)
    requires Enabled(s, CheckCache(id)) && s.readers[id].entry < |s.entries|
    requires s.entries[s.readers[id].entry].cache == CachedAs(stored, s.timeout, None)
    requires stored.Some? ==> stored.value.1 <= s.now
    ensures id in CheckStep(s, id).readers && Checked(CheckStep(s, id).readers[id].phase, stored, s.now, s.timeout)
  {
  }

  /** In every run a reader that checks the cache has a hit exactly when something was stored into its entry
      less than the timeout before, and then it has what was last stored there. */
  lemma {:induction false} HitIffFresh(max: nat, timeout: nat, steps: seq<Step>, id: nat)
    requires Valid(Init(max, timeout), steps) && Enabled(Exec(Init(max, timeout), steps), CheckCache(id))
    ensures var s := Exec(Init(max, timeout), steps);
            var t, stored := Apply(s, CheckCache(id)), LastStored(Init(max, timeout), steps, s.readers[id].entry);
            id in t.readers && Checked(t.readers[id].phase, stored, s.now, timeout)
  {
    var s := Exec(Init(max, timeout), steps);
    assert Holders(map[]) == {};
    RunKeepsInv(Init(max, timeout), steps);
    assert ReaderOk(s, s.readers[id]);
    var e := s.readers[id].entry;
    assert EntryOk(s, s.entries[e]);
    NewEntryOver(Init(max, timeout), steps, e);
    CheckedStep(s, id, LastStored(Init(max, timeout), steps, e));
  }

  // ---- Which handler is registered ----

  function HandlerAt(s: State, uri: string): Option<nat> {
    if uri in s.resources then Some(EntryAt(s, s.resources[uri]).handler) else None
  }

  /** What the last registration or removal of the URI in the run says. */
  function Latest(steps: seq<Step>, uri: string, before: Option<nat>): Option<nat> {
    if steps == [] then before
    else
      Latest(steps[1..], uri,
             if steps[0].Register? && steps[0].uri == uri then Some(steps[0].handler)
             else if steps[0].Unregister? && steps[0].uri == uri then None
             else before)
  }

  lemma {:induction false} HandlerAfter(s: State, step: Step, uri: string)
    requires Inv(s) && Enabled(s, step)
    ensures HandlerAt(Apply(s, step), uri)
         == if step.Register? && step.uri == uri then Some(step.handler)
            else if step.Unregister? && step.uri == uri then None
            else HandlerAt(s, uri)
  {
    if uri in s.resources {
      EntryAfter(s, step, s.resources[uri]);
    }
    if step.Register? {
      NewEntries(s, step);
    }
  }

  /** A reader takes the entry that is registered when it looks its URI up, or fails if there is none. */
  lemma {:induction false} LookupTakesRegistered(s: State, id: nat, uri: string)
    requires Enabled(s, Lookup(id, uri))
    ensures var t := Apply(s, Lookup(id, uri));
            if uri in s.resources
            then t == s.(readers := s.readers[id := Reader(uri, s.resources[uri], Looked)])
            else t.readers == s.readers && |t.returned| == |s.returned| + 1
                 && t.returned[|s.returned|].uri == uri && t.returned[|s.returned|].result.Err?
  {
  }

  /** In every run the handler of a URI is that of its last registration that was not removed. */
  lemma {:induction false} LatestIsRegistered(s: State, steps: seq<Step>, uri: string)
    requires Inv(s) && Valid(s, steps)
    ensures HandlerAt(Exec(s, steps), uri) == Latest(steps, uri, HandlerAt(s, uri))
    decreases |steps|
  {
    if steps != [] {
      StepKeepsInv(s, steps[0]);
      HandlerAfter(s, steps[0], uri);
      LatestIsRegistered(Apply(s, steps[0]), steps[1..], uri);
    }
  }
}
