/** The resource registry's cache (server/registry.go:63-210, 234-243): readers look an entry up, and then
    check its cache, take a permit, call the entry's handler, and store the content into the entry that is
    registered by then. Other readers and registration changes run between any two of these. Entries are
    numbered: the number is the reference that a reader keeps. */
module ResourceCache {
  import opened Wrappers

  /** Content, marked with the handler that produced it. */
  datatype Content = Content(text: string, source: nat)

  datatype Cached = Cached(content: Content, timestamp: nat, ttl: nat)

  datatype Entry = Entry(uri: string, handler: nat, accessCount: nat, cache: Option<Cached>)

  datatype Phase =
    | Looked                                    // has the entry
    | Missed                                    // waits for a permit
    | Hit(content: Content, age: nat)           // returns cached content
    | Holding                                   // has a permit
    | Fetched(content: Content)                 // the handler has returned
    | Stored(content: Content)                  // the cache is written
    | Closing(result: Result<Content, string>)  // gives the permit back

  datatype Reader = Reader(uri: string, entry: nat, phase: Phase)

  datatype Return = Return(uri: string, result: Result<Content, string>, hitAge: Option<nat>)

  datatype State = State(
    max: nat,
    timeout: nat,
    now: nat,
    entries: seq<Entry>,
    resources: map<string, nat>,
    readers: map<nat, Reader>,
    permits: nat,
    registered: set<(string, nat)>,   // history: the handlers that were registered, and where
    returned: seq<Return>)             // history: what reads returned

  datatype Step =
    | Register(uri: string, handler: nat) | Unregister(uri: string)
    | Lookup(reader: nat, uri: string) | CheckCache(reader: nat) | Acquire(reader: nat) | GiveUp(reader: nat)
    | Run(reader: nat, outcome: Result<string, string>) | Store(reader: nat) | CountAccess(reader: nat)
    | Release(reader: nat) | Tick

  function Init(max: nat, timeout: nat): State {
    State(max, timeout, 0, [], map[], map[], max, {}, [])
  }

  predicate InPhase(s: State, id: nat, p: Phase) {
    id in s.readers && s.readers[id].phase == p
  }

  predicate Enabled(s: State, step: Step) {
    match step
    case Register(_, _) => true
    case Unregister(_) => true
    case Lookup(id, _) => id !in s.readers
    case CheckCache(id) => InPhase(s, id, Looked)
    case Acquire(id) => InPhase(s, id, Missed) && s.permits > 0
    case GiveUp(id) => InPhase(s, id, Missed)
    case Run(id, _) => InPhase(s, id, Holding)
    case Store(id) => id in s.readers && s.readers[id].phase.Fetched?
    case CountAccess(id) => id in s.readers && (s.readers[id].phase.Hit? || s.readers[id].phase.Stored?)
    case Release(id) => id in s.readers && s.readers[id].phase.Closing?
    case Tick => true
  }

  function EntryAt(s: State, e: nat): Entry {
    if e < |s.entries| then s.entries[e] else Entry("", 0, 0, None)
  }

  function SetPhase(s: State, id: nat, p: Phase): State
    requires id in s.readers
  {
    s.(readers := s.readers[id := s.readers[id].(phase := p)])
  }

  function SetEntry(s: State, e: nat, entry: Entry): State {
    if e < |s.entries| then s.(entries := s.entries[e := entry]) else s
  }

  function RegisterStep(s: State, uri: string, handler: nat): State {
    s.(entries := s.entries + [Entry(uri, handler, 0, None)], resources := s.resources[uri := |s.entries|],
       registered := s.registered + {(uri, handler)})
  }

  /** A read of an unknown URI returns at once. */
  function LookupStep(s: State, id: nat, uri: string): State {
    if uri in s.resources then s.(readers := s.readers[id := Reader(uri, s.resources[uri], Looked)])
    else s.(returned := s.returned + [Return(uri, Err("resource not found: " + uri), None)])
  }

  /** The cache of the reader's own entry, which need not be the registered one any more. */
  function CheckStep(s: State, id: nat): State
    requires id in s.readers
  {
    var c := EntryAt(s, s.readers[id].entry).cache;
    if c.Some? && s.now - c.value.timestamp < c.value.ttl
    then SetPhase(s, id, Hit(c.value.content, if s.now < c.value.timestamp then 0 else s.now - c.value.timestamp))
    else SetPhase(s, id, Missed)
  }

  /** The handler of the reader's own entry runs. */
  function RunStep(s: State, id: nat, outcome: Result<string, string>): State
    requires id in s.readers
  {
    match outcome
    case Ok(text) => SetPhase(s, id, Fetched(Content(text, EntryAt(s, s.readers[id].entry).handler)))
    case Err(e) => SetPhase(s, id, Closing(Err(e)))
  }

  /** The content goes into the entry that is registered now. */
  function StoreStep(s: State, id: nat): State
    requires id in s.readers && s.readers[id].phase.Fetched?
  {
    var r := s.readers[id];
    var t := SetPhase(s, id, Stored(r.phase.content));
    if r.uri !in s.resources then t
    else
      var e := s.resources[r.uri];
      SetEntry(t, e, EntryAt(s, e).(cache := Some(Cached(r.phase.content, s.now, s.timeout))))
  }

  function WithAccess(s: State, uri: string): State {
    if uri !in s.resources then s
    else
      var e := s.resources[uri];
      SetEntry(s, e, EntryAt(s, e).(accessCount := EntryAt(s, e).accessCount + 1))
  }

  function Finish(s: State, id: nat, ret: Return): State {
    s.(readers := s.readers - {id}, returned := s.returned + [ret])
  }

  function AccessStep(s: State, id: nat): State
    requires id in s.readers && (s.readers[id].phase.Hit? || s.readers[id].phase.Stored?)
  {
    var r := s.readers[id];
    var t := WithAccess(s, r.uri);
    match r.phase
    case Hit(content, age) => Finish(t, id, Return(r.uri, Ok(content), Some(age)))
    case Stored(content) => SetPhase(t, id, Closing(Ok(content)))
  }

  function ReleaseStep(s: State, id: nat): State
    requires id in s.readers && s.readers[id].phase.Closing?
  {
    Finish(s.(permits := s.permits + 1), id, Return(s.readers[id].uri, s.readers[id].phase.result, None))
  }

  function Apply(s: State, step: Step): State
    requires Enabled(s, step)
  {
    match step
    case Register(uri, handler) => RegisterStep(s, uri, handler)
    case Unregister(uri) => s.(resources := s.resources - {uri})
    case Lookup(id, uri) => LookupStep(s, id, uri)
    case CheckCache(id) => CheckStep(s, id)
    case Acquire(id) => SetPhase(s, id, Holding).(permits := s.permits - 1)
    case GiveUp(id) => Finish(s, id, Return(s.readers[id].uri, Err("context canceled"), None))
    case Run(id, outcome) => RunStep(s, id, outcome)
    case Store(id) => StoreStep(s, id)
    case CountAccess(id) => AccessStep(s, id)
    case Release(id) => ReleaseStep(s, id)
    case Tick => s.(now := s.now + 1)
  }

  predicate Valid(s: State, steps: seq<Step>)
    decreases |steps|
  {
    steps == [] || (Enabled(s, steps[0]) && Valid(Apply(s, steps[0]), steps[1..]))
  }

  function Exec(s: State, steps: seq<Step>): State
    requires Valid(s, steps)
    decreases |steps|
  {
    if steps == [] then s else Exec(Apply(s, steps[0]), steps[1..])
  }

  // ---- The invariant ----

  predicate HasPermit(p: Phase) {
    p.Holding? || p.Fetched? || p.Stored? || p.Closing?
  }

  function Holders(readers: map<nat, Reader>): set<nat> {
    set id | id in readers && HasPermit(readers[id].phase)
  }

  /** Content that a handler registered at the URI produced. */
  predicate From(s: State, uri: string, c: Content) {
    (uri, c.source) in s.registered
  }

  predicate EntryOk(s: State, e: Entry) {
    && (e.uri, e.handler) in s.registered
    && (e.cache.Some? ==> From(s, e.uri, e.cache.value.content) && e.cache.value.ttl == s.timeout
                          && e.cache.value.timestamp <= s.now)
  }

  predicate ReaderOk(s: State, r: Reader) {
    && r.entry < |s.entries| && s.entries[r.entry].uri == r.uri
    && (r.phase.Hit? ==> From(s, r.uri, r.phase.content) && r.phase.age < s.timeout)
    && (r.phase.Fetched? ==> r.phase.content.source == s.entries[r.entry].handler)
    && (r.phase.Fetched? || r.phase.Stored? ==> From(s, r.uri, r.phase.content))
    && (r.phase.Closing? && r.phase.result.Ok? ==> From(s, r.uri, r.phase.result.value))
  }

  predicate ReturnOk(s: State, r: Return) {
    && (r.result.Ok? ==> From(s, r.uri, r.result.value))
    && (r.hitAge.Some? ==> r.hitAge.value < s.timeout)
  }

  predicate Inv(s: State) {
    && (forall e :: 0 <= e < |s.entries| ==> EntryOk(s, s.entries[e]))
    && (forall u :: u in s.resources ==> s.resources[u] < |s.entries| && s.entries[s.resources[u]].uri == u)
    && (forall id :: id in s.readers ==> ReaderOk(s, s.readers[id]))
    && (forall r :: r in s.returned ==> ReturnOk(s, r))
    && s.permits + |Holders(s.readers)| == s.max
  }

  /** What was fine stays fine when handlers and entries are only added and entries keep their URI. */
  predicate Grows(s: State, t: State) {
    && s.registered <= t.registered && t.timeout == s.timeout && s.now <= t.now
    && |s.entries| <= |t.entries| && (forall e :: 0 <= e < |s.entries| ==>
          t.entries[e].uri == s.entries[e].uri && t.entries[e].handler == s.entries[e].handler)
  }

  lemma {:induction false} HoldersSet(readers: map<nat, Reader>, id: nat, r: Reader)
    ensures Holders(readers[id := r]) == if HasPermit(r.phase) then Holders(readers) + {id} else Holders(readers) - {id}
    ensures Holders(readers - {id}) == Holders(readers) - {id}
  {
  }

  /** How many hold a permit after one reader changes. */
  lemma {:induction false} HoldersCount(readers: map<nat, Reader>, id: nat, r: Reader)
    requires id in readers
    ensures |Holders(readers[id := r])| - |Holders(readers)|
         == (if HasPermit(r.phase) then 1 else 0) - (if HasPermit(readers[id].phase) then 1 else 0)
    ensures |Holders(readers - {id})| == |Holders(readers)| - (if HasPermit(readers[id].phase) then 1 else 0)
  {
    HoldersSet(readers, id, r);
  }

  lemma {:induction false} ReadersGrow(s: State, t: State, id: nat)
    requires Inv(s) && Grows(s, t) && id in s.readers
    ensures ReaderOk(t, s.readers[id])
  {
    assert ReaderOk(s, s.readers[id]);
  }

  lemma {:induction false} ReturnsGrow(s: State, t: State, r: Return)
    requires Inv(s) && Grows(s, t) && r in s.returned
    ensures ReturnOk(t, r)
  {
    assert ReturnOk(s, r);
  }

  /** A step that changes no entry and one reader. */
  lemma {:induction false} PhaseKeepsInv(s: State, t: State, id: nat, p: Phase)
    requires Inv(s) && id in s.readers && t == SetPhase(s, id, p).(permits := t.permits)
    requires ReaderOk(s, s.readers[id].(phase := p))
    requires t.permits + (if HasPermit(p) then 1 else 0) == s.permits + (if HasPermit(s.readers[id].phase) then 1 else 0)
    ensures Inv(t)
  {
    HoldersCount(s.readers, id, s.readers[id].(phase := p));
    forall e | 0 <= e < |t.entries| ensures EntryOk(t, t.entries[e]) {
      assert EntryOk(s, s.entries[e]);
    }
    forall i | i in t.readers ensures ReaderOk(t, t.readers[i]) {
      if i != id {
        ReadersGrow(s, t, i);
      }
    }
    forall r | r in t.returned ensures ReturnOk(t, r) {
      ReturnsGrow(s, t, r);
    }
  }

  /** A reader that is done. */
  lemma {:induction false} FinishKeepsInv(s: State, t: State, id: nat, ret: Return)
    requires Inv(s) && id in s.readers && t == Finish(s.(permits := t.permits), id, ret) && ReturnOk(s, ret)
    requires t.permits == s.permits + (if HasPermit(s.readers[id].phase) then 1 else 0)
    ensures Inv(t)
  {
    HoldersCount(s.readers, id, s.readers[id]);
    forall e | 0 <= e < |t.entries| ensures EntryOk(t, t.entries[e]) {
      assert EntryOk(s, s.entries[e]);
    }
    forall i | i in t.readers ensures ReaderOk(t, t.readers[i]) {
      ReadersGrow(s, t, i);
    }
    forall r | r in t.returned ensures ReturnOk(t, r) {
      if r in s.returned {
        ReturnsGrow(s, t, r);
      }
    }
  }

  /** A change of one entry that keeps its URI and handler. */
  lemma {:induction false} EntryKeepsInv(s: State, e: nat, entry: Entry)
    requires Inv(s) && e < |s.entries| && EntryOk(s, entry)
    requires entry.uri == s.entries[e].uri && entry.handler == s.entries[e].handler
    ensures Inv(SetEntry(s, e, entry))
  {
    var t := SetEntry(s, e, entry);
    forall i | 0 <= i < |t.entries| ensures EntryOk(t, t.entries[i]) {
      assert EntryOk(s, s.entries[i]);
    }
    forall i | i in t.readers ensures ReaderOk(t, t.readers[i]) {
      ReadersGrow(s, t, i);
    }
    forall r | r in t.returned ensures ReturnOk(t, r) {
      ReturnsGrow(s, t, r);
    }
  }

  lemma {:induction false} RegisterKeepsInv(s: State, uri: string, handler: nat)
    requires Inv(s)
    ensures Inv(RegisterStep(s, uri, handler))
  {
    var t := RegisterStep(s, uri, handler);
    forall e | 0 <= e < |t.entries| ensures EntryOk(t, t.entries[e]) {
      if e < |s.entries| {
        assert EntryOk(s, s.entries[e]);
      }
    }
    forall i | i in t.readers ensures ReaderOk(t, t.readers[i]) {
      ReadersGrow(s, t, i);
    }
    forall r | r in t.returned ensures ReturnOk(t, r) {
      ReturnsGrow(s, t, r);
    }
  }

  /** A step that leaves entries, readers and permits alone. */
  lemma {:induction false} QuietKeepsInv(s: State, t: State)
    requires Inv(s) && t == s.(now := t.now, resources := t.resources, returned := t.returned) && s.now <= t.now
    requires forall u :: u in t.resources ==> u in s.resources && t.resources[u] == s.resources[u]
    requires forall r :: r in t.returned ==> r in s.returned || ReturnOk(t, r)
    ensures Inv(t)
  {
    forall e | 0 <= e < |t.entries| ensures EntryOk(t, t.entries[e]) {
      assert EntryOk(s, s.entries[e]);
    }
    forall i | i in t.readers ensures ReaderOk(t, t.readers[i]) {
      ReadersGrow(s, t, i);
    }
    forall r | r in t.returned ensures ReturnOk(t, r) {
      if r in s.returned {
        ReturnsGrow(s, t, r);
      }
    }
  }

  lemma {:induction false} LookupKeepsInv(s: State, id: nat, uri: string)
    requires Inv(s) && id !in s.readers
    ensures Inv(LookupStep(s, id, uri))
  {
    var t := LookupStep(s, id, uri);
    if uri !in s.resources {
      QuietKeepsInv(s, t);
    } else {
      HoldersSet(s.readers, id, t.readers[id]);
      forall e | 0 <= e < |t.entries| ensures EntryOk(t, t.entries[e]) {
        assert EntryOk(s, s.entries[e]);
      }
      forall i | i in t.readers ensures ReaderOk(t, t.readers[i]) {
        if i != id {
          ReadersGrow(s, t, i);
        }
      }
      forall r | r in t.returned ensures ReturnOk(t, r) {
        ReturnsGrow(s, t, r);
      }
    }
  }

  lemma {:induction false} CheckKeepsInv(s: State, id: nat)
    requires Inv(s) && InPhase(s, id, Looked)
    ensures Inv(CheckStep(s, id))
  {
    var r := s.readers[id];
    assert ReaderOk(s, r);
    assert EntryOk(s, s.entries[r.entry]);
    PhaseKeepsInv(s, CheckStep(s, id), id, CheckStep(s, id).readers[id].phase);
  }

  lemma {:induction false} RunKeepsReader(s: State, id: nat, outcome: Result<string, string>)
    requires Inv(s) && InPhase(s, id, Holding)
    ensures Inv(RunStep(s, id, outcome))
  {
    var r := s.readers[id];
    assert ReaderOk(s, r);
    assert EntryOk(s, s.entries[r.entry]);
    PhaseKeepsInv(s, RunStep(s, id, outcome), id, RunStep(s, id, outcome).readers[id].phase);
  }

  lemma {:induction false} StoreKeepsInv(s: State, id: nat)
    requires Inv(s) && id in s.readers && s.readers[id].phase.Fetched?
    ensures Inv(StoreStep(s, id))
  {
    var r := s.readers[id];
    assert ReaderOk(s, r);
    var t := SetPhase(s, id, Stored(r.phase.content));
    PhaseKeepsInv(s, t, id, Stored(r.phase.content));
    if r.uri in s.resources {
      var e := s.resources[r.uri];
      assert EntryOk(s, s.entries[e]);
      EntryKeepsInv(t, e, s.entries[e].(cache := Some(Cached(r.phase.content, s.now, s.timeout))));
    }
  }

  lemma {:induction false} AccessKeepsEntries(s: State, uri: string)
    requires Inv(s)
    ensures Inv(WithAccess(s, uri)) && WithAccess(s, uri).readers == s.readers
  {
    if uri in s.resources {
      var e := s.resources[uri];
      assert EntryOk(s, s.entries[e]);
      EntryKeepsInv(s, e, s.entries[e].(accessCount := s.entries[e].accessCount + 1));
    }
  }

  lemma {:induction false} AccessKeepsInv(s: State, id: nat)
    requires Inv(s) && id in s.readers && (s.readers[id].phase.Hit? || s.readers[id].phase.Stored?)
    ensures Inv(AccessStep(s, id))
  {
    var r := s.readers[id];
    var t := WithAccess(s, r.uri);
    AccessKeepsEntries(s, r.uri);
    assert ReaderOk(t, r);
    match r.phase
    case Hit(content, age) => FinishKeepsInv(t, AccessStep(s, id), id, Return(r.uri, Ok(content), Some(age)));
    case Stored(content) => PhaseKeepsInv(t, AccessStep(s, id), id, Closing(Ok(content)));
  }

  lemma {:induction false} StepKeepsInv(s: State, step: Step)
    requires Inv(s) && Enabled(s, step)
    ensures Inv(Apply(s, step))
  {
    var t := Apply(s, step);
    match step
    case Register(uri, handler) => RegisterKeepsInv(s, uri, handler);
    case Unregister(_) => QuietKeepsInv(s, t);
    case Lookup(id, uri) => LookupKeepsInv(s, id, uri);
    case CheckCache(id) => CheckKeepsInv(s, id);
    case Acquire(id) =>
      assert ReaderOk(s, s.readers[id]);
      PhaseKeepsInv(s, t, id, Holding);
    case GiveUp(id) => FinishKeepsInv(s, t, id, Return(s.readers[id].uri, Err("context canceled"), None));
    case Run(id, outcome) => RunKeepsReader(s, id, outcome);
    case Store(id) => StoreKeepsInv(s, id);
    case CountAccess(id) => AccessKeepsInv(s, id);
    case Release(id) =>
      assert ReaderOk(s, s.readers[id]);
      FinishKeepsInv(s, t, id, Return(s.readers[id].uri, s.readers[id].phase.result, None));
    case Tick => QuietKeepsInv(s, t);
  }

  lemma {:induction false} RunKeepsInv(s: State, steps: seq<Step>)
    requires Inv(s) && Valid(s, steps)
    ensures Inv(Exec(s, steps)) && Exec(s, steps).max == s.max && Exec(s, steps).timeout == s.timeout
    decreases |steps|
  {
    if steps != [] {
      StepKeepsInv(s, steps[0]);
      RunKeepsInv(Apply(s, steps[0]), steps[1..]);
    }
  }

  /** In every run the permits and the readers that hold one make the maximum; everything a read returned
      was produced by a handler that was registered at its URI; and cached content was younger than the
      timeout when it was taken. */
  lemma {:induction false} Provenance(max: nat, timeout: nat, steps: seq<Step>)
    requires Valid(Init(max, timeout), steps)
    ensures var t := Exec(Init(max, timeout), steps);
            && t.permits + |Holders(t.readers)| == max
            && (forall r :: r in t.returned && r.result.Ok? ==> (r.uri, r.result.value.source) in t.registered)
            && (forall r :: r in t.returned && r.hitAge.Some? ==> r.hitAge.value < timeout)
  {
    assert Holders(map[]) == {};
    RunKeepsInv(Init(max, timeout), steps);
    var t := Exec(Init(max, timeout), steps);
    forall r | r in t.returned ensures ReturnOk(t, r) {
    }
  }

  // ---- When the cache is current ----

  /** Cached content came from the entry's own handler. */
  predicate CacheCurrent(e: Entry) {
    e.cache.Some? ==> e.cache.value.content.source == e.handler
  }

  predicate AllCurrent(s: State) {
    forall e :: 0 <= e < |s.entries| ==> CacheCurrent(s.entries[e])
  }

  /** Storing keeps the caches current exactly when the entry registered by then has the reader's handler. */
  lemma {:induction false} StoreIsCurrentIff(s: State, id: nat)
    requires Inv(s) && AllCurrent(s) && Enabled(s, Store(id))
    ensures var r := s.readers[id];
            AllCurrent(StoreStep(s, id)) <==>
            (r.uri in s.resources ==> EntryAt(s, s.resources[r.uri]).handler == EntryAt(s, r.entry).handler)
  {
    var r := s.readers[id];
    var t := StoreStep(s, id);
    assert ReaderOk(s, r);
    if r.uri in s.resources {
      var e := s.resources[r.uri];
      assert t.entries[e] == s.entries[e].(cache := Some(Cached(r.phase.content, s.now, s.timeout)));
      if s.entries[e].handler == s.entries[r.entry].handler {
        forall i | 0 <= i < |t.entries| ensures CacheCurrent(t.entries[i]) {
          assert CacheCurrent(s.entries[i]);
        }
      } else {
        assert !CacheCurrent(t.entries[e]);
      }
    }
  }

  /** The registration of a URI does not change while a read of it is under way. */
  predicate Undisturbed(s: State, step: Step) {
    (step.Register? || step.Unregister?) ==> forall id :: id in s.readers ==> s.readers[id].uri != step.uri
  }

  predicate UndisturbedRun(s: State, steps: seq<Step>)
    requires Valid(s, steps)
    decreases |steps|
  {
    steps == [] || (Undisturbed(s, steps[0]) && UndisturbedRun(Apply(s, steps[0]), steps[1..]))
  }

  predicate ReadersCurrent(s: State) {
    forall id :: id in s.readers ==> s.readers[id].uri in s.resources && s.resources[s.readers[id].uri] == s.readers[id].entry
  }

  lemma {:induction false} StepKeepsReaders(s: State, step: Step)
    requires Inv(s) && Enabled(s, step) && Undisturbed(s, step) && ReadersCurrent(s)
    ensures ReadersCurrent(Apply(s, step))
  {
  }

  lemma {:induction false} StepKeepsCurrent(s: State, step: Step)
    requires Inv(s) && Enabled(s, step) && ReadersCurrent(s) && AllCurrent(s)
    ensures AllCurrent(Apply(s, step))
  {
    if step.Store? {
      StoreIsCurrentIff(s, step.reader);
    } else {
      var t := Apply(s, step);
      forall e | 0 <= e < |t.entries| ensures CacheCurrent(t.entries[e]) {
        assert e < |s.entries| ==> CacheCurrent(s.entries[e]) && t.entries[e].cache == s.entries[e].cache
                                   && t.entries[e].handler == s.entries[e].handler;
      }
    }
  }

  /** If no read spans a change of its URI's registration, cached content always came from the handler
      that is registered. */
  lemma {:induction false} UndisturbedIsCurrent(s: State, steps: seq<Step>)
    requires Inv(s) && ReadersCurrent(s) && AllCurrent(s) && Valid(s, steps) && UndisturbedRun(s, steps)
    ensures AllCurrent(Exec(s, steps))
    decreases |steps|
  {
    if steps != [] {
      StepKeepsInv(s, steps[0]);
      StepKeepsReaders(s, steps[0]);
      StepKeepsCurrent(s, steps[0]);
      UndisturbedIsCurrent(Apply(s, steps[0]), steps[1..]);
    }
  }

  lemma {:induction false} OneStep(s: State, step: Step, rest: seq<Step>)
    requires Enabled(s, step) && Valid(Apply(s, step), rest)
    ensures Valid(s, [step] + rest) && Exec(s, [step] + rest) == Exec(Apply(s, step), rest)
  {
    assert ([step] + rest)[1..] == rest;
  }

  /** A read that spans a re-registration: the old handler's content is cached under the new handler and
      the next read is given it. */
  lemma {:induction false} SpanningReadGoesStale(s: State, id: nat, next: nat, handler: nat, text: string)
    requires Inv(s) && InPhase(s, id, Holding) && next !in s.readers && s.timeout > 0
    ensures var uri := s.readers[id].uri;
            var steps := [Run(id, Ok(text)), Register(uri, handler), Store(id), Lookup(next, uri), CheckCache(next)];
            Valid(s, steps)
            && (var t := Exec(s, steps);
                uri in t.resources && EntryAt(t, t.resources[uri]).handler == handler
                && InPhase(t, next, Hit(Content(text, EntryAt(s, s.readers[id].entry).handler), 0)))
  {
    var uri := s.readers[id].uri;
    var content := Content(text, EntryAt(s, s.readers[id].entry).handler);
    var s1 := Apply(s, Run(id, Ok(text)));
    var s2 := Apply(s1, Register(uri, handler));
    var s3 := Apply(s2, Store(id));
    assert s3.entries[|s.entries|] == Entry(uri, handler, 0, Some(Cached(content, s.now, s.timeout)));
    var s4 := Apply(s3, Lookup(next, uri));
    var s5 := Apply(s4, CheckCache(next));
    assert s5.readers[next].phase == Hit(content, 0);
    OneStep(s4, CheckCache(next), []);
    OneStep(s3, Lookup(next, uri), [CheckCache(next)]);
    OneStep(s2, Store(id), [Lookup(next, uri), CheckCache(next)]);
    OneStep(s1, Register(uri, handler), [Store(id), Lookup(next, uri), CheckCache(next)]);
    OneStep(s, Run(id, Ok(text)), [Register(uri, handler), Store(id), Lookup(next, uri), CheckCache(next)]);
  }

  // ---- The registry ----

  /** The registry. Entries are kept in the order of their creation; a reader keeps the index of its entry as
      a reference, and entries are updated in place. */
  class ResourceRegistry {
    const maxConcurrentReads: nat
    const cacheTimeout: nat
    var now: nat
    var entries: seq<Entry>
    var resources: map<string, nat>
    var readers: map<nat, Reader>
    var workerPool: nat
    ghost var registered: set<(string, nat)>
    var returned: seq<Return>

    ghost function View(): State
      reads this
    {
      State(maxConcurrentReads, cacheTimeout, now, entries, resources, readers, workerPool, registered, returned)
    }

    /** Every reference is to an entry. */
    ghost predicate Linked()
      reads this
    {
      && (forall u :: u in resources ==> resources[u] < |entries|)
      && (forall id :: id in readers ==> readers[id].entry < |entries|)
    }

    constructor (maxReads: nat, timeout: nat)
      ensures Linked()
      ensures View() == Init(if maxReads == 0 then 50 else maxReads, if timeout == 0 then 300_000_000_000 else timeout)
    {
      maxConcurrentReads := if maxReads == 0 then 50 else maxReads;
      cacheTimeout := if timeout == 0 then 300_000_000_000 else timeout;
      now, entries, resources, readers, workerPool, registered, returned := 0, [], map[], map[], 0, {}, [];
      new;
      for i := 0 to maxConcurrentReads
        invariant workerPool == i && Linked()
        invariant View() == Init(maxConcurrentReads, cacheTimeout).(permits := i)
      {
        workerPool := workerPool + 1;
      }
    }

    method RegisterResource(uri: string, handler: nat)
      requires Linked()
      modifies `entries, `resources, `registered
      ensures Linked() && View() == RegisterStep(old(View()), uri, handler)
    {
      resources := resources[uri := |entries|];
      entries := entries + [Entry(uri, handler, 0, None)];
      registered := registered + {(uri, handler)};
    }

    method UnregisterResource(uri: string) returns (ok: bool)
      requires Linked()
      modifies `resources
      ensures Linked() && ok == (uri in old(resources)) && View() == Apply(old(View()), Unregister(uri))
    {
      ok := uri in resources;
      resources := resources - {uri};
    }

    method ReadLookup(id: nat, uri: string)
      requires Linked() && id !in readers
      modifies `readers, `returned
      ensures Linked() && View() == LookupStep(old(View()), id, uri)
    {
      if uri !in resources {
        returned := returned + [Return(uri, Err("resource not found: " + uri), None)];
        return;
      }
      readers := readers[id := Reader(uri, resources[uri], Looked)];
    }

    method ReadCheckCache(id: nat)
      requires Linked() && id in readers && readers[id].phase == Looked
      modifies `readers
      ensures Linked() && View() == CheckStep(old(View()), id)
    {
      var entry := entries[readers[id].entry];
      if entry.cache.Some? && now - entry.cache.value.timestamp < entry.cache.value.ttl {
        var age := if now < entry.cache.value.timestamp then 0 else now - entry.cache.value.timestamp;
        readers := readers[id := readers[id].(phase := Hit(entry.cache.value.content, age))];
      } else {
        readers := readers[id := readers[id].(phase := Missed)];
      }
    }

    method ReadAcquire(id: nat)
      requires Linked() && id in readers && readers[id].phase == Missed && workerPool > 0
      modifies `readers, `workerPool
      ensures Linked() && View() == Apply(old(View()), Acquire(id))
    {
      workerPool := workerPool - 1;
      readers := readers[id := readers[id].(phase := Holding)];
    }

    /** The handler call: `outcome` is what the handler of the reader's entry returns. */
    method ReadRun(id: nat, outcome: Result<string, string>)
      requires Linked() && id in readers && readers[id].phase == Holding
      modifies `readers
      ensures Linked() && View() == RunStep(old(View()), id, outcome)
    {
      var handler := entries[readers[id].entry].handler;
      if outcome.Err? {
        readers := readers[id := readers[id].(phase := Closing(Err(outcome.error)))];
      } else {
        readers := readers[id := readers[id].(phase := Fetched(Content(outcome.value, handler)))];
      }
    }

    /** The cache update: the entry is fetched again under the lock. */
    method ReadStore(id: nat)
      requires Linked() && id in readers && readers[id].phase.Fetched?
      modifies `readers, `entries
      ensures Linked() && View() == StoreStep(old(View()), id)
    {
      var content := readers[id].phase.content;
      if readers[id].uri in resources {
        var e := resources[readers[id].uri];
        entries := entries[e := entries[e].(cache := Some(Cached(content, now, cacheTimeout)))];
      }
      readers := readers[id := readers[id].(phase := Stored(content))];
    }

    method UpdateAccessStats(uri: string)
      requires Linked()
      modifies `entries
      ensures Linked() && View() == WithAccess(old(View()), uri)
    {
      if uri in resources {
        var e := resources[uri];
        entries := entries[e := entries[e].(accessCount := entries[e].accessCount + 1)];
      }
    }

    method ReadCountAccess(id: nat)
      requires Linked() && id in readers && (readers[id].phase.Hit? || readers[id].phase.Stored?)
      modifies `readers, `entries, `returned
      ensures Linked() && View() == AccessStep(old(View()), id)
      ensures match old(readers[id].phase)
              case Hit(content, age) => returned == old(returned) + [Return(old(readers[id].uri), Ok(content), Some(age))]
              case Stored(content) => returned == old(returned) && id in readers && readers[id].phase == Closing(Ok(content))
              case _ => true
    {
      var r := readers[id];
      UpdateAccessStats(r.uri);
      if r.phase.Hit? {
        readers := readers - {id};
        returned := returned + [Return(r.uri, Ok(r.phase.content), Some(r.phase.age))];
      } else {
        readers := readers[id := r.(phase := Closing(Ok(r.phase.content)))];
      }
    }

    /** The deferred send that gives the permit back. */
    method ReadRelease(id: nat)
      requires Linked() && id in readers && readers[id].phase.Closing?
      modifies `readers, `workerPool, `returned
      ensures Linked() && View() == ReleaseStep(old(View()), id)
    {
      var r := readers[id];
      workerPool := workerPool + 1;
      readers := readers - {id};
      returned := returned + [Return(r.uri, r.phase.result, None)];
    }
  }
}
