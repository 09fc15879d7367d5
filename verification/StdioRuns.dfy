/** What a run of the stdio transport delivers, told by the lines that its scanner read and the messages
    that were sent: which kind a message is of follows from its method and id alone. */
module StdioRuns {
  import opened Text
  import opened Stdio

  /** A request has a method and an id, a notification a method and no id, a response an id and no method. */
  predicate Wants(k: Kind, m: Message) {
    match k
    case Request => m.methodName != "" && m.hasId
    case Notification => m.methodName != "" && !m.hasId
    case Response => m.methodName == "" && m.hasId
    case Nothing => m.methodName == "" && !m.hasId
  }

  /** The messages of one kind among some lines, in order. */
  function Chosen(k: Kind, lines: seq<Line>): (ms: seq<Message>)
    ensures forall m :: m in ms <==> Parsed(m) in lines && Wants(k, m)
  {
    if lines == [] then []
    else
      var first := if lines[0].Parsed? && Wants(k, lines[0].msg) then [lines[0].msg] else [];
      var later := Chosen(k, lines[1..]);
      assert forall l :: l in lines <==> l == lines[0] || l in lines[1..];
      first + later
  }

  lemma {:induction false} PickIsChosen(k: Kind, lines: seq<Line>)
    requires k != Nothing
    ensures Pick(k, lines) == Chosen(k, lines)
    decreases |lines|
  {
    if lines != [] {
      PickIsChosen(k, lines[1..]);
    }
  }

  // ---- What the steps read and sent ----

  function Scanned(steps: seq<Step>): seq<Line> {
    if steps == [] then []
    else (if steps[0].Scan? && !steps[0].line.Empty? then [steps[0].line] else []) + Scanned(steps[1..])
  }

  function SentOut(steps: seq<Step>): seq<Message> {
    if steps == [] then [] else (if steps[0].SendOut? then [steps[0].msg] else []) + SentOut(steps[1..])
  }

  lemma {:induction false} StepHistory(s: State, step: Step)
    requires Enabled(s, step)
    ensures var t := Apply(s, step);
            && t.read == s.read + (if step.Scan? && !step.line.Empty? then [step.line] else [])
            && t.sent == s.sent + (if step.SendOut? then [step.msg] else [])
  {
  }

  lemma {:induction false} RunHistory(s: State, steps: seq<Step>)
    requires Valid(s, steps)
    ensures Exec(s, steps).read == s.read + Scanned(steps) && Exec(s, steps).sent == s.sent + SentOut(steps)
    decreases |steps|
  {
    if steps != [] {
      var step := steps[0];
      StepHistory(s, step);
      RunHistory(Apply(s, step), steps[1..]);
      Assoc(s.read, if step.Scan? && !step.line.Empty? then [step.line] else [], Scanned(steps[1..]));
      Assoc(s.sent, if step.SendOut? then [step.msg] else [], SentOut(steps[1..]));
    }
  }

  // ---- Malformed lines ----

  function Malformeds(lines: seq<Line>): nat {
    if lines == [] then 0 else (if lines[0].Malformed? then 1 else 0) + Malformeds(lines[1..])
  }

  lemma {:induction false} MalformedConcat(a: seq<Line>, b: seq<Line>)
    ensures Malformeds(a + b) == Malformeds(a) + Malformeds(b)
  {
    if a == [] {
      EmptyPlus(b);
    } else {
      assert (a + b)[1..] == a[1..] + b;
      MalformedConcat(a[1..], b);
    }
  }

  lemma {:induction false} MalformedCut(q: seq<Line>)
    requires q != []
    ensures Malformeds(q[..1]) + Malformeds(q[1..]) == Malformeds(q)
  {
    Cut(q, 1);
    MalformedConcat(q[..1], q[1..]);
  }

  lemma {:induction false} MalformedOne(l: Line)
    ensures Malformeds([l]) == if l.Malformed? then 1 else 0
  {
    assert [l][1..] == [];
  }

  function OnTheWay(s: State): nat {
    Malformeds(s.parseHand) + Malformeds(s.handlerIncoming) + Malformeds(s.bridgeHand) + Malformeds(s.incoming)
    + Malformeds(s.readHand) + Malformeds(s.scanHand)
  }

  lemma {:induction false} UnroutedMalformed(s: State)
    ensures Malformeds(Unrouted(s)) == OnTheWay(s)
  {
    MalformedConcat(s.readHand, s.scanHand);
    MalformedConcat(s.incoming, s.readHand + s.scanHand);
    MalformedConcat(s.bridgeHand, s.incoming + (s.readHand + s.scanHand));
    MalformedConcat(s.handlerIncoming, s.bridgeHand + (s.incoming + (s.readHand + s.scanHand)));
    MalformedConcat(s.parseHand, s.handlerIncoming + (s.bridgeHand + (s.incoming + (s.readHand + s.scanHand))));
  }

  /** No empty line is read, and a line that is no message is counted when it is parsed. */
  predicate Counted(s: State) {
    && s.errors + OnTheWay(s) == Malformeds(s.read)
    && Empty !in s.scanHand + s.readHand + s.incoming + s.bridgeHand + s.handlerIncoming
  }

  lemma {:induction false} ScanCounted(s: State, line: Line)
    requires Enabled(s, Scan(line)) && Counted(s)
    ensures Counted(Apply(s, Scan(line)))
  {
    MalformedConcat(s.read, [line]);
    MalformedOne(line);
  }

  lemma {:induction false} ParseCounted(s: State)
    requires Inv(s) && Enabled(s, Parse) && Counted(s)
    ensures Counted(Apply(s, Parse))
  {
    MalformedOne(s.handlerIncoming[0]);
    assert s.handlerIncoming[0] != Empty;
  }

  lemma {:induction false} DispatchCounted(s: State)
    requires Inv(s) && Enabled(s, Dispatch) && Counted(s)
    ensures Counted(Apply(s, Dispatch))
  {
    assert s.parseHand == [s.parseHand[0]];
    MalformedOne(s.parseHand[0]);
  }

  lemma {:induction false} ReceiveCounted(s: State, step: Step)
    requires Enabled(s, step) && Counted(s) && (step == ReadReceive || step == BridgeReceive)
    ensures Counted(Apply(s, step))
  {
    MalformedCut(if step == ReadReceive then s.scanHand else s.incoming);
  }

  lemma {:induction false} SendCounted(s: State, step: Step)
    requires Enabled(s, step) && Counted(s) && (step == ReadSend || step == BridgeSend)
    ensures Counted(Apply(s, step))
  {
    if step == ReadSend {
      MalformedConcat(s.incoming, s.readHand);
    } else {
      MalformedConcat(s.handlerIncoming, s.bridgeHand);
    }
  }

  lemma {:induction false} OutsideCounted(s: State, step: Step)
    requires Enabled(s, step) && Counted(s) && !step.Scan? && !step.Dispatch?
    requires step !in {ReadReceive, ReadSend, BridgeReceive, BridgeSend, Parse}
    ensures Counted(Apply(s, step))
  {
  }

  lemma {:induction false} StepCounted(s: State, step: Step)
    requires Inv(s) && Enabled(s, step) && Counted(s)
    ensures Counted(Apply(s, step))
  {
    match step
    case Scan(line) => ScanCounted(s, line);
    case Parse => ParseCounted(s);
    case Dispatch => DispatchCounted(s);
    case ReadReceive => ReceiveCounted(s, step);
    case BridgeReceive => ReceiveCounted(s, step);
    case ReadSend => SendCounted(s, step);
    case BridgeSend => SendCounted(s, step);
    case _ => OutsideCounted(s, step);
  }

  lemma {:induction false} RunCounted(s: State, steps: seq<Step>)
    requires Inv(s) && Valid(s, steps) && Counted(s)
    ensures Counted(Exec(s, steps))
    decreases |steps|
  {
    if steps != [] {
      StepKeepsInv(s, steps[0]);
      StepCounted(s, steps[0]);
      RunCounted(Apply(s, steps[0]), steps[1..]);
    }
  }

  // ---- Whole runs ----

  /** In every run, of each kind of message, what was delivered followed by what is on its way, in order, is
      what the scanner read of that kind; what was written followed by what is on its way out is what was
      sent; and every malformed line is counted or still on its way. */
  lemma {:induction false} RunDelivers(capacity: nat, steps: seq<Step>, k: Kind)
    requires Valid(Init(capacity), steps) && k != Nothing
    ensures var t := Exec(Init(capacity), steps);
            k in t.outlets
            && var o := t.outlets[k];
               o.delivered + (o.second + (o.hand + o.first)) + Chosen(k, Unrouted(t)) == Chosen(k, Scanned(steps))
    ensures var t := Exec(Init(capacity), steps);
            && t.written + (t.outgoing + (t.outHand + t.handlerOutgoing)) == SentOut(steps)
            && t.errors + Malformeds(Unrouted(t)) == Malformeds(Scanned(steps))
            && t.linesRead + |t.scanHand| == |Scanned(steps)| && t.linesWritten == |t.written|
  {
    var s, t := Init(capacity), Exec(Init(capacity), steps);
    PipelineRefines(capacity, steps, k);
    RunKeepsInv(s, steps);
    RunHistory(s, steps);
    EmptyPlus(Scanned(steps));
    EmptyPlus(SentOut(steps));
    PickIsChosen(k, Unrouted(t));
    PickIsChosen(k, t.read);
    RunCounted(s, steps);
    UnroutedMalformed(t);
  }

  predicate AllWanted(k: Kind, ms: seq<Message>) {
    forall m :: m in ms ==> Wants(k, m)
  }

  /** In every run the requests' channels and hand hold only messages with a method and an id, the
      notifications' only such with a method and no id, the responses' only such with an id and no method. */
  lemma {:induction false} OutletsHoldTheirKind(capacity: nat, steps: seq<Step>, k: Kind)
    requires Valid(Init(capacity), steps) && k != Nothing
    ensures var t := Exec(Init(capacity), steps);
            k in t.outlets
            && var o := t.outlets[k];
               AllWanted(k, o.first) && AllWanted(k, o.hand) && AllWanted(k, o.second) && AllWanted(k, o.delivered)
  {
    RunDelivers(capacity, steps, k);
    var t := Exec(Init(capacity), steps);
    var all := Chosen(k, Scanned(steps));
    var o := t.outlets[k];
    forall m | m in o.first || m in o.hand || m in o.second || m in o.delivered ensures Wants(k, m) {
      assert m in o.second + (o.hand + o.first) || m in o.delivered;
      assert m in all;
    }
  }

  /** A routed message goes to the outlet that its method and id call for, and to no other. */
  lemma {:induction false} DispatchedTo(s: State, k: Kind)
    requires Enabled(s, Dispatch) && k in s.outlets
    ensures s.parseHand[0].Parsed? && k in Apply(s, Dispatch).outlets
    ensures var m, o := s.parseHand[0].msg, s.outlets[k];
            Apply(s, Dispatch).outlets[k] == if Wants(k, m) then o.(first := o.first + [m]) else o
  {
  }

  lemma {:induction false} EndIsEmpty(s: State, moves: seq<Step>)
    requires Inv(s) && s.capacity > 0 && Valid(s, moves) && forall step :: step in moves ==> Move(step)
    requires forall step :: Move(step) ==> !Enabled(Exec(s, moves), step)
    ensures |moves| <= Measure(s)
    ensures var t := Exec(s, moves); Inv(t) && OnTheWay(t) == 0 && t.scanHand == [] && t.read == s.read
  {
    RunDecreases(s, moves);
    if !Drained(Exec(s, moves)) {
      NeverStuck(Exec(s, moves));
    }
  }

  lemma {:induction false} EndCounts(s: State, moves: seq<Step>)
    requires Inv(s) && Counted(s) && s.capacity > 0
    requires Valid(s, moves) && forall step :: step in moves ==> Move(step)
    requires forall step :: Move(step) ==> !Enabled(Exec(s, moves), step)
    ensures var t := Exec(s, moves);
            t.errors == Malformeds(s.read) && t.linesRead == |s.read| && t.linesWritten == |t.written|
  {
    EndIsEmpty(s, moves);
    RunCounted(s, moves);
  }

  lemma {:induction false} BeforeMoves(capacity: nat, before: seq<Step>)
    requires Valid(Init(capacity), before)
    ensures var s := Exec(Init(capacity), before);
            Inv(s) && Counted(s) && s.capacity == capacity && s.read == Scanned(before) && s.sent == SentOut(before)
  {
    RunKeepsInv(Init(capacity), before);
    CapacityStays(Init(capacity), before);
    RunHistory(Init(capacity), before);
    EmptyPlus(Scanned(before));
    EmptyPlus(SentOut(before));
    RunCounted(Init(capacity), before);
  }

  /** Whatever was read and sent, once the moves of the transport and its consumers have come to their end (and
      Drains bounds their number), all of it has arrived: each kind of message at its outlet in the order read, every
      message sent on the wire, every malformed line in the count. */
  lemma {:induction false} RunDrains(capacity: nat, before: seq<Step>, moves: seq<Step>, k: Kind)
    requires capacity > 0 && k != Nothing && Valid(Init(capacity), before)
    requires Valid(Exec(Init(capacity), before), moves) && forall step :: step in moves ==> Move(step)
    requires forall step :: Move(step) ==> !Enabled(Exec(Exec(Init(capacity), before), moves), step)
    ensures var t := Exec(Exec(Init(capacity), before), moves);
            && k in t.outlets && t.outlets[k].delivered == Chosen(k, Scanned(before))
            && t.written == SentOut(before) && t.linesWritten == |SentOut(before)|
            && t.errors == Malformeds(Scanned(before)) && t.linesRead == |Scanned(before)|
  {
    var s := Exec(Init(capacity), before);
    BeforeMoves(capacity, before);
    Drains(s, moves, k);
    PickIsChosen(k, s.read);
    EndCounts(s, moves);
  }
}
