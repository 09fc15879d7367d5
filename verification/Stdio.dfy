/** The stdio transport as a chain of bounded channels and goroutine hands (transport/stdio.go,
    internal/jsonrpc.go:230-287): lines come in, are routed as requests, notifications or responses, and
    go out to their consumers; messages go the other way to the writer. */
module Stdio {
  import opened Text

  /** A decoded message: its method (possibly empty) and whether it has an id. */
  datatype Message = Message(methodName: string, hasId: bool, payload: string)

  datatype Line = Empty | Malformed | Parsed(msg: Message)

  datatype Kind = Request | Notification | Response | Nothing

  /** IsRequest, IsNotification, IsResponse, in the order handleIncomingMessage asks them. */
  function Route(m: Message): Kind {
    if m.methodName != "" && m.hasId then Request
    else if m.methodName != "" && !m.hasId then Notification
    else if m.methodName == "" && m.hasId then Response
    else Nothing
  }

  function KindOf(l: Line): Kind {
    if l.Parsed? then Route(l.msg) else Nothing
  }

  /** The messages of one kind among some lines, in order. */
  function Pick(k: Kind, lines: seq<Line>): seq<Message> {
    if lines == [] then []
    else (if lines[0].Parsed? && Route(lines[0].msg) == k then [lines[0].msg] else []) + Pick(k, lines[1..])
  }

  /** The way of one kind of message after routing: the message handler's channel, the bridge's hand, the
      transport's channel, and what has been taken from that. */
  datatype Outlet = Outlet(first: seq<Message>, hand: seq<Message>, second: seq<Message>, delivered: seq<Message>) {
    function All(): seq<Message> {
      delivered + (second + (hand + first))
    }
  }

  datatype State = State(
    capacity: nat,
    read: seq<Line>,                     // history: the nonempty lines the scanner has produced
    scanHand: seq<Line>,                 // the line the scanner holds out
    readHand: seq<Line>,                 // the line readLoop holds
    incoming: seq<Line>,                 // incomingChan of the transport
    bridgeHand: seq<Line>,
    handlerIncoming: seq<Line>,          // incomingChan of the message handler
    parseHand: seq<Line>,                // the routed line that processIncomingMessages holds
    errors: nat, linesRead: nat,
    outlets: map<Kind, Outlet>,
    sent: seq<Message>,                  // history: what was put into the handler's outgoingChan
    handlerOutgoing: seq<Message>, outHand: seq<Message>, outgoing: seq<Message>,
    written: seq<Message>, linesWritten: nat)

  datatype Step =
    | Scan(line: Line) | ReadReceive | ReadSend | BridgeReceive | BridgeSend | Parse | Dispatch
    | OutletReceive(kind: Kind) | OutletSend(kind: Kind) | Consume(kind: Kind) | Correlate
    | SendOut(msg: Message) | OutgoingReceive | OutgoingSend | Write

  function Init(capacity: nat): State {
    var o := Outlet([], [], [], []);
    State(capacity, [], [], [], [], [], [], [], 0, 0, OutletMap(o, o, o), [], [], [], [], [], 0)
  }

  function OutletMap(requests: Outlet, notifications: Outlet, responses: Outlet): map<Kind, Outlet> {
    map[Request := requests, Notification := notifications, Response := responses]
  }

  lemma {:induction false} ChangeOutlet(a: Outlet, b: Outlet, c: Outlet, o: Outlet)
    ensures OutletMap(a, b, c)[Request := o] == OutletMap(o, b, c)
    ensures OutletMap(a, b, c)[Notification := o] == OutletMap(a, o, c)
    ensures OutletMap(a, b, c)[Response := o] == OutletMap(a, b, o)
  {
  }

  predicate HasOutlets(s: State) {
    s.outlets.Keys == {Request, Notification, Response}
  }

  predicate Enabled(s: State, step: Step) {
    HasOutlets(s) &&
    match step
    case Scan(_) => s.scanHand == []
    case ReadReceive => s.scanHand != [] && s.readHand == []
    case ReadSend => s.readHand != [] && |s.incoming| < s.capacity
    case BridgeReceive => s.incoming != [] && s.bridgeHand == []
    case BridgeSend => s.bridgeHand != [] && |s.handlerIncoming| < s.capacity
    case Parse => s.handlerIncoming != [] && s.parseHand == []
    case Dispatch => s.parseHand != [] && KindOf(s.parseHand[0]) != Nothing
                     && |s.outlets[KindOf(s.parseHand[0])].first| < s.capacity
    case OutletReceive(k) => k in {Request, Notification} && s.outlets[k].first != [] && s.outlets[k].hand == []
    case OutletSend(k) => k in {Request, Notification} && s.outlets[k].hand != [] && |s.outlets[k].second| < s.capacity
    case Consume(k) => k in {Request, Notification} && s.outlets[k].second != []
    case Correlate => s.outlets[Response].first != []
    case SendOut(_) => |s.handlerOutgoing| < s.capacity
    case OutgoingReceive => s.handlerOutgoing != [] && s.outHand == []
    case OutgoingSend => s.outHand != [] && |s.outgoing| < s.capacity
    case Write => s.outgoing != []
  }

  /** A line that is not a message is counted; a message of no kind is dropped. */
  function ParseStep(s: State): State
    requires s.handlerIncoming != []
  {
    var l, rest := s.handlerIncoming[0], s.handlerIncoming[1..];
    if !l.Parsed? then s.(handlerIncoming := rest, errors := s.errors + 1)
    else s.(handlerIncoming := rest, parseHand := if KindOf(l) == Nothing then s.parseHand else [l])
  }

  function WithOutlet(s: State, k: Kind, o: Outlet): State {
    s.(outlets := s.outlets[k := o])
  }

  function DispatchStep(s: State): State
    requires s.parseHand != [] && s.parseHand[0].Parsed? && KindOf(s.parseHand[0]) in s.outlets
  {
    var k := KindOf(s.parseHand[0]);
    var o := s.outlets[k];
    s.(parseHand := [], outlets := s.outlets[k := o.(first := o.first + [s.parseHand[0].msg])])
  }

  function ReceiveStep(s: State, k: Kind): State
    requires k in s.outlets && s.outlets[k].first != []
  {
    var o := s.outlets[k];
    WithOutlet(s, k, o.(first := o.first[1..], hand := o.first[..1]))
  }

  function SendStep(s: State, k: Kind): State
    requires k in s.outlets
  {
    var o := s.outlets[k];
    WithOutlet(s, k, o.(hand := [], second := o.second + o.hand))
  }

  function ConsumeStep(s: State, k: Kind): State
    requires k in s.outlets && s.outlets[k].second != []
  {
    var o := s.outlets[k];
    WithOutlet(s, k, o.(second := o.second[1..], delivered := o.delivered + o.second[..1]))
  }

  function CorrelateStep(s: State): State
    requires Response in s.outlets && s.outlets[Response].first != []
  {
    var o := s.outlets[Response];
    WithOutlet(s, Response, o.(first := o.first[1..], delivered := o.delivered + o.first[..1]))
  }

  function WriteStep(s: State): State
    requires s.outgoing != []
  {
    s.(outgoing := s.outgoing[1..], written := s.written + s.outgoing[..1], linesWritten := s.linesWritten + 1)
  }

  function ReadStep(s: State): State
    requires s.scanHand != []
  {
    s.(scanHand := s.scanHand[1..], readHand := s.scanHand[..1], linesRead := s.linesRead + 1)
  }

  function Apply(s: State, step: Step): State
    requires Enabled(s, step)
  {
    match step
    case Scan(line) => if line.Empty? then s else s.(scanHand := [line], read := s.read + [line])
    case ReadReceive => ReadStep(s)
    case ReadSend => s.(readHand := [], incoming := s.incoming + s.readHand)
    case BridgeReceive => s.(incoming := s.incoming[1..], bridgeHand := s.incoming[..1])
    case BridgeSend => s.(bridgeHand := [], handlerIncoming := s.handlerIncoming + s.bridgeHand)
    case Parse => ParseStep(s)
    case Dispatch => DispatchStep(s)
    case OutletReceive(k) => ReceiveStep(s, k)
    case OutletSend(k) => SendStep(s, k)
    case Consume(k) => ConsumeStep(s, k)
    case Correlate => CorrelateStep(s)
    case SendOut(m) => s.(handlerOutgoing := s.handlerOutgoing + [m], sent := s.sent + [m])
    case OutgoingReceive => s.(handlerOutgoing := s.handlerOutgoing[1..], outHand := s.handlerOutgoing[..1])
    case OutgoingSend => s.(outHand := [], outgoing := s.outgoing + s.outHand)
    case Write => WriteStep(s)
  }

  predicate Valid(s: State, steps: seq<Step>)
    decreases |steps|
  {
    steps == [] || (Enabled(s, steps[0]) && Valid(Apply(s, steps[0]), steps[1..]))
  }

  function Exec(s: State, steps: seq<Step>): State
    requires Valid(s, steps)
    decreases |steps|
  {
    if steps == [] then s else Exec(Apply(s, steps[0]), steps[1..])
  }

  // ---- The invariant ----

  /** The lines that are read but not yet routed, oldest first. */
  function Unrouted(s: State): seq<Line> {
    s.parseHand + (s.handlerIncoming + (s.bridgeHand + (s.incoming + (s.readHand + s.scanHand))))
  }

  predicate OutletOk(s: State, k: Kind)
    requires k in s.outlets
  {
    var o := s.outlets[k];
    && |o.first| <= s.capacity && |o.hand| <= 1 && |o.second| <= s.capacity
    && (k == Response ==> o.hand == [] && o.second == [])
    && o.All() + Pick(k, Unrouted(s)) == Pick(k, s.read)
  }

  predicate HandsOk(s: State) {
    && |s.scanHand| <= 1 && |s.readHand| <= 1 && |s.bridgeHand| <= 1 && |s.parseHand| <= 1 && |s.outHand| <= 1
    && |s.incoming| <= s.capacity && |s.handlerIncoming| <= s.capacity
    && |s.handlerOutgoing| <= s.capacity && |s.outgoing| <= s.capacity
    && s.linesRead + |s.scanHand| == |s.read| && s.linesWritten == |s.written|
    && (s.parseHand != [] ==> KindOf(s.parseHand[0]) != Nothing)
  }

  predicate Inv(s: State) {
    && HasOutlets(s) && HandsOk(s)
    && OutletOk(s, Request) && OutletOk(s, Notification) && OutletOk(s, Response)
    && s.written + (s.outgoing + (s.outHand + s.handlerOutgoing)) == s.sent
  }

  lemma {:induction false} PickConcat(k: Kind, a: seq<Line>, b: seq<Line>)
    ensures Pick(k, a + b) == Pick(k, a) + Pick(k, b)
  {
    if a == [] {
      assert a + b == b;
    } else {
      assert (a + b)[1..] == a[1..] + b;
      PickConcat(k, a[1..], b);
    }
  }

  lemma {:induction false} PickOne(k: Kind, l: Line)
    ensures Pick(k, [l]) == if l.Parsed? && Route(l.msg) == k then [l.msg] else []
  {
    assert [l][1..] == [];
    assert Pick(k, []) == [];
  }

  /** A step that keeps the unrouted lines and what was read keeps every outlet. */
  lemma {:induction false} SameLines(s: State, t: State)
    requires Inv(s) && t.outlets == s.outlets && t.capacity == s.capacity
    requires Unrouted(t) == Unrouted(s) && t.read == s.read && HandsOk(t)
    requires t.written + (t.outgoing + (t.outHand + t.handlerOutgoing)) == t.sent
    ensures Inv(t)
  {
  }

  lemma {:induction false} ScanKeepsInv(s: State, line: Line)
    requires Inv(s) && Enabled(s, Scan(line)) && !line.Empty?
    ensures Inv(Apply(s, Scan(line)))
  {
    var t := Apply(s, Scan(line));
    ScannedLast(s, line);
    ScanKeepsOutlet(s, t, line, Request);
    ScanKeepsOutlet(s, t, line, Notification);
    ScanKeepsOutlet(s, t, line, Response);
  }

  lemma {:induction false} ScannedLast(s: State, line: Line)
    requires s.scanHand == []
    ensures Unrouted(s.(scanHand := [line], read := s.read + [line])) == Unrouted(s) + [line]
  {
    EmptyPlus([line]);
    assert s.readHand + [] == s.readHand;
    Assoc(s.incoming, s.readHand, [line]);
    Assoc(s.bridgeHand, s.incoming + s.readHand, [line]);
    Assoc(s.handlerIncoming, s.bridgeHand + (s.incoming + s.readHand), [line]);
    Assoc(s.parseHand, s.handlerIncoming + (s.bridgeHand + (s.incoming + s.readHand)), [line]);
  }

  lemma {:induction false} ScanKeepsOutlet(s: State, t: State, line: Line, k: Kind)
    requires k in s.outlets && OutletOk(s, k) && t.outlets == s.outlets && t.capacity == s.capacity
    requires Unrouted(t) == Unrouted(s) + [line] && t.read == s.read + [line]
    ensures OutletOk(t, k)
  {
    PickConcat(k, Unrouted(s), [line]);
    PickConcat(k, s.read, [line]);
    Assoc(s.outlets[k].All(), Pick(k, Unrouted(s)), Pick(k, [line]));
  }

  /** The oldest unrouted line leaves, and each outlet gets it if it is of its kind. */
  lemma {:induction false} RouteKeepsOutlet(s: State, t: State, l: Line, k: Kind)
    requires k in s.outlets && OutletOk(s, k) && k in t.outlets && t.capacity == s.capacity && t.read == s.read
    requires Unrouted(s) == [l] + Unrouted(t)
    requires var o := s.outlets[k];
             if KindOf(l) == k && l.Parsed?
             then |o.first| < s.capacity && t.outlets[k] == o.(first := o.first + [l.msg]) else t.outlets[k] == o
    ensures OutletOk(t, k)
  {
    PickConcat(k, [l], Unrouted(t));
    PickOne(k, l);
    var o := s.outlets[k];
    if KindOf(l) == k && l.Parsed? {
      GrowsLast(o, l.msg);
      Assoc(o.All(), [l.msg], Pick(k, Unrouted(t)));
    } else {
      EmptyPlus(Pick(k, Unrouted(t)));
    }
  }

  lemma {:induction false} GrowsLast(o: Outlet, m: Message)
    ensures o.(first := o.first + [m]).All() == o.All() + [m]
  {
    Assoc(o.hand, o.first, [m]);
    Assoc(o.second, o.hand + o.first, [m]);
    Assoc(o.delivered, o.second + (o.hand + o.first), [m]);
  }

  lemma {:induction false} ParseKeepsInv(s: State)
    requires Inv(s) && Enabled(s, Parse)
    ensures Inv(Apply(s, Parse))
  {
    var t := Apply(s, Parse);
    var l := s.handlerIncoming[0];
    var rest := s.bridgeHand + (s.incoming + (s.readHand + s.scanHand));
    Pull(s.handlerIncoming, rest);
    assert s.handlerIncoming[..1] == [l];
    if KindOf(l) != Nothing {
      SameLines(s, t);
    } else {
      EmptyPlus(s.handlerIncoming[1..] + rest);
      RouteKeepsOutlet(s, t, l, Request);
      RouteKeepsOutlet(s, t, l, Notification);
      RouteKeepsOutlet(s, t, l, Response);
    }
  }

  lemma {:induction false} DispatchKeepsInv(s: State)
    requires Inv(s) && Enabled(s, Dispatch)
    ensures Inv(Apply(s, Dispatch))
  {
    var t := Apply(s, Dispatch);
    var l := s.parseHand[0];
    assert s.parseHand == [l];
    EmptyPlus(s.handlerIncoming + (s.bridgeHand + (s.incoming + (s.readHand + s.scanHand))));
    RouteKeepsOutlet(s, t, l, Request);
    RouteKeepsOutlet(s, t, l, Notification);
    RouteKeepsOutlet(s, t, l, Response);
  }

  // Moves within one outlet keep all that went through it.

  lemma {:induction false} ReceiveKeepsAll(o: Outlet)
    requires o.first != [] && o.hand == []
    ensures o.(first := o.first[1..], hand := o.first[..1]).All() == o.All()
  {
    PullLast(o.first);
  }

  lemma {:induction false} SendKeepsAll(o: Outlet)
    ensures o.(hand := [], second := o.second + o.hand).All() == o.All()
  {
    Push(o.second, o.hand, o.first);
  }

  lemma {:induction false} ConsumeKeepsAll(o: Outlet)
    requires o.second != []
    ensures o.(second := o.second[1..], delivered := o.delivered + o.second[..1]).All() == o.All()
  {
    Cut(o.second, 1);
    Assoc(o.second[..1], o.second[1..], o.hand + o.first);
    Assoc(o.delivered, o.second[..1], o.second[1..] + (o.hand + o.first));
  }

  lemma {:induction false} CorrelateKeepsAll(o: Outlet)
    requires o.first != [] && o.hand == [] && o.second == []
    ensures o.(first := o.first[1..], delivered := o.delivered + o.first[..1]).All() == o.All()
  {
    EmptyPlus(o.first);
    EmptyPlus(o.first[1..]);
    Cut(o.first, 1);
    Assoc(o.delivered, o.first[..1], o.first[1..]);
  }

  lemma {:induction false} SameOutlet(s: State, k: Kind, o: Outlet)
    requires Inv(s) && k in s.outlets && o.All() == s.outlets[k].All()
    requires |o.first| <= s.capacity && |o.hand| <= 1 && |o.second| <= s.capacity
    requires k == Response ==> o.hand == [] && o.second == []
    ensures Inv(WithOutlet(s, k, o))
  {
    assert Unrouted(WithOutlet(s, k, o)) == Unrouted(s);
  }

  /** A step within one outlet. */
  lemma {:induction false} OutletKeepsInv(s: State, step: Step, k: Kind)
    requires Inv(s) && Enabled(s, step)
    requires step == OutletReceive(k) || step == OutletSend(k) || step == Consume(k) || (step == Correlate && k == Response)
    ensures Inv(Apply(s, step))
  {
    var o := s.outlets[k];
    if step.OutletReceive? {
      ReceiveKeepsAll(o);
    } else if step.OutletSend? {
      SendKeepsAll(o);
    } else if step.Consume? {
      ConsumeKeepsAll(o);
    } else {
      CorrelateKeepsAll(o);
    }
    SameOutlet(s, k, Apply(s, step).outlets[k]);
  }

  lemma {:induction false} StepKeepsInv(s: State, step: Step)
    requires Inv(s) && Enabled(s, step)
    ensures Inv(Apply(s, step))
  {
    var t := Apply(s, step);
    match step
    case Scan(line) =>
      if !line.Empty? {
        ScanKeepsInv(s, line);
      }
    case Parse => ParseKeepsInv(s);
    case Dispatch => DispatchKeepsInv(s);
    case OutletReceive(k) => OutletKeepsInv(s, step, k);
    case OutletSend(k) => OutletKeepsInv(s, step, k);
    case Consume(k) => OutletKeepsInv(s, step, k);
    case Correlate => OutletKeepsInv(s, step, Response);
    case _ => MoveKeepsInv(s, step);
  }

  lemma {:induction false} MoveKeepsInv(s: State, step: Step)
    requires Inv(s) && Enabled(s, step)
    requires step in {ReadReceive, ReadSend, BridgeReceive, BridgeSend, OutgoingReceive, OutgoingSend, Write} || step.SendOut?
    ensures Inv(Apply(s, step))
  {
    match step
    case ReadReceive => PullLast(s.scanHand);
    case ReadSend => Push(s.incoming, s.readHand, s.scanHand);
    case BridgeReceive => Pull(s.incoming, s.readHand + s.scanHand);
    case BridgeSend => Push(s.handlerIncoming, s.bridgeHand, s.incoming + (s.readHand + s.scanHand));
    case SendOut(m) =>
      Assoc(s.outHand, s.handlerOutgoing, [m]);
      Assoc(s.outgoing, s.outHand + s.handlerOutgoing, [m]);
      Assoc(s.written, s.outgoing + (s.outHand + s.handlerOutgoing), [m]);
    case OutgoingReceive => PullLast(s.handlerOutgoing);
    case OutgoingSend => Push(s.outgoing, s.outHand, s.handlerOutgoing);
    case Write =>
      Cut(s.outgoing, 1);
      Assoc(s.outgoing[..1], s.outgoing[1..], s.outHand + s.handlerOutgoing);
      Assoc(s.written, s.outgoing[..1], s.outgoing[1..] + (s.outHand + s.handlerOutgoing));
    SameLines(s, Apply(s, step));
  }

  lemma {:induction false} RunKeepsInv(s: State, steps: seq<Step>)
    requires Inv(s) && Valid(s, steps)
    ensures Inv(Exec(s, steps))
    decreases |steps|
  {
    if steps != [] {
      StepKeepsInv(s, steps[0]);
      RunKeepsInv(Apply(s, steps[0]), steps[1..]);
    }
  }

  /** In every run, the requests delivered so far followed by those in each channel and hand, in order,
      are the requests among the lines read; the same for notifications and responses; and what was
      written followed by what is on the way out is what was sent. No channel exceeds its capacity. */
  lemma {:induction false} PipelineRefines(capacity: nat, steps: seq<Step>, k: Kind)
    requires Valid(Init(capacity), steps) && k != Nothing
    ensures var t := Exec(Init(capacity), steps);
            && k in t.outlets
            && t.outlets[k].delivered + (t.outlets[k].second + (t.outlets[k].hand + t.outlets[k].first)) + Pick(k, Unrouted(t))
               == Pick(k, t.read)
            && t.written + (t.outgoing + (t.outHand + t.handlerOutgoing)) == t.sent
            && |t.outlets[k].first| <= capacity && |t.outlets[k].second| <= capacity
            && |t.incoming| <= capacity && |t.handlerIncoming| <= capacity
            && |t.handlerOutgoing| <= capacity && |t.outgoing| <= capacity
  {
    RunKeepsInv(Init(capacity), steps);
    CapacityStays(Init(capacity), steps);
    assert OutletOk(Exec(Init(capacity), steps), k);
  }

  lemma {:induction false} CapacityStays(s: State, steps: seq<Step>)
    requires Valid(s, steps)
    ensures Exec(s, steps).capacity == s.capacity
    decreases |steps|
  {
    if steps != [] {
      CapacityStays(Apply(s, steps[0]), steps[1..]);
    }
  }

  // ---- Draining ----

  /** The moves of the goroutines and of the consumers: all but new input and new messages. */
  predicate Move(step: Step) {
    !step.Scan? && !step.SendOut?
  }

  function OutletMeasure(o: Outlet): nat {
    3 * |o.first| + 2 * |o.hand| + |o.second|
  }

  /** The moves that are left for what is in the chain. */
  function Measure(s: State): nat
    requires HasOutlets(s)
  {
    InMeasure(s) + OutMeasure(s)
    + OutletMeasure(s.outlets[Request]) + OutletMeasure(s.outlets[Notification]) + OutletMeasure(s.outlets[Response])
  }

  function InMeasure(s: State): nat {
    9 * |s.scanHand| + 8 * |s.readHand| + 7 * |s.incoming| + 6 * |s.bridgeHand| + 5 * |s.handlerIncoming| + 4 * |s.parseHand|
  }

  function OutMeasure(s: State): nat {
    3 * |s.handlerOutgoing| + 2 * |s.outHand| + |s.outgoing|
  }

  predicate Drained(s: State)
    requires HasOutlets(s)
  {
    && InMeasure(s) == 0 && OutMeasure(s) == 0
    && forall k :: k in s.outlets ==> OutletMeasure(s.outlets[k]) == 0
  }

  /** A move within an outlet that is not empty. */
  function OutletMove(o: Outlet, k: Kind): Step {
    if o.second != [] then Consume(k)
    else if o.hand != [] then OutletSend(k)
    else if k == Response then Correlate
    else OutletReceive(k)
  }

  /** A move on the way in when the outlets are empty, and one on the way out. */
  function InMove(s: State): Step {
    if s.parseHand != [] then Dispatch
    else if s.handlerIncoming != [] then Parse
    else if s.bridgeHand != [] then BridgeSend
    else if s.incoming != [] then BridgeReceive
    else if s.readHand != [] then ReadSend
    else ReadReceive
  }

  function OutMove(s: State): Step {
    if s.outgoing != [] then Write else if s.outHand != [] then OutgoingSend else OutgoingReceive
  }

  lemma {:induction false} OutletMoves(s: State, k: Kind)
    requires Inv(s) && s.capacity > 0 && k in s.outlets && OutletMeasure(s.outlets[k]) > 0
    ensures Move(OutletMove(s.outlets[k], k)) && Enabled(s, OutletMove(s.outlets[k], k))
  {
    assert OutletOk(s, k);
  }

  lemma {:induction false} InMoves(s: State)
    requires Inv(s) && s.capacity > 0 && InMeasure(s) > 0
    requires forall k :: k in s.outlets ==> OutletMeasure(s.outlets[k]) == 0
    ensures Move(InMove(s)) && Enabled(s, InMove(s))
  {
    if s.parseHand != [] {
      assert OutletMeasure(s.outlets[KindOf(s.parseHand[0])]) == 0;
    }
  }

  lemma {:induction false} OutMoves(s: State)
    requires Inv(s) && s.capacity > 0 && OutMeasure(s) > 0
    ensures Move(OutMove(s)) && Enabled(s, OutMove(s))
  {
  }

  /** No deadlock: while anything is in the chain some move is possible. */
  lemma {:induction false} NeverStuck(s: State)
    requires Inv(s) && s.capacity > 0 && !Drained(s)
    ensures exists step :: Move(step) && Enabled(s, step)
  {
    if OutMeasure(s) > 0 {
      OutMoves(s);
    } else if k :| k in s.outlets && OutletMeasure(s.outlets[k]) > 0 {
      OutletMoves(s, k);
    } else {
      InMoves(s);
    }
  }

  /** Closer to empty, with the same input and messages. */
  predicate Closer(s: State, t: State)
    requires HasOutlets(s) && HasOutlets(t)
  {
    Measure(t) < Measure(s) && t.read == s.read && t.sent == s.sent && t.capacity == s.capacity
  }

  lemma {:induction false} WithOutletCloser(s: State, k: Kind, o: Outlet)
    requires HasOutlets(s) && k in s.outlets && OutletMeasure(o) < OutletMeasure(s.outlets[k])
    ensures HasOutlets(WithOutlet(s, k, o)) && Closer(s, WithOutlet(s, k, o))
  {
  }

  lemma {:induction false} DispatchCloser(s: State)
    requires HasOutlets(s) && s.parseHand != [] && s.parseHand[0].Parsed? && KindOf(s.parseHand[0]) in s.outlets
    ensures HasOutlets(DispatchStep(s)) && Closer(s, DispatchStep(s))
  {
  }

  lemma {:induction false} ChainCloser(s: State, step: Step)
    requires Enabled(s, step)
    requires step in {ReadReceive, ReadSend, BridgeReceive, BridgeSend, Parse, OutgoingReceive, OutgoingSend, Write}
    ensures HasOutlets(Apply(s, step)) && Closer(s, Apply(s, step))
  {
  }

  lemma {:induction false} StepDecreases(s: State, step: Step)
    requires Inv(s) && Enabled(s, step) && Move(step)
    ensures Inv(Apply(s, step)) && Closer(s, Apply(s, step))
  {
    StepKeepsInv(s, step);
    match step
    case Dispatch => DispatchCloser(s);
    case OutletReceive(k) => WithOutletCloser(s, k, Apply(s, step).outlets[k]);
    case OutletSend(k) => WithOutletCloser(s, k, Apply(s, step).outlets[k]);
    case Consume(k) => WithOutletCloser(s, k, Apply(s, step).outlets[k]);
    case Correlate => WithOutletCloser(s, Response, Apply(s, step).outlets[Response]);
    case _ => ChainCloser(s, step);
  }

  lemma {:induction false} RunDecreases(s: State, steps: seq<Step>)
    requires Inv(s) && Valid(s, steps) && forall step :: step in steps ==> Move(step)
    ensures var t := Exec(s, steps);
            Inv(t) && Measure(t) + |steps| <= Measure(s) && t.read == s.read && t.sent == s.sent && t.capacity == s.capacity
    decreases |steps|
  {
    if steps != [] {
      assert steps[0] in steps;
      assert forall x :: x in steps[1..] ==> x in steps;
      StepDecreases(s, steps[0]);
      RunDecreases(Apply(s, steps[0]), steps[1..]);
    }
  }

  /** In an empty chain everything read was delivered, and everything sent was written. */
  lemma {:induction false} DrainedIsDelivered(s: State, k: Kind)
    requires Inv(s) && Drained(s) && k != Nothing
    ensures k in s.outlets && s.outlets[k].delivered == Pick(k, s.read) && s.written == s.sent
  {
    assert OutletOk(s, k) && OutletMeasure(s.outlets[k]) == 0;
    assert Unrouted(s) == [];
    var d := s.outlets[k].delivered;
    assert s.outlets[k].All() == d && d + [] == d;
    assert s.written + ([] + ([] + [])) == s.written;
  }

  /** Without new input, and while the consumers keep consuming, the chain stops after finitely many moves;
      then it is empty, every message read has been delivered to its outlet, in order, and every message sent
      has been written. */
  lemma {:induction false} Drains(s: State, steps: seq<Step>, k: Kind)
    requires Inv(s) && s.capacity > 0 && k != Nothing
    requires Valid(s, steps) && forall step :: step in steps ==> Move(step)
    requires forall step :: Move(step) ==> !Enabled(Exec(s, steps), step)
    ensures |steps| <= Measure(s)
    ensures var t := Exec(s, steps);
            k in t.outlets && t.outlets[k].delivered == Pick(k, s.read) && t.written == s.sent
  {
    var t := Exec(s, steps);
    RunDecreases(s, steps);
    assert Drained(t) by {
      if !Drained(t) {
        NeverStuck(t);
      }
    }
    DrainedIsDelivered(t, k);
  }

  // ---- The transport ----

  /** The stdio transport joined to its message handler. Every loop body is two moves, a receive into the
      loop's own variable and a send out of it, between which the other goroutines run. */
  class StdioTransport {
    const capacity: nat
    var scanned: seq<Line>
    var readLine: seq<Line>
    var incomingChan: seq<Line>
    var bridged: seq<Line>
    var handlerIncoming: seq<Line>
    var parsed: seq<Line>
    var errors: nat
    var linesRead: nat
    var handlerRequests: seq<Message>
    var requestHeld: seq<Message>
    var requestChan: seq<Message>
    var handlerNotifications: seq<Message>
    var notificationHeld: seq<Message>
    var notificationChan: seq<Message>
    var responseChan: seq<Message>
    var handlerOutgoing: seq<Message>
    var outgoingHeld: seq<Message>
    var outgoingChan: seq<Message>
    var linesWritten: nat
    ghost var read: seq<Line>
    ghost var requestsTaken: seq<Message>
    ghost var notificationsTaken: seq<Message>
    ghost var correlated: seq<Message>
    ghost var sent: seq<Message>
    var written: seq<Message>

    ghost function Requests(): Outlet
      reads this
    {
      Outlet(handlerRequests, requestHeld, requestChan, requestsTaken)
    }

    ghost function Notifications(): Outlet
      reads this
    {
      Outlet(handlerNotifications, notificationHeld, notificationChan, notificationsTaken)
    }

    ghost function Responses(): Outlet
      reads this
    {
      Outlet(responseChan, [], [], correlated)
    }

    ghost function View(): State
      reads this
    {
      State(capacity, read, scanned, readLine, incomingChan, bridged, handlerIncoming, parsed, errors, linesRead,
            OutletMap(Requests(), Notifications(), Responses()),
            sent, handlerOutgoing, outgoingHeld, outgoingChan, written, linesWritten)
    }

    constructor (messageBuffer: nat)
      ensures View() == Init(if messageBuffer == 0 then 100 else messageBuffer)
    {
      capacity := if messageBuffer == 0 then 100 else messageBuffer;
      scanned, readLine, incomingChan, bridged, handlerIncoming, parsed := [], [], [], [], [], [];
      errors, linesRead, linesWritten := 0, 0, 0;
      handlerRequests, requestHeld, requestChan := [], [], [];
      handlerNotifications, notificationHeld, notificationChan := [], [], [];
      responseChan, handlerOutgoing, outgoingHeld, outgoingChan, written := [], [], [], [], [];
      read, requestsTaken, notificationsTaken, correlated, sent := [], [], [], [], [];
    }

    /** The scanner skips empty lines. */
    method ScanLine(line: Line)
      requires Enabled(View(), Scan(line))
      modifies `scanned, `read
      ensures View() == Apply(old(View()), Scan(line))
    {
      if !line.Empty? {
        scanned := [line];
        read := read + [line];
      }
    }

    method ReadLoopReceive()
      requires scanned != [] && readLine == []
      modifies `readLine, `scanned, `linesRead
      ensures View() == ReadStep(old(View()))
    {
      readLine := scanned[..1];
      scanned := scanned[1..];
      linesRead := linesRead + 1;
    }

    method ReadLoopSend()
      requires Enabled(View(), ReadSend)
      modifies `incomingChan, `readLine
      ensures View() == Apply(old(View()), ReadSend)
    {
      incomingChan := incomingChan + readLine;
      readLine := [];
    }

    method BridgeIncomingReceive()
      requires Enabled(View(), BridgeReceive)
      modifies `incomingChan, `bridged
      ensures View() == Apply(old(View()), BridgeReceive)
    {
      bridged := incomingChan[..1];
      incomingChan := incomingChan[1..];
    }

    method BridgeIncomingSend()
      requires Enabled(View(), BridgeSend)
      modifies `handlerIncoming, `bridged
      ensures View() == Apply(old(View()), BridgeSend)
    {
      handlerIncoming := handlerIncoming + bridged;
      bridged := [];
    }

    /** ParseMessage and the choice of the route; a message of no kind is dropped. */
    method HandleIncomingMessage()
      requires Enabled(View(), Parse)
      modifies `handlerIncoming, `parsed, `errors
      ensures View() == ParseStep(old(View()))
    {
      var data := handlerIncoming[0];
      handlerIncoming := handlerIncoming[1..];
      if !data.Parsed? {
        errors := errors + 1;
        return;
      }
      if Route(data.msg) != Nothing {
        parsed := [data];
      }
    }

    /** The send at the end of the chosen route. */
    method DispatchMessage()
      requires Enabled(View(), Dispatch)
      modifies `handlerRequests, `handlerNotifications, `responseChan, `parsed
      ensures View() == DispatchStep(old(View()))
      ensures var m := old(parsed[0].msg);
              && handlerRequests == old(handlerRequests) + (if m.methodName != "" && m.hasId then [m] else [])
              && handlerNotifications == old(handlerNotifications) + (if m.methodName != "" && !m.hasId then [m] else [])
              && responseChan == old(responseChan) + (if m.methodName == "" && m.hasId then [m] else [])
    {
      var msg := parsed[0].msg;
      if msg.methodName != "" && msg.hasId {
        DispatchRequest();
      } else if msg.methodName != "" {
        DispatchNotification();
      } else {
        DispatchResponse();
      }
    }

    method DispatchRequest()
      requires Enabled(View(), Dispatch) && Route(parsed[0].msg) == Request
      modifies `handlerRequests, `parsed
      ensures View() == DispatchStep(old(View()))
      ensures handlerRequests == old(handlerRequests) + [old(parsed[0].msg)]
    {
      ghost var o := Requests().(first := handlerRequests + [parsed[0].msg]);
      ChangeOutlet(Requests(), Notifications(), Responses(), o);
      handlerRequests := handlerRequests + [parsed[0].msg];
      parsed := [];
    }

    method DispatchNotification()
      requires Enabled(View(), Dispatch) && Route(parsed[0].msg) == Notification
      modifies `handlerNotifications, `parsed
      ensures View() == DispatchStep(old(View()))
      ensures handlerNotifications == old(handlerNotifications) + [old(parsed[0].msg)]
    {
      ghost var o := Notifications().(first := handlerNotifications + [parsed[0].msg]);
      ChangeOutlet(Requests(), Notifications(), Responses(), o);
      handlerNotifications := handlerNotifications + [parsed[0].msg];
      parsed := [];
    }

    method DispatchResponse()
      requires Enabled(View(), Dispatch) && Route(parsed[0].msg) == Response
      modifies `responseChan, `parsed
      ensures View() == DispatchStep(old(View()))
      ensures responseChan == old(responseChan) + [old(parsed[0].msg)]
    {
      ghost var o := Responses().(first := responseChan + [parsed[0].msg]);
      ChangeOutlet(Requests(), Notifications(), Responses(), o);
      responseChan := responseChan + [parsed[0].msg];
      parsed := [];
    }

    method BridgeRequestsReceive()
      requires Enabled(View(), OutletReceive(Request))
      modifies `handlerRequests, `requestHeld
      ensures View() == ReceiveStep(old(View()), Request)
    {
      requestHeld := handlerRequests[..1];
      handlerRequests := handlerRequests[1..];
      assert View().outlets == ReceiveStep(old(View()), Request).outlets;
    }

    method BridgeRequestsSend()
      requires Enabled(View(), OutletSend(Request))
      modifies `requestHeld, `requestChan
      ensures View() == SendStep(old(View()), Request)
    {
      requestChan := requestChan + requestHeld;
      requestHeld := [];
      assert View().outlets == SendStep(old(View()), Request).outlets;
    }

    method BridgeNotificationsReceive()
      requires Enabled(View(), OutletReceive(Notification))
      modifies `handlerNotifications, `notificationHeld
      ensures View() == ReceiveStep(old(View()), Notification)
    {
      notificationHeld := handlerNotifications[..1];
      handlerNotifications := handlerNotifications[1..];
      assert View().outlets == ReceiveStep(old(View()), Notification).outlets;
    }

    method BridgeNotificationsSend()
      requires Enabled(View(), OutletSend(Notification))
      modifies `notificationHeld, `notificationChan
      ensures View() == SendStep(old(View()), Notification)
    {
      notificationChan := notificationChan + notificationHeld;
      notificationHeld := [];
      assert View().outlets == SendStep(old(View()), Notification).outlets;
    }

    /** handleResponses takes the next response; what it does with it is JsonRpc's matter. */
    method HandleResponse() returns (response: Message)
      requires Enabled(View(), Correlate)
      modifies `responseChan, `correlated
      ensures View() == CorrelateStep(old(View())) && response == old(responseChan)[0]
    {
      response := responseChan[0];
      correlated := correlated + responseChan[..1];
      responseChan := responseChan[1..];
      assert View().outlets == CorrelateStep(old(View())).outlets;
    }

    method SendMessage(msg: Message)
      requires Enabled(View(), SendOut(msg))
      modifies `handlerOutgoing, `sent
      ensures View() == Apply(old(View()), SendOut(msg))
    {
      handlerOutgoing := handlerOutgoing + [msg];
      sent := sent + [msg];
    }

    method BridgeOutgoingReceive()
      requires Enabled(View(), OutgoingReceive)
      modifies `handlerOutgoing, `outgoingHeld
      ensures View() == Apply(old(View()), OutgoingReceive)
    {
      outgoingHeld := handlerOutgoing[..1];
      handlerOutgoing := handlerOutgoing[1..];
    }

    method BridgeOutgoingSend()
      requires Enabled(View(), OutgoingSend)
      modifies `outgoingHeld, `outgoingChan
      ensures View() == Apply(old(View()), OutgoingSend)
    {
      outgoingChan := outgoingChan + outgoingHeld;
      outgoingHeld := [];
    }

    method WriteLoop()
      requires outgoingChan != []
      modifies `outgoingChan, `written, `linesWritten
      ensures View() == WriteStep(old(View()))
    {
      written, outgoingChan := written + outgoingChan[..1], outgoingChan[1..];
      linesWritten := linesWritten + 1;
    }
  }
}
