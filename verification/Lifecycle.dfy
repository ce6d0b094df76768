/** The lifecycle stream: batches of outbox events after a cursor, sent in order, resumed by the
    client at the last event it received. */
module Lifecycle {
  import opened Domain

  const CATCHUP_BATCH_SIZE := 100

  datatype Event = Event(seqNo: nat, kind: string)

  /** `start` and `kinds` are the client's; `visible` the committed outbox rows; `flight` what was
      sent and is not received yet. */
  datatype State = State(
    start: nat, kinds: seq<string>, visible: set<Event>,
    open: bool, cursor: nat, flight: seq<Event>, received: seq<Event>)

  datatype Step =
    | Appear(event: Event)   // a row's transaction commits, or is first seen
    | Batch(query: seq<Event>, sent: nat)   // one EventsSince, of which `sent` are sent
    | Receive
    | Break                  // the connection ends, with whatever was in flight
    | Resume                 // the client subscribes again with the last id it received

  predicate Wanted(kinds: seq<string>, e: Event) {
    kinds == [] || e.kind in kinds
  }

  predicate Increasing(es: seq<Event>) {
    forall i, j :: 0 <= i < j < |es| ==> es[i].seqNo < es[j].seqNo
  }

  /** `sequence_no > cursor AND kind = ANY(kinds) ORDER BY sequence_no LIMIT n`. */
  ghost predicate IsEventsSince(visible: set<Event>, cursor: nat, kinds: seq<string>, limit: nat, q: seq<Event>) {
    && Increasing(q) && |q| <= limit
    && (forall e :: e in q ==> e in visible && Wanted(kinds, e) && e.seqNo > cursor)
    && (forall e :: e in visible && Wanted(kinds, e) && e.seqNo > cursor && e !in q ==>
          |q| == limit && forall f :: f in q ==> f.seqNo < e.seqNo)
  }

  function LastOf(start: nat, es: seq<Event>): nat {
    if es == [] then start else es[|es| - 1].seqNo
  }

  ghost predicate Enabled(s: State, e: Step) {
    match e
    case Appear(ev) => forall f :: f in s.visible ==> f.seqNo != ev.seqNo
    case Batch(q, sent) => s.open && sent <= |q| && IsEventsSince(s.visible, s.cursor, s.kinds, CATCHUP_BATCH_SIZE, q)
    case Receive => s.flight != []
    case Break => true
    case Resume => !s.open
  }

  function Next(s: State, e: Step): State
    requires Enabled(s, e)
  {
    match e
    case Appear(ev) => s.(visible := s.visible + {ev})
    // a send that fails ends the call; the cursor stands at the last event sent
    case Batch(q, sent) =>
      s.(flight := s.flight + q[..sent], cursor := LastOf(s.cursor, q[..sent]), open := sent == |q|)
    case Receive => s.(received := s.received + [s.flight[0]], flight := s.flight[1..])
    case Break => s.(open := false, flight := [])
    case Resume => s.(open := true, flight := [], cursor := LastOf(s.start, s.received))
  }

  ghost predicate Run(s: State, es: seq<Step>)
    decreases |es|
  {
    es == [] || (Enabled(s, es[0]) && Run(Next(s, es[0]), es[1..]))
  }

  ghost function After(s: State, es: seq<Step>): State
    requires Run(s, es)
    decreases |es|
  {
    if es == [] then s else After(Next(s, es[0]), es[1..])
  }

  function Init(start: nat, kinds: seq<string>): State {
    State(start, kinds, {}, false, start, [], [])
  }

  // ---- what the client has, and what it missed ----

  function Sent(s: State): seq<Event> {
    s.received + s.flight
  }

  ghost predicate Inv(s: State) {
    && Increasing(Sent(s))
    && (forall e :: e in Sent(s) ==> e in s.visible && Wanted(s.kinds, e) && s.start < e.seqNo <= s.cursor)
    && (s.open ==> s.cursor == LastOf(s.start, Sent(s)))
    && s.start <= s.cursor
  }

  lemma JoinIncreasing(a: seq<Event>, b: seq<Event>, start: nat)
    requires Increasing(a) && Increasing(b) && forall e :: e in b ==> e.seqNo > LastOf(start, a)
    ensures Increasing(a + b)
  {}

  lemma LastBounds(start: nat, es: seq<Event>)
    requires Increasing(es)
    ensures forall e :: e in es ==> e.seqNo <= LastOf(start, es)
    ensures es != [] ==> es[|es| - 1] in es
  {}

  lemma BatchPart(s: State, q: seq<Event>, sent: nat)
    requires Enabled(s, Batch(q, sent))
    ensures var b := q[..sent];
      && Increasing(b) && LastOf(s.cursor, b) >= s.cursor
      && (forall e :: e in b ==> e in s.visible && Wanted(s.kinds, e) && s.cursor < e.seqNo <= LastOf(s.cursor, b))
  {}

  lemma BatchSent(s: State, q: seq<Event>, sent: nat)
    requires Enabled(s, Batch(q, sent))
    ensures var t := Next(s, Batch(q, sent)); var b := q[..sent];
      && Sent(t) == Sent(s) + b && t.cursor == LastOf(s.cursor, b)
      && t.visible == s.visible && t.kinds == s.kinds && t.start == s.start
  {}

  lemma LastOfJoin(start: nat, a: seq<Event>, b: seq<Event>)
    ensures LastOf(start, a + b) == LastOf(LastOf(start, a), b)
  {}

  lemma StepBatch(s: State, q: seq<Event>, sent: nat)
    requires Inv(s) && Enabled(s, Batch(q, sent))
    ensures Inv(Next(s, Batch(q, sent)))
    ensures Sent(Next(s, Batch(q, sent))) == Sent(s) + q[..sent]
  {
    var t := Next(s, Batch(q, sent));
    var b := q[..sent];
    BatchPart(s, q, sent);
    BatchSent(s, q, sent);
    hide IsEventsSince, Increasing, Wanted, Next, LastOf, Sent;
    JoinIncreasing(Sent(s), b, s.start);
    LastOfJoin(s.start, Sent(s), b);
    assert forall e :: e in Sent(t) ==> e in Sent(s) || e in b;
  }

  lemma StepInv(s: State, e: Step)
    requires Inv(s) && Enabled(s, e)
    ensures Inv(Next(s, e))
  {
    var t := Next(s, e);
    match e
    case Batch(q, sent) => StepBatch(s, q, sent);
    case Receive => assert Sent(t) == Sent(s);
    case Break => Prefix(s);
    case Resume => Prefix(s); LastBounds(s.start, s.received);
    case _ =>
  }

  lemma Prefix(s: State)
    requires Increasing(Sent(s))
    ensures Increasing(s.received) && s.received + [] == s.received
    ensures forall e :: e in s.received ==> e in Sent(s)
  {
    assert forall i :: 0 <= i < |s.received| ==> s.received[i] == Sent(s)[i];
  }

  /** The client is never given an event twice or out of order, in any run. */
  lemma {:induction false} ReceivedInOrder(s: State, es: seq<Step>)
    requires Inv(s) && Run(s, es)
    ensures Inv(After(s, es)) && Increasing(After(s, es).received)
    decreases |es|
  {
    Prefix(s);
    if es != [] {
      StepInv(s, es[0]);
      ReceivedInOrder(Next(s, es[0]), es[1..]);
    }
  }

  // ---- no gaps ----

  /** Every wanted event up to the last one sent was sent. */
  ghost predicate GapFree(s: State) {
    forall ev :: ev in s.visible && Wanted(s.kinds, ev) && s.start < ev.seqNo <= LastOf(s.start, Sent(s)) ==>
      ev in Sent(s)
  }

  /** A wanted row becomes visible behind the last event sent. */
  ghost predicate Late(s: State, e: Step) {
    e.Appear? && Wanted(s.kinds, e.event) && s.start < e.event.seqNo <= LastOf(s.start, Sent(s))
  }

  lemma BatchMissesNothing(s: State, q: seq<Event>, sent: nat, ev: Event)
    requires Enabled(s, Batch(q, sent))
    requires ev in s.visible && Wanted(s.kinds, ev) && s.cursor < ev.seqNo <= LastOf(s.cursor, q[..sent])
    ensures ev in q[..sent]
  {
    var b := q[..sent];
    assert sent > 0 && b[sent - 1] == q[sent - 1] && q[sent - 1] in q;
    assert ev in q;
    var i :| 0 <= i < |q| && q[i] == ev;
    assert i < sent;
    assert b[i] == ev;
  }

  lemma BatchGapFree(s: State, q: seq<Event>, sent: nat)
    requires Inv(s) && Enabled(s, Batch(q, sent)) && GapFree(s)
    ensures GapFree(Next(s, Batch(q, sent)))
  {
    var t := Next(s, Batch(q, sent));
    BatchSent(s, q, sent);
    LastOfJoin(s.start, Sent(s), q[..sent]);
    hide IsEventsSince, Increasing, Wanted, Next, LastOf, Sent, Enabled;
    forall ev | ev in t.visible && Wanted(t.kinds, ev) && t.start < ev.seqNo <= LastOf(t.start, Sent(t))
      ensures ev in Sent(t)
    {
      if ev.seqNo > s.cursor {
        BatchMissesNothing(s, q, sent, ev);
      } else {
        assert ev in Sent(s);
      }
    }
  }

  lemma AppearGap(s: State, ev: Event)
    requires Inv(s) && GapFree(s) && Enabled(s, Appear(ev))
    ensures GapFree(Next(s, Appear(ev))) <==> !Late(s, Appear(ev))
  {
    hide Increasing, LastOf, Wanted;
    var t := Next(s, Appear(ev));
    assert Sent(t) == Sent(s) && ev !in s.visible;
    if Late(s, Appear(ev)) {
      assert ev in t.visible && ev !in Sent(t);
    }
  }

  lemma ReceiveSent(s: State)
    requires Enabled(s, Receive)
    ensures var t := Next(s, Receive);
      Sent(t) == Sent(s) && t.visible == s.visible && t.kinds == s.kinds && t.start == s.start
  {}

  /** Losing what was in flight leaves no gap before it. */
  lemma CutGapFree(s: State, t: State)
    requires Inv(s) && GapFree(s) && t.received == s.received && t.flight == []
    requires t.visible == s.visible && t.kinds == s.kinds && t.start == s.start
    ensures GapFree(t)
  {
    Prefix(s);
    assert Sent(t) == s.received;
    LastBounds(s.start, s.received);
    LastBounds(s.start, Sent(s));
    forall ev | ev in s.visible && Wanted(s.kinds, ev) && s.start < ev.seqNo <= LastOf(s.start, s.received)
      ensures ev in s.received
    {
      var n := |s.received|;
      assert Sent(s)[n - 1] == s.received[n - 1] && Sent(s)[n - 1] in Sent(s);
      var j :| 0 <= j < |Sent(s)| && Sent(s)[j] == ev;
      assert j < n;
      assert s.received[j] == ev;
    }
  }

  /** A gap opens exactly when a wanted row becomes visible behind what was already sent; no
      batch boundary, failed send, broken connection or resumption opens one. */
  lemma GapExact(s: State, e: Step)
    requires Inv(s) && GapFree(s) && Enabled(s, e)
    ensures GapFree(Next(s, e)) <==> !Late(s, e)
  {
    hide Inv, Wanted, LastOf, Sent;
    match e
    case Appear(ev) => AppearGap(s, ev);
    case Batch(q, sent) => BatchGapFree(s, q, sent);
    case Receive => ReceiveSent(s);
    case Break => CutGapFree(s, Next(s, e));
    case Resume => CutGapFree(s, Next(s, e));
  }

  /** Sequence numbers become visible in increasing order. */
  ghost predicate InOrder(s: State, es: seq<Step>)
    requires Run(s, es)
    decreases |es|
  {
    es == [] ||
    ((es[0].Appear? ==> forall f :: f in s.visible ==> f.seqNo < es[0].event.seqNo)
     && InOrder(Next(s, es[0]), es[1..]))
  }

  lemma {:induction false} GapFreeRun(s: State, es: seq<Step>)
    requires Inv(s) && GapFree(s) && Run(s, es) && InOrder(s, es)
    ensures Inv(After(s, es)) && GapFree(After(s, es))
    decreases |es|
  {
    if es != [] {
      StepInv(s, es[0]);
      LastBounds(s.start, Sent(s));
      GapExact(s, es[0]);
      GapFreeRun(Next(s, es[0]), es[1..]);
    }
  }

  /** The batch read everything there was, and the client received everything sent. */
  ghost predicate CaughtUp(s: State) {
    s.open && s.flight == [] && forall ev :: ev in s.visible && Wanted(s.kinds, ev) ==> ev.seqNo <= s.cursor
  }

  /** Across batches, wake-ups, failed sends and reconnects: when the client has caught up, it has
      received every event of its kinds after its start, exactly once, in sequence order. */
  lemma ExactlyOnceInOrder(start: nat, kinds: seq<string>, es: seq<Step>)
    requires Run(Init(start, kinds), es) && InOrder(Init(start, kinds), es) && CaughtUp(After(Init(start, kinds), es))
    ensures var t := After(Init(start, kinds), es);
      && Increasing(t.received)
      && forall ev :: ev in t.received <==> ev in t.visible && Wanted(kinds, ev) && ev.seqNo > start
  {
    GapFreeRun(Init(start, kinds), es);
    var t := After(Init(start, kinds), es);
    FixedClient(Init(start, kinds), es);
    Prefix(t);
    assert Sent(t) == t.received;
  }

  lemma {:induction false} FixedClient(s: State, es: seq<Step>)
    requires Run(s, es)
    ensures After(s, es).start == s.start && After(s, es).kinds == s.kinds
    decreases |es|
  {
    if es != [] { FixedClient(Next(s, es[0]), es[1..]); }
  }

  // ---- event ids ----

  const MAX_INT64: nat := 0x7fff_ffff_ffff_ffff

  predicate IsDigit(c: char) { '0' <= c <= '9' }

  function Decimal(n: nat): string {
    (if n < 10 then "" else Decimal(n / 10)) + [('0' as int + n % 10) as char]
  }

  predicate AllDigits(s: string) {
    forall i :: 0 <= i < |s| ==> IsDigit(s[i])
  }

  function Value(s: string): nat
    requires AllDigits(s)
  {
    if s == "" then 0 else 10 * Value(s[..|s| - 1]) + (s[|s| - 1] as int - '0' as int)
  }

  datatype ParseError = Syntax | Range | Negative

  /** ParseInt base 10, 64 bits: an optional sign, then digits, in range. */
  function ParseInt(raw: string): Result<int, ParseError> {
    if raw == "" then Err(Syntax)
    else
      var digits := if raw[0] == '-' || raw[0] == '+' then raw[1..] else raw;
      if digits == "" || !AllDigits(digits) then Err(Syntax)
      else if raw[0] == '-' then (if Value(digits) > MAX_INT64 + 1 then Err(Range) else Ok(-(Value(digits) as int)))
      else if Value(digits) > MAX_INT64 then Err(Range)
      else Ok(Value(digits))
  }

  function ParseEventID(raw: string): Result<int, ParseError> {
    if raw == "" then Ok(0)
    else
      match ParseInt(raw)
      case Err(e) => Err(e)
      case Ok(v) => if v < 0 then Err(Negative) else Ok(v)
  }

  lemma {:induction false} DecimalDigits(n: nat)
    ensures AllDigits(Decimal(n)) && |Decimal(n)| > 0 && Value(Decimal(n)) == n
  {
    if n >= 10 {
      DecimalDigits(n / 10);
      assert Decimal(n)[..|Decimal(n)| - 1] == Decimal(n / 10);
    } else {
      assert Decimal(n)[..0] == "";
    }
  }

  /** The id sent with an event parses back to its sequence number, for every 64-bit one. */
  lemma EventIdRoundTrip(n: nat)
    ensures ParseEventID(Decimal(n)) == Ok(n) <==> n <= MAX_INT64
  {
    DecimalDigits(n);
    assert IsDigit(Decimal(n)[0]);
  }

  /** Whatever is accepted is a cursor. */
  lemma EventIdInRange(raw: string)
    ensures ParseEventID(raw).Ok? ==> 0 <= ParseEventID(raw).value <= MAX_INT64
  {}
}
