/** The Subscribe call as the program runs it: catch up in batches, wait, catch up again. Every
    path through it is a run of the stream's state machine. */
module LifecycleStream {
  import opened Domain
  import opened Lifecycle

  const ALLOWED_KINDS: set<string> := {"nlb_load_balancer", "nlb_listener", "nlb_target_group"}

  datatype Failure = InvalidArgument | ResourceExhausted | Internal | SendFailed | Unavailable

  /** One round of streamSince: the query's error if any, and how many sends succeed. */
  datatype Round = Canceled | QueryFails | Sends(succeed: nat)

  datatype Wake = Notified | TimedOut | ClientGone | ConnectionLost

  type StreamId = nat

  lemma {:induction false} RunExtend(s: State, es: seq<Step>, e: Step)
    requires Run(s, es) && Enabled(After(s, es), e)
    ensures Run(s, es + [e]) && After(s, es + [e]) == Next(After(s, es), e)
    decreases |es|
  {
    if es == [] {
      assert [e][1..] == [];
    } else {
      assert (es + [e])[1..] == es[1..] + [e];
      RunExtend(Next(s, es[0]), es[1..], e);
    }
  }

  /** The queries made. */
  function Queries(es: seq<Step>): nat {
    if es == [] then 0 else Queries(es[..|es| - 1]) + (if es[|es| - 1].Batch? then 1 else 0)
  }

  lemma OneMoreStep(es: seq<Step>, e: Step)
    ensures Queries(es + [e]) == Queries(es) + (if e.Batch? then 1 else 0)
  {
    assert (es + [e])[..|es|] == es;
  }

  /** The last step is a batch that a send cut short. */
  predicate CutShort(es: seq<Step>) {
    es != [] && es[|es| - 1].Batch? && es[|es| - 1].sent < |es[|es| - 1].query|
  }

  /** The last step is a batch of fewer than n events, wholly sent. */
  predicate CutOff(es: seq<Step>, n: nat) {
    es != [] && es[|es| - 1].Batch? && es[|es| - 1].sent == |es[|es| - 1].query| < n
  }

  predicate SomeQueryFails(rounds: seq<Round>) {
    exists k :: 0 <= k < |rounds| && rounds[k].QueryFails?
  }

  /** A wake-up that leads to a new read. */
  predicate Reads(w: Wake) {
    w in {Notified, TimedOut}
  }

  /** The wake-ups whose first query is answered. */
  function Answered(wakes: seq<(Wake, seq<Round>)>): nat {
    if wakes == [] then 0
    else
      var w := wakes[|wakes| - 1];
      Answered(wakes[..|wakes| - 1]) + (if Reads(w.0) && w.1 != [] && w.1[0].Sends? then 1 else 0)
  }

  /** Nothing wanted is visible past the cursor. */
  ghost predicate Drained(s: State) {
    forall ev :: ev in s.visible && Wanted(s.kinds, ev) ==> ev.seqNo <= s.cursor
  }

  /** The slots for concurrent streams; `holders` says who has one. */
  class Semaphore {
    const capacity: nat
    var held: nat
    ghost var holders: set<StreamId>

    ghost predicate Valid()
      reads this
    {
      held == |holders| <= capacity
    }

    constructor (capacity: nat)
      requires capacity > 0
      ensures Valid() && holders == {} && this.capacity == capacity
    {
      this.capacity, held, holders := capacity, 0, {};
    }

    method TryAcquire(ghost id: StreamId) returns (ok: bool)
      requires Valid() && id !in holders
      modifies this
      ensures Valid() && ok == (|old(holders)| < capacity)
      ensures holders == if ok then old(holders) + {id} else old(holders)
    {
      if held < capacity {
        held, holders := held + 1, holders + {id};
        return true;
      }
      return false;
    }

    method Release(ghost id: StreamId)
      requires Valid() && id in holders
      modifies this
      ensures Valid() && holders == old(holders) - {id}
    {
      held, holders := held - 1, holders - {id};
    }
  }

  /** The request is refused before a slot is taken. */
  predicate Rejected(kinds: seq<string>, resume: string) {
    (exists k :: k in kinds && k !in ALLOWED_KINDS) || ParseEventID(resume).Err?
  }

  class Stream {
    const id: StreamId
    const sem: Semaphore
    var st: State
    ghost var first: State
    ghost var trace: seq<Step>

    /** The stream is open only while it holds a slot. */
    ghost predicate Valid()
      reads this, sem
    {
      && Inv(st) && Run(first, trace) && After(first, trace) == st && DistinctNumbers(st.visible)
      && sem.Valid() && (st.open ==> id in sem.holders)
    }

    constructor (id: StreamId, sem: Semaphore, start: nat, kinds: seq<string>)
      requires sem.Valid()
      ensures this.id == id && this.sem == sem && st == Init(start, kinds) && trace == [] && first == st
      ensures Valid()
    {
      this.id, this.sem := id, sem;
      st, first, trace := Init(start, kinds), Init(start, kinds), [];
    }

    /** Rows appear, the client receives, other streams start and end. The caller relies on the
        contract only. */
    method Yield()
      requires Valid()
      modifies this`st, this`trace, sem
      ensures Valid() && old(trace) <= trace && (id in sem.holders <==> id in old(sem.holders))
      ensures st.open == old(st.open) && st.cursor == old(st.cursor)
      ensures st.kinds == old(st.kinds) && st.start == old(st.start)
      ensures Queries(trace) == Queries(old(trace))
    {
    }

    method Do(e: Step)
      requires Valid() && Enabled(st, e) && (e.Resume? ==> id in sem.holders)
      requires DistinctNumbers(Next(st, e).visible)
      modifies this`st, this`trace
      ensures Valid() && st == Next(old(st), e) && trace == old(trace) + [e]
    {
      RunExtend(first, trace, e);
      StepInv(st, e);
      st := Next(st, e);
      trace := trace + [e];
    }

    /** The query: the next rows after the cursor in sequence order, at most a batch. */
    method EventsSince() returns (q: seq<Event>)
      requires Valid()
      ensures IsEventsSince(st.visible, st.cursor, st.kinds, CATCHUP_BATCH_SIZE, q)
    {
      q := [];
      var rest := set ev | ev in st.visible && Wanted(st.kinds, ev) && ev.seqNo > st.cursor;
      while rest != {} && |q| < CATCHUP_BATCH_SIZE
        invariant |q| <= CATCHUP_BATCH_SIZE && Increasing(q)
        invariant forall ev ::
          ev in st.visible && Wanted(st.kinds, ev) && ev.seqNo > st.cursor <==> ev in rest || ev in q
        invariant forall ev, f :: ev in rest && f in q ==> f.seqNo < ev.seqNo
        decreases rest
      {
        LeastExists(rest);
        var least :| least in rest && forall f :: f in rest ==> least.seqNo <= f.seqNo;
        AppendIncreasing(q, least);
        q := q + [least];
        rest := rest - {least};
      }
    }

    /** One query and its sends, up to the first that fails; the cursor follows the last event
        sent. */
    method SendBatch(succeed: nat) returns (ghost batch: seq<Event>, cursor: nat, sentAll: bool, full: bool)
      requires Valid() && st.open
      modifies this`st, this`trace
      ensures Valid() && st.kinds == old(st.kinds) && st.start == old(st.start)
      ensures trace == old(trace) + [Batch(batch, if |batch| < succeed then |batch| else succeed)]
      ensures IsEventsSince(old(st).visible, old(st).cursor, old(st).kinds, CATCHUP_BATCH_SIZE, batch)
      ensures var sent := if |batch| < succeed then |batch| else succeed;
        && st.flight == old(st).flight + batch[..sent] && sentAll == (sent == |batch|)
        && cursor == LastOf(old(st).cursor, batch[..sent])
      ensures cursor == st.cursor && full == (|batch| == CATCHUP_BATCH_SIZE) && st.open == sentAll
      ensures sentAll && !full ==> Drained(st)
    {
      hide Inv, Run, After, IsEventsSince, DistinctNumbers;
      var events := EventsSince();
      batch := events;
      var sent := 0;
      cursor := st.cursor;
      while sent < |events| && sent < succeed
        invariant sent <= |events| && sent <= succeed && cursor == LastOf(st.cursor, events[..sent])
      {
        cursor := events[sent].seqNo;
        sent := sent + 1;
        assert events[..sent][sent - 1] == events[sent - 1];
      }
      ghost var before := st;
      Do(Batch(events, sent));
      sentAll, full := sent == |events|, |events| == CATCHUP_BATCH_SIZE;
      if sentAll && !full {
        AtMostABatch(before, events);
        DrainedAfter(before, events);
      }
    }

    /** Batches until one is not full. Ok means the context ended or nothing is left to send; the
        rounds end with the context at the latest. The first `done` rounds were full batches, wholly
        sent; the next one decides the result. */
    method StreamSince(rounds: seq<Round>) returns (r: Result<bool, Failure>, ghost done: nat)
      requires Valid() && st.open && rounds != [] && rounds[|rounds| - 1] == Canceled
      modifies this`st, this`trace, sem
      ensures Valid() && old(trace) <= trace && st.kinds == old(st.kinds) && st.start == old(st.start)
      ensures id in sem.holders <==> id in old(sem.holders)
      ensures done < |rounds|
      ensures forall j :: 0 <= j < done ==> rounds[j].Sends? && rounds[j].succeed >= 100
      ensures Queries(trace) == Queries(old(trace)) + done + (if rounds[done].Sends? then 1 else 0)
      ensures r == Ok(false) <==> rounds[done] == Canceled
      ensures r == Err(Internal) <==> rounds[done] == QueryFails
      ensures r == Ok(true) <==> rounds[done].Sends? && st.open
      ensures r == Ok(true) ==> Drained(st) && CutOff(trace, 100)
      ensures r == Err(SendFailed) <==> rounds[done].Sends? && !st.open
      ensures r == Err(SendFailed) ==> CutShort(trace) && trace[|trace| - 1].sent == rounds[done].succeed
      ensures r.Ok? ==> st.open
    {
      hide Run, After, Inv, DistinctNumbers, Drained, Queries;
      var i := 0;
      while true
        invariant i < |rounds| && Valid() && st.open && old(trace) <= trace
        invariant st.kinds == old(st.kinds) && st.start == old(st.start)
        invariant id in sem.holders <==> id in old(sem.holders)
        invariant forall j :: 0 <= j < i ==> rounds[j].Sends? && rounds[j].succeed >= CATCHUP_BATCH_SIZE
        invariant Queries(trace) == Queries(old(trace)) + i
        decreases |rounds| - i
      {
        Yield();
        if rounds[i].Canceled? { return Ok(false), i; }
        if rounds[i].QueryFails? { return Err(Internal), i; }
        ghost var batch, before := [], trace;
        var cursor, sentAll, full;
        batch, cursor, sentAll, full := SendBatch(rounds[i].succeed);
        OneMoreStep(before, trace[|trace| - 1]);
        if !sentAll { return Err(SendFailed), i; }
        if !full { return Ok(true), i; }
        i := i + 1;
      }
    }

    /** A subscription: validation first, then a slot, the catch-up, and one catch-up per wake-up.
        It ends with the connection closed and the slot given back; a rejected request, or one
        that finds all slots taken, opens no connection and takes no slot. */
    method Subscribe(kinds: seq<string>, resume: string, feedOpens: bool, catchup: seq<Round>,
                     wakes: seq<(Wake, seq<Round>)>)
      returns (r: Result<(), Failure>)
      requires Valid() && !st.open && id !in sem.holders && kinds == st.kinds
      requires catchup != [] && catchup[|catchup| - 1] == Canceled
      requires forall w :: w in wakes ==> w.1 != [] && w.1[|w.1| - 1] == Canceled
      requires ParseEventID(resume) == Ok(LastOf(st.start, st.received)) || ParseEventID(resume).Err?
      modifies this`st, this`trace, sem
      ensures Valid() && !st.open && id !in sem.holders && old(trace) <= trace
      ensures Rejected(kinds, resume) <==> r == Err(InvalidArgument)
      ensures r == Err(ResourceExhausted) <==> !Rejected(kinds, resume) && |old(sem.holders)| == sem.capacity
      ensures r in {Err(InvalidArgument), Err(ResourceExhausted)} ==>
        trace == old(trace) && sem.holders == old(sem.holders)
      ensures !Rejected(kinds, resume) && |old(sem.holders)| < sem.capacity ==>
        if feedOpens then Conversed(old(trace), trace, catchup, wakes, r)
        else r == Err(Unavailable) && trace == old(trace)
    {
      for i := 0 to |kinds|
        invariant forall j :: 0 <= j < i ==> kinds[j] in ALLOWED_KINDS
      {
        if kinds[i] !in ALLOWED_KINDS { return Err(InvalidArgument); }
      }
      if ParseEventID(resume).Err? { return Err(InvalidArgument); }
      var acquired := sem.TryAcquire(id);
      if !acquired { return Err(ResourceExhausted); }
      if !feedOpens {
        sem.Release(id);
        return Err(Unavailable);
      }
      r := Converse(catchup, wakes);
      sem.Release(id);
    }

    /** The open connection, from its first catch-up to its end. */
    method Converse(catchup: seq<Round>, wakes: seq<(Wake, seq<Round>)>) returns (r: Result<(), Failure>)
      requires Valid() && !st.open && id in sem.holders
      requires catchup != [] && catchup[|catchup| - 1] == Canceled
      requires forall w :: w in wakes ==> w.1 != [] && w.1[|w.1| - 1] == Canceled
      modifies this`st, this`trace, sem
      ensures Valid() && !st.open && id in sem.holders && old(trace) <= trace
      ensures Conversed(old(trace), trace, catchup, wakes, r)
    {
      hide Run, After, Inv, DistinctNumbers, Queries, Answered;
      ghost var before := trace;
      Do(Resume);
      ghost var resumed := trace;
      var result;
      ghost var done;
      result, done := StreamSince(catchup);
      ghost var served := 0;
      if result.Ok? { result, served := WaitAndStream(wakes); }
      ghost var streamed := trace;
      Do(Break);
      OneMoreStep(before, Resume);
      OneMoreStep(streamed, Break);
      assert trace[|before|] == resumed[|before|] && trace[..|trace| - 1] == streamed;
      assert result.Ok? ==> EndsAt(wakes, served);
      r := if result.Ok? then Ok(()) else Err(result.error);
    }

    /** The wait loop: NOTIFY and the idle timeout both lead to a new read after the cursor. The
        first `served` wake-ups did; the next one, if any, ends the call. */
    method WaitAndStream(wakes: seq<(Wake, seq<Round>)>) returns (result: Result<bool, Failure>, ghost served: nat)
      requires Valid() && st.open
      requires forall w :: w in wakes ==> w.1 != [] && w.1[|w.1| - 1] == Canceled
      modifies this`st, this`trace, sem
      ensures Valid() && old(trace) <= trace && (id in sem.holders <==> id in old(sem.holders))
      ensures served <= |wakes| && forall j :: 0 <= j < served ==> Reads(wakes[j].0)
      ensures Queries(trace) >= Queries(old(trace)) + Answered(wakes[..served])
      ensures result.Ok? <==> served == |wakes| || wakes[served].0 == ClientGone
      ensures result == Err(Unavailable) <==> served < |wakes| && wakes[served].0 == ConnectionLost
      ensures result == Err(Internal) ==> served < |wakes| && SomeQueryFails(wakes[served].1)
      ensures result == Err(SendFailed) ==> CutShort(trace)
      ensures result.Err? ==> result.error in {Unavailable, Internal, SendFailed}
    {
      hide Run, After, Inv, DistinctNumbers, Drained, Queries, Answered, SomeQueryFails, CutShort;
      var i := 0;
      NoneAnswered(wakes);
      while i < |wakes|
        invariant i <= |wakes| && Valid() && old(trace) <= trace && st.open
        invariant id in sem.holders <==> id in old(sem.holders)
        invariant forall j :: 0 <= j < i ==> Reads(wakes[j].0)
        invariant Queries(trace) >= Queries(old(trace)) + Answered(wakes[..i])
      {
        Yield();
        var wake := wakes[i].0;
        if wake == ClientGone { return Ok(false), i; }
        if wake == ConnectionLost { return Err(Unavailable), i; }
        assert wakes[i] in wakes;
        ghost var done;
        result, done := StreamSince(wakes[i].1);
        if result.Err? {
          FailedQuery(wakes[i].1, done);
          return result, i;
        }
        OneMoreWake(wakes, i);
        i := i + 1;
      }
      return Ok(false), i;
    }
  }

  lemma FailedQuery(rounds: seq<Round>, k: nat)
    requires k < |rounds|
    ensures rounds[k] == QueryFails ==> SomeQueryFails(rounds)
  {}

  lemma NoneAnswered(wakes: seq<(Wake, seq<Round>)>)
    ensures Answered(wakes[..0]) == 0
  {}

  lemma OneMoreWake(wakes: seq<(Wake, seq<Round>)>, i: nat)
    requires i < |wakes| && Reads(wakes[i].0) && wakes[i].1 != []
    ensures Answered(wakes[..i + 1]) == Answered(wakes[..i]) + (if wakes[i].1[0].Sends? then 1 else 0)
  {
    assert wakes[..i + 1][..i] == wakes[..i];
  }

  /** A connection is one Resume, what the rounds make of it, and one Break. A failure has its reason
      in what the peers did: a lost connection, a failed query, or a send cut short; without one, every
      wake-up was followed by a new read. */
  ghost predicate Conversed(before: seq<Step>, trace: seq<Step>, catchup: seq<Round>, wakes: seq<(Wake, seq<Round>)>,
                            r: Result<(), Failure>)
  {
    && |before| + 2 <= |trace| && before <= trace
    && trace[|before|] == Resume && trace[|trace| - 1] == Break
    && (r == Err(Unavailable) ==> exists i :: 0 <= i < |wakes| && wakes[i].0 == ConnectionLost)
    && (r == Err(Internal) ==>
          SomeQueryFails(catchup) || exists i :: 0 <= i < |wakes| && SomeQueryFails(wakes[i].1))
    && (r == Err(SendFailed) ==> CutShort(trace[..|trace| - 1]))
    && (r.Err? ==> r.error in {Unavailable, Internal, SendFailed})
    && (r.Ok? ==> exists n ::
          && 0 <= n <= |wakes| && EndsAt(wakes, n) && catchup != []
          && Queries(trace) >= Queries(before) + (if catchup[0].Sends? then 1 else 0) + Answered(wakes[..n]))
  }

  /** The first n wake-ups lead to new reads, and then the client goes or nothing more happens. */
  predicate EndsAt(wakes: seq<(Wake, seq<Round>)>, n: nat)
    requires n <= |wakes|
  {
    (forall j :: 0 <= j < n ==> Reads(wakes[j].0)) && (n == |wakes| || wakes[n].0 == ClientGone)
  }

  ghost predicate DistinctNumbers(visible: set<Event>) {
    forall e, f :: e in visible && f in visible && e.seqNo == f.seqNo ==> e == f
  }

  lemma AtMostABatch(s: State, events: seq<Event>)
    requires Enabled(s, Batch(events, |events|))
    ensures |events| <= CATCHUP_BATCH_SIZE
  {}

  /** A batch that was not full, wholly sent, leaves nothing behind the cursor. */
  lemma DrainedAfter(s: State, events: seq<Event>)
    requires Enabled(s, Batch(events, |events|)) && |events| < CATCHUP_BATCH_SIZE
    ensures Drained(Next(s, Batch(events, |events|)))
  {}

  lemma AppendIncreasing(q: seq<Event>, e: Event)
    requires Increasing(q) && forall f :: f in q ==> f.seqNo < e.seqNo
    ensures Increasing(q + [e])
  {}

  lemma {:induction false} LeastExists(some: set<Event>)
    requires some != {}
    ensures exists e :: e in some && forall f :: f in some ==> e.seqNo <= f.seqNo
    decreases some
  {
    var e :| e in some;
    var rest := some - {e};
    assert forall f :: f in some ==> f == e || f in rest;
    if rest != {} {
      LeastExists(rest);
      var m :| m in rest && forall f :: f in rest ==> m.seqNo <= f.seqNo;
      var best := if e.seqNo <= m.seqNo then e else m;
      assert best in some && forall f :: f in some ==> best.seqNo <= f.seqNo;
    }
  }
}
