/** One replica's tick as the program runs it: `reconcileOnce` over `reconcileOne`, while other
    replicas and writers act at every point where the replica waits. */
module FreeIpRunner {
  import opened Domain
  import opened FreeIpQueue
  import Vpc

  const MAX_PER_TICK := 100

  datatype Error = Unavailable | Canceled | DeadlineExceeded | InvalidArg | FailedPrecondition | Database

  datatype Outcome = Idle | WasReconciled | WasPoisoned

  /** One family of the claimed row: the bound address, and what the address service answers to the
      two calls of its release. */
  datatype Bound = Bound(vip: Option<Vip>, clear: Option<Error>, free: Option<Error>)

  /** What one round meets: the claim's own error, the row's families, and the error of the
      statements that end the claim. */
  datatype Turn = Turn(claim: Option<Error>, v4: Bound, v6: Bound, database: Option<Error>)

  predicate IsTransientReleaseErr(e: Error) {
    e in {Unavailable, Canceled, DeadlineExceeded}
  }

  /** The calls a family's release makes: its plan, up to the first that fails. */
  function Made(b: Bound): seq<Vpc.Call> {
    if b.vip == None then []
    else if b.clear.Some? then Vpc.RunnerRelease(b.vip.value)[..1]
    else Vpc.RunnerRelease(b.vip.value)
  }

  function ReleaseError(b: Bound): Option<Error> {
    if b.vip == None then None
    else if b.clear.Some? then b.clear
    else if b.vip.value.origin != Linked then b.free else None
  }

  /** The calls of a claimed row: the second family is not touched when the first one failed. */
  function MadeInTurn(turn: Turn): seq<Vpc.Call> {
    Made(turn.v4) + (if ReleaseError(turn.v4).Some? then [] else Made(turn.v6))
  }

  /** The result of a claimed row: the first failing family decides, then the database. */
  function Verdict(turn: Turn): Result<Outcome, Error> {
    if ReleaseError(turn.v4).Some? then HandleReleaseErr(ReleaseError(turn.v4).value, turn.database)
    else if ReleaseError(turn.v6).Some? then HandleReleaseErr(ReleaseError(turn.v6).value, turn.database)
    else if turn.database.Some? then Err(turn.database.value)
    else Ok(WasReconciled)
  }

  /** The error a round ends the tick with. */
  function TurnError(turn: Turn): Option<Error> {
    if turn.claim.Some? then turn.claim
    else if Verdict(turn).Err? then Some(Verdict(turn).error) else None
  }

  // ---- a round in terms of the answers it gets ----

  /** ClearReference, and FreeIP unless the address is linked, were answered with success. */
  predicate Answered(b: Bound) {
    b.vip.Some? ==> b.clear == None && (b.vip.value.origin == Linked || b.free == None)
  }

  /** The family's release ends with e: the first of its calls that fails. */
  predicate FamilyFails(b: Bound, e: Error) {
    b.vip.Some? && (b.clear == Some(e) || (b.clear == None && b.vip.value.origin != Linked && b.free == Some(e)))
  }

  /** e is the first answer of the round that is an error. */
  predicate FailsFirst(turn: Turn, e: Error) {
    FamilyFails(turn.v4, e) || (Answered(turn.v4) && FamilyFails(turn.v6, e))
  }

  /** A row is reconciled exactly when every call was answered and the database took it; it is
      poisoned exactly when the first failing answer is permanent and the database took the bump;
      in every other round the error is the first failing answer when that is transient, else the
      database's. */
  lemma VerdictExact(turn: Turn)
    ensures Verdict(turn) == Ok(WasReconciled) <==>
      Answered(turn.v4) && Answered(turn.v6) && turn.database == None
    ensures Verdict(turn) == Ok(WasPoisoned) <==>
      turn.database == None && exists e :: e in {InvalidArg, FailedPrecondition, Database} && FailsFirst(turn, e)
    ensures forall e :: Verdict(turn) == Err(e) <==>
      || (e in {Unavailable, Canceled, DeadlineExceeded} && FailsFirst(turn, e))
      || (turn.database == Some(e)
          && !exists f :: f in {Unavailable, Canceled, DeadlineExceeded} && FailsFirst(turn, f))
  {
    hide ReleaseError, Answered, FamilyFails;
    FamilyExact(turn.v4);
    FamilyExact(turn.v6);
    var first := if ReleaseError(turn.v4).Some? then ReleaseError(turn.v4) else ReleaseError(turn.v6);
    assert forall e :: FailsFirst(turn, e) <==> first == Some(e);
    if first.Some? {
      assert FailsFirst(turn, first.value);
      match first.value { case Unavailable => case Canceled => case DeadlineExceeded => case _ => }
    }
  }

  lemma FamilyExact(b: Bound)
    ensures Answered(b) <==> ReleaseError(b) == None
    ensures forall e :: FamilyFails(b, e) <==> ReleaseError(b) == Some(e)
  {}

  /** The calls of a release that is not interrupted. */
  function Plan(b: Bound): seq<Vpc.Call> {
    if b.vip == None then []
    else [Vpc.ClearReference(b.vip.value.addr)]
         + if b.vip.value.origin == Linked then [] else [Vpc.FreeIP(b.vip.value.addr)]
  }

  /** A family's calls stop before the call that follows a failure; the second family's are made
      exactly when the first one's all were answered. A reconciled row had every call made. */
  lemma ReconciledIsReleased(turn: Turn)
    ensures Made(turn.v4) == Plan(turn.v4)[..if turn.v4.vip.Some? && turn.v4.clear.Some? then 1 else |Plan(turn.v4)|]
    ensures Made(turn.v6) == Plan(turn.v6)[..if turn.v6.vip.Some? && turn.v6.clear.Some? then 1 else |Plan(turn.v6)|]
    ensures MadeInTurn(turn) == Made(turn.v4) + if Answered(turn.v4) then Made(turn.v6) else []
    ensures Verdict(turn) == Ok(WasReconciled) ==> MadeInTurn(turn) == Plan(turn.v4) + Plan(turn.v6)
  {
    FamilyExact(turn.v4);
    FamilyExact(turn.v6);
  }

  function HandleReleaseErr(e: Error, database: Option<Error>): Result<Outcome, Error> {
    if IsTransientReleaseErr(e) then Err(e)
    else if database.Some? then Err(database.value)
    else Ok(WasPoisoned)
  }

  // ---- traces ----

  predicate By(e: Event, me: Replica) {
    match e
    case Claim(i, _) => i == me
    case Reconciled(i) => i == me
    case Poisoned(i) => i == me
    case RolledBack(i) => i == me
    case _ => false
  }

  function Mine(es: seq<Event>, me: Replica): seq<Event> {
    if es == [] then [] else (if By(es[0], me) then [es[0]] else []) + Mine(es[1..], me)
  }

  lemma {:induction false} MineConcat(a: seq<Event>, b: seq<Event>, me: Replica)
    ensures Mine(a + b, me) == Mine(a, me) + Mine(b, me)
  {
    if a == [] {
      assert a + b == b;
    } else {
      var rest := a[1..];
      var head := if By(a[0], me) then [a[0]] else [];
      assert (a + b)[0] == a[0] && (a + b)[1..] == rest + b;
      MineConcat(rest, b, me);
      assert Mine(a + b, me) == head + (Mine(rest, me) + Mine(b, me));
      assert Mine(a, me) == head + Mine(rest, me);
    }
  }

  lemma {:induction false} RunConcat(q: Queue, a: seq<Event>, b: seq<Event>)
    requires Run(q, a) && Run(After(q, a), b)
    ensures Run(q, a + b) && After(q, a + b) == After(After(q, a), b)
    decreases |a|
  {
    if a == [] {
      assert a + b == b;
    } else {
      assert (a + b)[1..] == a[1..] + b;
      RunConcat(Next(q, a[0]), a[1..], b);
    }
  }

  lemma RunOne(q: Queue, e: Event)
    requires Enabled(q, e)
    ensures Run(q, [e]) && After(q, [e]) == Next(q, e)
  {}

  /** How a row's claim shows in the replica's own events. */
  predicate Round(es: seq<Event>, me: Replica, result: Result<Outcome, Error>) {
    match result
    case Ok(Idle) => es == []
    case Ok(WasReconciled) => |es| == 2 && es[0].Claim? && es[0].replica == me && es[1] == Reconciled(me)
    case Ok(WasPoisoned) => |es| == 2 && es[0].Claim? && es[0].replica == me && es[1] == Poisoned(me)
    // the claim itself may fail
    case Err(_) => es == [] || (|es| == 2 && es[0].Claim? && es[0].replica == me && es[1] == RolledBack(me))
  }

  function Count(es: seq<Event>, me: Replica): nat {
    if es == [] then 0 else (if es[0] == Reconciled(me) then 1 else 0) + Count(es[1..], me)
  }

  lemma {:induction false} CountConcat(a: seq<Event>, b: seq<Event>, me: Replica)
    ensures Count(a + b, me) == Count(a, me) + Count(b, me)
  {
    if a == [] {
      assert a + b == b;
    } else {
      assert (a + b)[1..] == a[1..] + b;
      CountConcat(a[1..], b, me);
    }
  }

  lemma RoundCount(es: seq<Event>, me: Replica, result: Result<Outcome, Error>)
    requires Round(es, me, result)
    ensures Count(es, me) == if result == Ok(WasReconciled) then 1 else 0
  {
    if |es| == 2 {
      assert es[1..][1..] == [];
      assert Count(es, me) == Count(es[1..], me);
      assert Count(es[1..], me) == (if es[1] == Reconciled(me) then 1 else 0) + Count(es[1..][1..], me);
    }
  }

  lemma {:induction false} NotMine(es: seq<Event>, me: Replica)
    requires Mine(es, me) == []
    ensures forall k :: 0 <= k < |es| ==> !By(es[k], me)
  {
    if es != [] {
      NotMine(es[1..], me);
      forall k | 0 <= k < |es| ensures !By(es[k], me) {
        assert k > 0 ==> es[k] == es[1..][k - 1];
      }
    }
  }

  /** A rollback of this replica is the end of what it does. */
  predicate RollsBackLast(es: seq<Event>, me: Replica) {
    forall x, y :: 0 <= x < y < |es| && es[x] == RolledBack(me) ==> !By(es[y], me)
  }

  /** Of two claims of one row by this replica, another writer wrote the row in between. */
  ghost predicate ClaimsDistinctRows(es: seq<Event>, me: Replica) {
    forall x, y :: 0 <= x < y < |es| && es[x].Claim? && es[x].replica == me && es[y] == es[x] ==>
      TouchedWithin(es, es[x].row, x, y)
  }

  ghost predicate TouchedWithin(es: seq<Event>, row: LbId, x: nat, y: nat) {
    exists z :: x < z < y && z < |es| && es[z].Touched? && es[z].row == row
  }

  lemma {:induction false} RunSplit(q: Queue, es: seq<Event>, n: nat)
    requires Run(q, es) && n <= |es|
    ensures Run(q, es[..n]) && Run(After(q, es[..n]), es[n..])
    ensures After(After(q, es[..n]), es[n..]) == After(q, es)
    decreases n
  {
    hide Enabled, Next;
    if n == 0 {
      assert es[..0] == [] && es[0..] == es;
    } else {
      RunSplit(Next(q, es[0]), es[1..], n - 1);
      assert es[..n][0] == es[0] && es[..n][1..] == es[1..][..n - 1] && es[1..][n - 1..] == es[n..];
    }
  }

  lemma {:induction false} InvRun(q: Queue, es: seq<Event>)
    requires Inv(q) && Run(q, es)
    ensures Inv(After(q, es)) && After(q, es).age == q.age
    decreases |es|
  {
    hide Inv, Enabled, Next;
    if es != [] {
      StepInv(q, es[0]);
      AgeOf(q, es[0]);
      InvRun(Next(q, es[0]), es[1..]);
    }
  }

  /** A run that ends within the age threshold. */
  lemma ClaimsOfRun(q: Queue, es: seq<Event>, me: Replica)
    requires Inv(q) && Run(q, es) && RollsBackLast(es, me) && After(q, es).now <= q.now + q.age
    ensures ClaimsDistinctRows(es, me)
  {
    hide Inv, Run, After, RollsBackLast, TouchedWithin;
    forall x, y | 0 <= x < y < |es| && es[x].Claim? && es[x].replica == me && es[y] == es[x]
      ensures TouchedWithin(es, es[x].row, x, y)
    {
      ClaimOfRun(q, es, me, x, y);
    }
  }

  lemma ClaimOfRun(q: Queue, es: seq<Event>, me: Replica, x: nat, y: nat)
    requires Inv(q) && Run(q, es) && RollsBackLast(es, me) && After(q, es).now <= q.now + q.age
    requires x < y < |es| && es[x].Claim? && es[x].replica == me && es[y] == es[x]
    ensures TouchedWithin(es, es[x].row, x, y)
  {
    hide Inv, Run, After;
    if !TouchedWithin(es, es[x].row, x, y) {
      forall z | x < z <= y ensures Clean(es[z], me, es[x].row) { CleanBetween(es, me, x, y, z); }
      NoSecondClaim(q, es, me, x, y);
    }
  }

  predicate Clean(e: Event, me: Replica, row: LbId) {
    e != RolledBack(me) && !(e.Touched? && e.row == row)
  }

  lemma NoSecondClaim(q: Queue, es: seq<Event>, me: Replica, x: nat, y: nat)
    requires Inv(q) && Run(q, es) && After(q, es).now <= q.now + q.age
    requires x < y < |es| && es[x].Claim? && es[x].replica == me
    requires forall z :: x < z <= y ==> Clean(es[z], me, es[x].row)
    ensures !(es[y].Claim? && es[y].row == es[x].row)
  {
    hide Inv, Run, After, Enabled, Next;
    CutAt(q, es, x, y);
    var tail := es[x + 1..y + 1];
    forall k | 0 <= k < |tail| ensures tail[k] != RolledBack(me) && !(tail[k].Touched? && tail[k].row == es[x].row) {
      assert tail[k] == es[x + 1 + k] && Clean(es[x + 1 + k], me, es[x].row);
    }
    NotClaimedAgain(After(q, es[..x]), me, es[x].row, tail);
    assert tail[y - x - 1] == es[y];
  }

  lemma CleanBetween(es: seq<Event>, me: Replica, x: nat, y: nat, z: nat)
    requires RollsBackLast(es, me) && x < z <= y < |es| && es[y].Claim? && es[y].replica == me
    requires !TouchedWithin(es, es[y].row, x, y)
    ensures Clean(es[z], me, es[y].row)
  {}

  /** The run, cut before the event at x and after the event at y. */
  lemma CutAt(q: Queue, es: seq<Event>, x: nat, y: nat)
    requires Inv(q) && Run(q, es) && x < y < |es| && After(q, es).now <= q.now + q.age
    ensures Run(q, es[..x])
    ensures var p := After(q, es[..x]);
      && Inv(p) && Enabled(p, es[x]) && Run(Next(p, es[x]), es[x + 1..y + 1])
      && After(Next(p, es[x]), es[x + 1..y + 1]).now <= p.now + p.age
  {
    hide Inv, Run, After, Enabled, Next;
    var head := es[..y + 1];
    RunSplit(q, es, y + 1);
    TimePasses(After(q, head), es[y + 1..]);
    RunSplit(q, head, x);
    assert head[..x] == es[..x] && head[x..] == [es[x]] + es[x + 1..y + 1];
    InvRun(q, es[..x]);
    TimePasses(q, es[..x]);
    FirstOf(After(q, es[..x]), head[x..], es[x], es[x + 1..y + 1]);
  }

  lemma FirstOf(p: Queue, tail: seq<Event>, e: Event, rest: seq<Event>)
    requires Run(p, tail) && tail == [e] + rest
    ensures Enabled(p, e) && Run(Next(p, e), rest) && After(Next(p, e), rest) == After(p, tail)
  {
    assert tail[1..] == rest;
  }

  /** How a claim ends. */
  function EndOf(me: Replica, result: Result<Outcome, Error>): Event {
    if result == Ok(WasReconciled) then Reconciled(me) else if result.Ok? then Poisoned(me) else RolledBack(me)
  }

  predicate NoneClaimable(q: Queue) {
    forall row :: row in q.rows ==> !Claimable(q, row)
  }

  class Runner {
    const me: Replica
    const vpcConfigured: bool
    var queue: Queue
    ghost var start: Queue
    ghost var trace: seq<Event>
    ghost var calls: seq<Vpc.Call>   // the remote calls made so far

    /** The table is what the events so far made of it. */
    ghost predicate Valid()
      reads this
    {
      Inv(queue) && Run(start, trace) && After(start, trace) == queue
    }

    constructor (me: Replica, vpcConfigured: bool, queue: Queue)
      requires Inv(queue)
      ensures this.queue == queue && this.me == me && trace == [] && calls == []
      ensures Valid()
    {
      this.me, this.vpcConfigured, this.queue := me, vpcConfigured, queue;
      start, trace, calls := queue, [], [];
    }

    /** Anything the other replicas and writers do while this one waits. The caller may rely on
        the contract only. */
    method Yield()
      requires Valid()
      modifies this`queue, this`trace
      ensures Valid() && old(trace) <= trace
      ensures Mine(trace[|old(trace)|..], me) == []
      ensures me in queue.claims <==> me in old(queue.claims)
      ensures me in queue.claims ==> queue.claims[me] == old(queue.claims[me])
    {
      assert trace[|trace|..] == [];
    }

    /** This replica's own step. */
    method Do(e: Event)
      requires Valid() && Enabled(queue, e)
      modifies this`queue, this`trace
      ensures Valid() && queue == Next(old(queue), e) && trace == old(trace) + [e]
    {
      hide Run, After, Inv, Enabled, Next;
      RunOne(queue, e);
      RunConcat(start, trace, [e]);
      StepInv(queue, e);
      queue := Next(queue, e);
      trace := trace + [e];
    }

    /** `SELECT ... FOR UPDATE SKIP LOCKED`: None when no row is claimable. */
    method SelectStuck() returns (claim: Option<LbId>)
      requires Valid() && me !in queue.claims
      modifies this`queue, this`trace
      ensures Valid()
      ensures claim == None ==> trace == old(trace) && queue == old(queue) && NoneClaimable(queue)
      ensures claim.Some? ==>
        && Oldest(old(queue), claim.value) && trace == old(trace) + [Claim(me, claim.value)]
        && me in queue.claims && queue.claims[me].row == claim.value
    {
      hide Run, After, Inv, Oldest;
      if NoneClaimable(queue) { return None; }
      ghost var some :| some in queue.rows && Claimable(queue, some);
      OldestExists(queue, some);
      var row :| row in queue.rows && Oldest(queue, row);
      Do(Claim(me, row));
      return Some(row);
    }

    lemma InvClaim(q: Queue, me: Replica)
      requires Inv(q) && me in q.claims
      ensures q.claims[me].row in q.rows
    {}

    /** The claim's transaction ends: the row is deleted, or bumped to the transaction's time, or
        left as it was. */
    method Finish(result: Result<Outcome, Error>) returns (end: Event)
      requires Valid() && me in queue.claims && result != Ok(Idle)
      modifies this`queue, this`trace
      ensures Valid() && me !in queue.claims && trace == old(trace) + [end] && By(end, me)
      ensures end == EndOf(me, result)
      ensures var claim, rows := old(queue).claims[me], old(queue).rows;
        && (result == Ok(WasReconciled) ==> queue.rows == rows - {claim.row})
        && (result == Ok(WasPoisoned) ==> queue.rows == rows[claim.row := claim.begin])
        && (result.Err? ==> queue.rows == rows)
    {
      InvClaim(queue, me);
      hide Run, After, Inv;
      end := EndOf(me, result);
      Do(end);
    }

    /** ClearReference, then FreeIP unless the address is linked; the first error ends it. */
    method ReleaseFamily(b: Bound) returns (err: Option<Error>)
      modifies this`calls
      ensures err == ReleaseError(b) && calls == old(calls) + Made(b)
      ensures err == None <==> Answered(b)
      ensures err.Some? ==> FamilyFails(b, err.value)
    {
      if b.vip == None { return None; }
      var addr := b.vip.value.addr;
      calls := calls + [Vpc.ClearReference(addr)];
      if b.vip.value.origin == Linked { return b.clear; }
      if b.clear.Some? { return b.clear; }
      calls := calls + [Vpc.FreeIP(addr)];
      return b.free;
    }

    /** Both families of the claimed row, and what becomes of the claim. */
    method Release(turn: Turn) returns (result: Result<Outcome, Error>)
      modifies this`calls
      ensures result == Verdict(turn) && calls == old(calls) + MadeInTurn(turn)
    {
      var err := ReleaseFamily(turn.v4);
      if err.Some? { return HandleReleaseErr(err.value, turn.database); }
      err := ReleaseFamily(turn.v6);
      if err.Some? { return HandleReleaseErr(err.value, turn.database); }
      return if turn.database.Some? then Err(turn.database.value) else Ok(WasReconciled);
    }

    /** One row: claim it, release its addresses, and end the claim by what came of that. */
    method ReconcileOne(turn: Turn) returns (result: Result<Outcome, Error>)
      requires Valid() && me !in queue.claims
      modifies this`queue, this`trace, this`calls
      ensures Valid() && me !in queue.claims && old(trace) <= trace
      ensures Round(Mine(trace[|old(trace)|..], me), me, result)
      ensures RollsBackLast(trace[|old(trace)|..], me)
      ensures result.Ok? ==> RolledBack(me) !in trace[|old(trace)|..]
      ensures result == Ok(Idle) ==> NoneClaimable(queue) && calls == old(calls)
      ensures turn.claim.Some? ==> result == Err(turn.claim.value) && calls == old(calls)
      ensures turn.claim == None && result != Ok(Idle) ==>
        result == Verdict(turn) && calls == old(calls) + MadeInTurn(turn)
      ensures result == Ok(WasReconciled) ==>
        && Mine(trace[|old(trace)|..], me)[0].row !in queue.rows
        && Answered(turn.v4) && Answered(turn.v6) && turn.database == None
        && calls == old(calls) + Plan(turn.v4) + Plan(turn.v6)
      ensures turn.claim == None && result != Ok(Idle) && result != Ok(WasReconciled) ==>
        var own := Mine(trace[|old(trace)|..], me);
        |own| == 2 && own[0].Claim? && own[0].row in queue.rows
    {
      hide Run, After, Inv, Mine, Oldest, NoneClaimable, Verdict, MadeInTurn, RollsBackLast;
      ghost var t0 := trace;
      Yield();
      ghost var t1 := trace;
      NoRollback(trace[|t0|..], me);
      if turn.claim.Some? { return Err(turn.claim.value); }
      var claim := SelectStuck();
      if claim == None { return Ok(Idle); }
      Yield();
      ghost var t3 := trace;
      result := Release(turn);
      VerdictIsNotIdle(turn);
      ReconciledIsReleased(turn);
      VerdictExact(turn);
      InvClaim(queue, me);
      var end := Finish(result);
      MineOfRound(t0, t1, Claim(me, claim.value), t3, end);
      RollbackOfRound(t0, t1, Claim(me, claim.value), t3, end);
    }

    lemma VerdictIsNotIdle(turn: Turn)
      ensures Verdict(turn) != Ok(Idle)
    {}

    lemma NoRollback(es: seq<Event>, me: Replica)
      requires Mine(es, me) == []
      ensures RolledBack(me) !in es && RollsBackLast(es, me)
    {
      NotMine(es, me);
    }

    /** Only the two own events of a round are this replica's. */
    lemma MineOfRound(t0: seq<Event>, t1: seq<Event>, claim: Event, t3: seq<Event>, end: Event)
      requires t0 <= t1 && t1 + [claim] <= t3 && By(claim, me) && By(end, me)
      requires Mine(t1[|t0|..], me) == [] && Mine(t3[|t1| + 1..], me) == []
      ensures Mine((t3 + [end])[|t0|..], me) == [claim, end]
    {
      var a, b := t1[|t0|..], t3[|t1| + 1..];
      assert (t3 + [end])[|t0|..] == a + [claim] + b + [end];
      MineConcat(a + [claim] + b, [end], me);
      MineConcat(a + [claim], b, me);
      MineConcat(a, [claim], me);
      assert Mine([claim], me) == [claim] && Mine([end], me) == [end] by {
        assert [claim][1..] == [] && [end][1..] == [];
      }
    }

    lemma RollbackOfRound(t0: seq<Event>, t1: seq<Event>, claim: Event, t3: seq<Event>, end: Event)
      requires t0 <= t1 && t1 + [claim] <= t3 && claim.Claim?
      requires Mine(t1[|t0|..], me) == [] && Mine(t3[|t1| + 1..], me) == []
      ensures RollsBackLast((t3 + [end])[|t0|..], me)
      ensures end != RolledBack(me) ==> RolledBack(me) !in (t3 + [end])[|t0|..]
    {
      var a, b := t1[|t0|..], t3[|t1| + 1..];
      var es := (t3 + [end])[|t0|..];
      assert es == a + [claim] + b + [end];
      NotMine(a, me);
      NotMine(b, me);
      forall k | 0 <= k < |es| - 1 ensures es[k] != RolledBack(me) {
        if k < |a| { assert es[k] == a[k]; } else if k > |a| { assert es[k] == b[k - |a| - 1]; }
      }
    }

    /** The table at the start of the tick leads to the table now by the events of the tick. */
    lemma TickRun(t0: seq<Event>)
      requires Valid() && t0 <= trace
      ensures Run(start, t0) && Run(After(start, t0), trace[|t0|..])
      ensures Inv(queue) && After(After(start, t0), trace[|t0|..]) == queue
    {
      RunSplit(start, trace, |t0|);
      assert trace[..|t0|] == t0;
    }

    /** What the tick has done so far: `i` rows that did not end in a rollback. */
    ghost predicate SoFar(t0: seq<Event>, i: nat, reconciled: nat)
      reads this
      requires t0 <= trace
    {
      var es := trace[|t0|..];
      |Mine(es, me)| == 2 * i && reconciled == Count(Mine(es, me), me) && RolledBack(me) !in es
    }

    /** One more round after `before`. */
    lemma OneMore(t0: seq<Event>, before: seq<Event>, i: nat, reconciled: nat, result: Result<Outcome, Error>)
      requires t0 <= before <= trace && Round(Mine(trace[|before|..], me), me, result)
      requires |Mine(before[|t0|..], me)| == 2 * i && reconciled == Count(Mine(before[|t0|..], me), me)
      requires RolledBack(me) !in before[|t0|..] && RollsBackLast(trace[|before|..], me)
      requires result.Ok? ==> RolledBack(me) !in trace[|before|..]
      ensures var own := Mine(trace[|t0|..], me);
        && 2 * i <= |own| <= 2 * i + 2 && (result.Ok? ==> |own| == 2 * i + (if result == Ok(Idle) then 0 else 2))
        && Count(own, me) == reconciled + (if result == Ok(WasReconciled) then 1 else 0)
      ensures RollsBackLast(trace[|t0|..], me) && (result.Ok? ==> RolledBack(me) !in trace[|t0|..])
    {
      var a, b := before[|t0|..], trace[|before|..];
      assert trace[|t0|..] == a + b;
      MineConcat(a, b, me);
      CountConcat(Mine(a, me), Mine(b, me), me);
      RoundCount(Mine(b, me), me, result);
      hide Mine, Count, RollsBackLast;
      RollbackOfJoin(a, b, me);
    }

    lemma RollbackOfJoin(a: seq<Event>, b: seq<Event>, me: Replica)
      requires RolledBack(me) !in a && RollsBackLast(b, me)
      ensures RollsBackLast(a + b, me) && (RolledBack(me) !in b ==> RolledBack(me) !in a + b)
    {
      assert forall k :: 0 <= k < |a| ==> (a + b)[k] == a[k];
      forall x, y | 0 <= x < y < |a + b| && (a + b)[x] == RolledBack(me) ensures !By((a + b)[y], me) {
        assert b[x - |a|] == RolledBack(me) && b[y - |a|] == (a + b)[y];
      }
    }

    /** The round after i others, all of which claimed a row, ended the tick with this error. */
    ghost predicate EndsTick(turns: nat -> Turn, i: nat, err: Option<Error>, es: seq<Event>) {
      TurnError(turns(i)) == err && 2 * i <= |Mine(es, me)| <= 2 * i + 2
    }

    /** A tick: at most 100 rows, with two events each; a poisoned row does not end it, the first
        error does, and a rollback is the last it does; the count is of the rows reconciled; when it
        ends early without an error, nothing was left to claim; and when it ends within the age threshold, it
        claimed no row twice that another writer did not write in between. */
    method ReconcileOnce(turns: nat -> Turn) returns (reconciled: nat, err: Option<Error>)
      requires Valid() && me !in queue.claims
      modifies this`queue, this`trace, this`calls
      ensures Valid() && me !in queue.claims && old(trace) <= trace
      ensures |Mine(trace[|old(trace)|..], me)| <= 200
      ensures reconciled == Count(Mine(trace[|old(trace)|..], me), me)
      ensures !vpcConfigured ==> trace == old(trace)
      ensures vpcConfigured && err == None && |Mine(trace[|old(trace)|..], me)| < 200 ==>
        NoneClaimable(queue)
      ensures RollsBackLast(trace[|old(trace)|..], me)
      ensures err == None ==> RolledBack(me) !in trace[|old(trace)|..]
      ensures err.Some? ==> exists i :: 0 <= i < MAX_PER_TICK && EndsTick(turns, i, err, trace[|old(trace)|..])
      ensures queue.now <= old(queue).now + old(queue).age ==> ClaimsDistinctRows(trace[|old(trace)|..], me)
    {
      hide Run, After, Inv, Mine, Count, RollsBackLast, NoneClaimable, TurnError, ClaimsDistinctRows;
      ghost var t0 := trace;
      ghost var q0 := queue;
      assert Run(start, t0) && After(start, t0) == q0 && Inv(q0);
      reconciled, err := Tick(turns);
      TickRun(t0);
      if queue.now <= q0.now + q0.age { ClaimsOfRun(q0, trace[|t0|..], me); }
    }

    method Tick(turns: nat -> Turn) returns (reconciled: nat, err: Option<Error>)
      requires Valid() && me !in queue.claims
      modifies this`queue, this`trace, this`calls
      ensures Valid() && me !in queue.claims && old(trace) <= trace
      ensures |Mine(trace[|old(trace)|..], me)| <= 2 * MAX_PER_TICK
      ensures reconciled == Count(Mine(trace[|old(trace)|..], me), me)
      ensures !vpcConfigured ==> trace == old(trace)
      ensures vpcConfigured && err == None && |Mine(trace[|old(trace)|..], me)| < 2 * MAX_PER_TICK ==>
        NoneClaimable(queue)
      ensures RollsBackLast(trace[|old(trace)|..], me)
      ensures err == None ==> RolledBack(me) !in trace[|old(trace)|..]
      ensures err.Some? ==> exists i :: 0 <= i < MAX_PER_TICK && EndsTick(turns, i, err, trace[|old(trace)|..])
    {
      hide Run, After, Inv, Count, Round, RollsBackLast, NoneClaimable, MadeInTurn;
      reconciled, err := 0, None;
      ghost var t0 := trace;
      NothingYet(t0);
      if !vpcConfigured { return; }
      var i := 0;
      while i < MAX_PER_TICK
        invariant i <= MAX_PER_TICK
        invariant Valid() && me !in queue.claims && t0 <= trace
        invariant SoFar(t0, i, reconciled) && RollsBackLast(trace[|t0|..], me)
      {
        ghost var before := trace;
        var result := ReconcileOne(turns(i));
        OneMore(t0, before, i, reconciled, result);
        match result {
          case Err(e) =>
            assert EndsTick(turns, i, Some(e), trace[|t0|..]);
            return reconciled, Some(e);
          case Ok(WasReconciled) => reconciled := reconciled + 1;
          case Ok(WasPoisoned) =>
          case Ok(Idle) => return;
        }
        i := i + 1;
      }
    }

    lemma NothingYet(t0: seq<Event>)
      requires t0 == trace
      ensures trace[|t0|..] == [] && Mine([], me) == [] && Count([], me) == 0 && RollsBackLast([], me)
    {}
  }
}
