/** Why a worker's step fails: the answer it got, or a state in which the step could not succeed;
    and who brought that state about. */
module SagaReasons {
  import opened Domain
  import opened Vpc
  import opened VipSaga
  import opened VipSagaInvariant
  import opened VipSagaBound

  /** What a peer or the database will answer: success, or an error behind which the request may
      have been applied; the address an allocation gets, and one ordered by an attempt whose reply
      was lost before it was retried. */
  datatype Answer = Answer(done: bool, applied: bool, addr: AddressId, lost: Option<AddressId>)

  /** The step as it is when it succeeds. */
  function Success(e: Event, a: Answer): Event {
    match e
    case AllocRefused(x) => AllocCreated(x, a.addr)
    case AllocOrphaned(x, _, _) => AllocCreated(x, a.addr)
    case AllocCreated(x, _) => AllocCreated(x, a.addr)
    case RefReply(x, _) => RefReply(x, Done)
    case UndoReply(x, _) => UndoReply(x, Done)
    case LinkReply(x, _) => LinkReply(x, Done)
    case GetReply(x, _) => GetReply(x, true)
    case Attach(x, _) => Attach(x, true)
    case Finalize(x, _) => Finalize(x, true)
    case CompensateCall(x, _) => CompensateCall(x, Done)
    case DropHandle(x, _) => DropHandle(x, true)
    case WorkerCall(w, _, p) => WorkerCall(w, Done, p)
    case WorkerFinish(w, _) => WorkerFinish(w, true)
    case _ => e
  }

  /** The step as it is when it fails. */
  function Failure(s: State, e: Event, a: Answer): Event {
    match e
    case AllocRefused(x) => if a.applied && a.addr !in s.used then AllocOrphaned(x, a.addr, false) else AllocRefused(x)
    case AllocOrphaned(x, _, _) => AllocOrphaned(x, a.addr, false)
    case AllocCreated(x, _) => AllocRefused(x)
    case RefReply(x, _) => RefReply(x, Failed(a.applied))
    case UndoReply(x, _) => UndoReply(x, Failed(a.applied))
    case LinkReply(x, _) => LinkReply(x, Failed(a.applied))
    case GetReply(x, _) => GetReply(x, false)
    case Attach(x, _) => Attach(x, false)
    case Finalize(x, _) => Finalize(x, false)
    case CompensateCall(x, _) => CompensateCall(x, Failed(a.applied))
    case DropHandle(x, _) => DropHandle(x, false)
    case WorkerCall(w, _, p) => WorkerCall(w, Failed(a.applied), p)
    case WorkerFinish(w, _) => WorkerFinish(w, false)
    case _ => e
  }

  /** An attempt whose reply was lost, before the one the answer is about. */
  predicate IsRetry(e: Event, a: Answer) {
    e.AllocOrphaned? && e.retried && a.lost == Some(e.addr)
  }

  /** A step succeeds exactly when its answer is a success and the state lets it. */
  predicate Honest(s: State, e: Event, a: Answer) {
    IsRetry(e, a) ||
    e == if a.done && Enabled(s, Success(e, a)) then Success(e, a) else Failure(s, e, a)
  }

  predicate Fails(e: Event, a: Answer) {
    e != Success(e, a) && !IsRetry(e, a)
  }

  lemma FailsForAReason(s: State, e: Event, a: Answer)
    requires Honest(s, e, a) && Fails(e, a)
    ensures !a.done || !Enabled(s, Success(e, a))
  {}

  /** The release call the step makes. */
  function CallOf(s: State, e: Event): Option<Call> {
    match e
    case UndoReply(x, _) =>
      if x in s.creators && s.creators[x].pc.UndoAlloc? then Some(FreeIP(s.creators[x].pc.addr)) else None
    case CompensateCall(x, _) =>
      if x in s.creators && s.creators[x].pc.Compensate? && s.creators[x].pc.calls != []
      then Some(s.creators[x].pc.calls[0]) else None
    case WorkerCall(w, _, _) =>
      if w in s.workers && s.workers[w].calls != [] then Some(s.workers[w].calls[0]) else None
    case _ => None
  }

  // ---- what keeps a creation from going on ----

  /** The row is gone, locked by a runner, or no longer CREATING. */
  predicate RowTaken(s: State, x: LbId) {
    x !in s.rows || Locked(s, x) || s.rows[x].status != Creating
  }

  /** The address the creator is about to reference. */
  function NextAddress(c: Creator): Option<AddressId> {
    match c.pc
    case SetRef(a) => Some(a)
    case Acquire => if c.specs != [] then c.specs[0].link else None
    case _ => None
  }

  predicate ReferenceTaken(s: State, x: LbId) {
    && x in s.creators && NextAddress(s.creators[x]).Some?
    && !CanReference(s.vpc, NextAddress(s.creators[x]).value, x)
  }

  /** A creator's own steps up to its end, compensation aside. */
  predicate Creates(e: Event, x: LbId) {
    match e
    case AllocRefused(y) => y == x
    case AllocOrphaned(y, _, _) => y == x
    case RefReply(y, _) => y == x
    case LinkReply(y, _) => y == x
    case GetReply(y, _) => y == x
    case Attach(y, _) => y == x
    case Finalize(y, _) => y == x
    case _ => false
  }

  lemma PersistHasFamily(s: State, x: LbId)
    requires x in s.creators && CreatorOk(s, x) && s.creators[x].pc == Persist
    ensures var c := s.creators[x];
      c.specs != [] && c.specs[0].family in c.held && (x in s.rows ==> c.specs[0].family !in s.rows[x].vips)
  {}

  /** A binding that cannot be persisted has lost its row. */
  lemma AttachNeedsRow(s: State, x: LbId)
    requires x in s.creators && CreatorOk(s, x) && At(s, x, Persist) && !Enabled(s, Attach(x, true))
    ensures !Writable(s, x)
  {
    PersistHasFamily(s, x);
    hide CreatorOk, Locked;
  }

  /** A creating step that fails does so by its answer, because its order was answered with an
      address issued before, because its address is gone or referenced by somebody else, or because its row
      was taken. */
  lemma CreationStops(s: State, e: Event, a: Answer, x: LbId)
    requires x in s.creators && CreatorOk(s, x) && Enabled(s, e) && Creates(e, x) && Honest(s, e, a) && Fails(e, a)
    ensures !a.done || (e.AllocRefused? && a.addr in s.used) || ReferenceTaken(s, x) || RowTaken(s, x)
  {
    FailsForAReason(s, e, a);
    if e.Attach? && a.done { AttachNeedsRow(s, x); }
    hide CreatorOk, Locked;
  }

  // ---- who takes the row ----

  /** A mark or a claim of x. */
  predicate TakesRow(e: Event, x: LbId) {
    (e.Mark? || e.Claim?) && e.lb == x
  }

  /** x's row is there and CREATING, as it was. */
  ghost predicate StillCreating(s: State, t: State, x: LbId) {
    x in s.rows && s.rows[x].status == Creating ==> x in t.rows && t.rows[x].status == Creating
  }

  lemma CreatingByCreator(s: State, e: Event, x: LbId)
    requires Enabled(s, e) && x in Next(s, e).creators
    requires e.Insert? || e.Attach? || e.Finalize? || e.DropHandle? || e.CreatorCrash?
    requires e.Insert? ==> e.lb !in s.rows
    ensures StillCreating(s, Next(s, e), x)
  {}

  lemma CreatingByCall(s: State, e: Event, x: LbId)
    requires Enabled(s, e)
    requires e.AllocRefused? || e.AllocOrphaned? || e.AllocCreated? || e.RefReply? || e.UndoReply? || e.LinkReply?
      || e.GetReply? || e.CompensatePick? || e.CompensateCall?
    ensures StillCreating(s, Next(s, e), x)
  {}

  lemma CreatingByWorker(s: State, e: Event, x: LbId)
    requires Enabled(s, e) && !TakesRow(e, x)
    requires e.Mark? || e.Claim? || e.WorkerCall? || e.WorkerCrash?
    ensures StillCreating(s, Next(s, e), x)
  {}

  lemma CreatingByRow(s: State, e: Event, x: LbId)
    requires Enabled(s, e) && (e.SetStatus? || e.Touch?)
    ensures StillCreating(s, Next(s, e), x)
  {}

  lemma CreatingByOthers(s: State, e: Event, x: LbId)
    requires Enabled(s, e)
    requires e.TenantCreates? || e.TenantDeletes? || e.OtherReferences? || e.OtherClears? || e.Tick?
    ensures StillCreating(s, Next(s, e), x)
  {
    hide Next, Enabled;
    OutsideInside(s, e);
  }

  /** A worker that could finish x's row has marked or locked it before. */
  lemma FinisherTook(s: State, w: WorkerId)
    requires Inv(s) && w in s.workers
    ensures RowTaken(s, s.workers[w].lb)
  {
    hide VipsOk, CallsFor, Pending, Released, CreatorsOk, VpcOk, RowsOk;
    assert WorkerOk(s, w);
  }

  lemma CreatingByFinish(s: State, e: Event, x: LbId)
    requires Inv(s) && Enabled(s, e) && e.WorkerFinish? && !RowTaken(s, x)
    ensures StillCreating(s, Next(s, e), x)
  {
    FinisherTook(s, e.worker);
    hide Inv, Locked;
  }

  lemma CreatingStep(s: State, e: Event, x: LbId)
    requires Inv(s) && Enabled(s, e) && x in Next(s, e).creators && !RowTaken(s, x) && !TakesRow(e, x)
    ensures StillCreating(s, Next(s, e), x)
  {
    if e.Insert? { UnbornHasNoRow(s, e.lb); }
    hide Inv, Next, StillCreating, RowTaken, TakesRow;
    if e.WorkerFinish? {
      CreatingByFinish(s, e, x);
    } else if e.Mark? || e.Claim? || e.WorkerCall? || e.WorkerCrash? {
      CreatingByWorker(s, e, x);
    } else if e.Insert? || e.Attach? || e.Finalize? || e.DropHandle? || e.CreatorCrash? {
      CreatingByCreator(s, e, x);
    } else if e.SetStatus? || e.Touch? {
      CreatingByRow(s, e, x);
    } else if e.TenantCreates? || e.TenantDeletes? || e.OtherReferences? || e.OtherClears? || e.Tick? {
      CreatingByOthers(s, e, x);
    } else {
      CreatingByCall(s, e, x);
    }
  }

  lemma StaffUnlocked(s: State, t: State, x: LbId)
    requires Staff(s, t) && !Locked(s, x)
    ensures !Locked(t, x)
  {}

  lemma ClaimUnlocked(s: State, w: WorkerId, y: LbId, x: LbId)
    requires Enabled(s, Claim(w, y)) && y != x && !Locked(s, x)
    ensures !Locked(Next(s, Claim(w, y)), x)
  {
    StaffOfClaim(s, w, y);
    hide Next;
  }

  lemma UnlockedStep(s: State, e: Event, x: LbId)
    requires Enabled(s, e) && !Locked(s, x) && !TakesRow(e, x)
    ensures !Locked(Next(s, e), x)
  {
    hide Next, Staff, Locked;
    if e.Claim? {
      ClaimUnlocked(s, e.worker, e.lb, x);
    } else if e.Insert? {
      InsertUnlocked(s, e.lb, e.specs, x);
    } else {
      StaffStep(s, e);
      StaffUnlocked(s, Next(s, e), x);
    }
  }

  lemma InsertUnlocked(s: State, y: LbId, specs: seq<Spec>, x: LbId)
    requires Enabled(s, Insert(y, specs)) && !Locked(s, x)
    ensures !Locked(Next(s, Insert(y, specs)), x)
  {
    StaffOfInsert(s, y, specs);
    hide Next;
  }

  lemma TakenStep(s: State, e: Event, x: LbId)
    requires Inv(s) && Enabled(s, e) && x in Next(s, e).creators && !RowTaken(s, x) && !TakesRow(e, x)
    ensures !RowTaken(Next(s, e), x)
  {
    CreatingStep(s, e, x);
    UnlockedStep(s, e, x);
    hide Inv, Next, Locked, Enabled;
  }

  /** Creators do not come back. */
  lemma CreatorWasThere(s: State, e: Event, x: LbId)
    requires Enabled(s, e) && x in Next(s, e).creators && x in s.born
    ensures x in s.creators && x in Next(s, e).born
  {
    BornStays(s, e);
    hide Next, Staff;
    if e.Insert? {
      StaffOfInsert(s, e.lb, e.specs);
    } else if e.Claim? {
      StaffOfClaim(s, e.worker, e.lb);
    } else {
      StaffStep(s, e);
      StaffCreators(s, Next(s, e));
    }
  }

  lemma StaffCreators(s: State, t: State)
    requires Staff(s, t)
    ensures t.creators.Keys <= s.creators.Keys
  {}

  lemma BornStays(s: State, e: Event)
    requires Enabled(s, e)
    ensures s.born <= Next(s, e).born
  {
    hide CanReference, Replies;
  }

  lemma {:induction false} CreatorAllAlong(s: State, es: seq<Event>, x: LbId)
    requires Run(s, es) && x in s.born && x in After(s, es).creators
    ensures x in s.creators
    decreases |es|
  {
    hide Next, Enabled;
    if es != [] {
      if x in Next(s, es[0]).born {
        CreatorAllAlong(Next(s, es[0]), es[1..], x);
      }
      BornStays(s, es[0]);
      CreatorWasThere(s, es[0], x);
    }
  }

  /** While its creator lives, only a Mark or a runner's Claim takes the row of a load balancer in
      creation. */
  lemma {:induction false} RowTakenBySomebody(s: State, es: seq<Event>, x: LbId)
    requires Inv(s) && Run(s, es) && x in s.born && x in After(s, es).creators
    requires !RowTaken(s, x) && RowTaken(After(s, es), x)
    ensures exists i :: 0 <= i < |es| && TakesRow(es[i], x)
    decreases |es|
  {
    hide Inv, Next, Enabled, RowTaken, TakesRow;
    if es != [] && !TakesRow(es[0], x) {
      var t := Next(s, es[0]);
      StepInv(s, es[0]);
      BornStays(s, es[0]);
      CreatorAllAlong(t, es[1..], x);
      TakenStep(s, es[0], x);
      RowTakenBySomebody(t, es[1..], x);
      var i :| 0 <= i < |es[1..]| && TakesRow(es[1..][i], x);
      assert es[i + 1] == es[1..][i];
    }
  }
}
