/** A load balancer that is neither CREATING nor DELETING holds, for exactly its declared
    families, addresses that exist and carry its reference. ClearReference names an address
    only, so this holds as long as no release clears a reference another load balancer took. */
module VipSagaBound {
  import opened Domain
  import opened Vpc
  import opened VipSaga
  import opened VipSagaInvariant
  import opened VipSagaLoss

  ghost predicate BoundTo(s: State, x: LbId, a: AddressId) {
    Refers(s.vpc, x, a)
  }

  predicate Refers(vpc: Store, x: LbId, a: AddressId) {
    a in vpc && vpc[a].referrer == Some(ByLb(x))
  }

  predicate Final(s: State, x: LbId) {
    x in s.rows && s.rows[x].status !in {Creating, Deleting}
  }

  ghost predicate BoundLb(s: State, x: LbId) {
    Final(s, x) ==>
      && s.rows[x].vips.Keys == s.rows[x].families
      && forall f :: f in s.rows[x].vips ==> BoundTo(s, x, s.rows[x].vips[f].addr)
  }

  ghost predicate Bound(s: State) {
    forall x :: BoundLb(s, x)
  }

  /** No live creator's row is older than the runner's age threshold. */
  ghost predicate Fresh(s: State) {
    forall x :: x in s.creators && x in s.rows ==> s.now <= s.rows[x].updatedAt + s.age
  }

  /** The reference call a step makes, when it takes effect. */
  function Applied(s: State, e: Event): Option<Call>
    requires Enabled(s, e)
  {
    match e
    case CompensateCall(x, r) => if r.Done? || r.applied then Some(s.creators[x].pc.calls[0]) else None
    case WorkerCall(w, r, _) => if r.Done? || r.applied then Some(s.workers[w].calls[0]) else None
    case _ => None
  }

  /** The step clears a reference to a held by y, and y is not the one releasing. */
  ghost predicate Takes(s: State, e: Event, y: LbId, a: AddressId)
    requires Enabled(s, e)
  {
    Applied(s, e) == Some(ClearReference(a)) && Actor(s, e) != Some(y) && BoundTo(s, y, a)
  }

  ghost predicate Scoped(s: State, e: Event)
    requires Enabled(s, e)
  {
    forall y, a :: !Takes(s, e, y, a)
  }

  // ---- what a load balancer relies on, before and after it is finalized ----

  /** A live creator that is not compensating, of a load balancer no Delete has marked. */
  predicate Building(s: State, x: LbId) {
    x in s.creators && x !in s.marked && !s.creators[x].pc.Compensate?
  }

  /** The addresses whose reference the creator saw set. */
  function Confirmed(c: Creator): set<AddressId> {
    Addrs(c.held) + (if c.pc.ResolveLink? then {c.pc.addr} else {})
  }

  /** x counts on its reference to a: its finalized row names a, or its creator confirmed a. */
  predicate Relies(s: State, x: LbId, a: AddressId) {
    || (Final(s, x) && Named(s, x, a))
    || (Building(s, x) && a in Confirmed(s.creators[x]))
  }

  ghost predicate MarkedOk(s: State) {
    s.marked <= s.born && forall x :: x in s.marked && x in s.rows ==> s.rows[x].status == Deleting
  }

  ghost predicate RunnersApart(s: State) {
    forall w :: w in s.workers && s.workers[w].kind == Runner ==> s.workers[w].lb !in s.creators
  }

  /** Every reference some load balancer relies on is there, and no runner works on a row whose
      creator is alive. */
  ghost predicate Backed(s: State) {
    && MarkedOk(s) && RunnersApart(s)
    && forall x, a :: Relies(s, x, a) ==> BoundTo(s, x, a)
  }

  /** The step takes, for another load balancer, a reference that y relies on. */
  ghost predicate Harms(s: State, e: Event, y: LbId, a: AddressId)
    requires Enabled(s, e)
  {
    Takes(s, e, y, a) && Relies(s, y, a)
  }

  ghost predicate Harmless(s: State, e: Event)
    requires Enabled(s, e)
  {
    forall y, a :: !Harms(s, e, y, a)
  }

  /** No runner claims a row while its creator is alive. */
  predicate Patient(s: State, e: Event) {
    e.Claim? ==> e.lb !in s.creators
  }

  // ---- what a step does to a reference that is relied on ----

  lemma CallKeeps(vpc: Store, call: Call, r: Reply, y: LbId, a: AddressId)
    requires Refers(vpc, y, a) && call != ClearReference(a)
    ensures Refers(AfterCall(vpc, call, r), y, a)
  {}

  lemma SetKeeps(vpc: Store, b: AddressId, x: LbId, r: Reply, y: LbId, a: AddressId)
    requires Refers(vpc, y, a)
    ensures Refers(AfterSet(vpc, b, x, r), y, a)
  {}

  /** The worker's balancer relies on nothing. */
  lemma WorkerRelies(s: State, w: WorkerId, a: AddressId)
    requires Inv(s) && MarkedOk(s) && RunnersApart(s) && w in s.workers
    ensures !Relies(s, s.workers[w].lb, a)
  {
    hide VipsOk, CallsFor, Pending, Released, PcOk, VpcOk;
    assert WorkerOk(s, w);
  }

  lemma CompensatorRelies(s: State, x: LbId, a: AddressId)
    requires Inv(s) && x in s.creators && s.creators[x].pc.Compensate?
    ensures !Relies(s, x, a)
  {
    hide VipsOk, PcOk, VpcOk;
    if x in s.rows { assert RowOk(s, x); }
  }

  lemma CallLeavesRelied(s: State, e: Event, y: LbId, a: AddressId)
    requires Inv(s) && Backed(s) && Enabled(s, e) && (e.CompensateCall? || e.WorkerCall?)
    requires Relies(s, y, a) && !Takes(s, e, y, a)
    ensures Refers(VpcNext(s, e), y, a)
  {
    hide Inv, Relies;
    assert BoundTo(s, y, a);
    if e.WorkerCall? {
      WorkerRelies(s, e.worker, a);
      if Applied(s, e).Some? { CallKeeps(s.vpc, s.workers[e.worker].calls[0], e.reply, y, a); }
    } else {
      CompensatorRelies(s, e.lb, a);
      if Applied(s, e).Some? { CallKeeps(s.vpc, s.creators[e.lb].pc.calls[0], e.reply, y, a); }
    }
  }

  lemma SetLeavesRelied(s: State, e: Event, y: LbId, a: AddressId)
    requires Enabled(s, e) && (e.RefReply? || e.LinkReply? || e.UndoReply?) && BoundTo(s, y, a)
    ensures Refers(VpcNext(s, e), y, a)
  {
    hide AfterSet, AfterCall;
    match e
    case RefReply(x, r) => SetKeeps(s.vpc, s.creators[x].pc.addr, x, r, y, a);
    case LinkReply(x, r) => SetKeeps(s.vpc, s.creators[x].specs[0].link.value, x, r, y, a);
    case UndoReply(x, r) => CallKeeps(s.vpc, FreeIP(s.creators[x].pc.addr), r, y, a);
    case _ =>
  }

  lemma OthersLeaveRelied(s: State, e: Event, y: LbId, a: AddressId)
    requires Enabled(s, e) && BoundTo(s, y, a) && a in s.used
    requires !e.CompensateCall? && !e.WorkerCall? && !e.RefReply? && !e.LinkReply? && !e.UndoReply?
    ensures Refers(VpcNext(s, e), y, a)
  {}

  /** A reference that is relied on stays, unless the step takes it. */
  lemma ReliedStays(s: State, e: Event, y: LbId, a: AddressId)
    requires Inv(s) && Backed(s) && Enabled(s, e) && Relies(s, y, a) && !Takes(s, e, y, a)
    ensures BoundTo(Next(s, e), y, a)
  {
    VpcStep(s, e);
    VpcOfInv(s);
    hide Inv, VpcNext, Next, Relies, Takes, VpcOk;
    assert BoundTo(s, y, a);
    if e.CompensateCall? || e.WorkerCall? {
      CallLeavesRelied(s, e, y, a);
    } else if e.RefReply? || e.LinkReply? || e.UndoReply? {
      SetLeavesRelied(s, e, y, a);
    } else {
      UsedAddress(s, a);
      OthersLeaveRelied(s, e, y, a);
    }
  }

  lemma UsedAddress(s: State, a: AddressId)
    requires VpcOk(s) && a in s.vpc
    ensures a in s.used
  {}

  // ---- what a step adds to what is relied on ----

  /** y's row and creator only moved in ways that rely on no more. */
  predicate Quiet(s: State, t: State, y: LbId) {
    && (Final(t, y) ==> Final(s, y) && t.rows[y].vips == s.rows[y].vips)
    && (Building(t, y) ==> Building(s, y) && Confirmed(t.creators[y]) <= Confirmed(s.creators[y]))
  }

  lemma QuietFailing(s: State, e: Event, y: LbId)
    requires Enabled(s, e)
    requires e.AllocRefused? || (e.LinkReply? && e.reply.Failed?)
      || (e.GetReply? && !e.ok) || (e.Attach? && !e.ok) || (e.Finalize? && !e.ok)
    ensures Quiet(s, Next(s, e), y)
  {}

  lemma QuietFailingOrder(s: State, e: Event, y: LbId)
    requires Enabled(s, e)
    requires e.AllocOrphaned? || e.UndoReply?
    ensures Quiet(s, Next(s, e), y)
  {}

  lemma QuietMoving(s: State, e: Event, y: LbId)
    requires Enabled(s, e)
    requires e.AllocCreated? || (e.RefReply? && e.reply.Failed?)
    ensures Quiet(s, Next(s, e), y)
  {}

  lemma QuietCompensating(s: State, e: Event, y: LbId)
    requires Enabled(s, e)
    requires e.CompensatePick? || e.CompensateCall?
    ensures Quiet(s, Next(s, e), y)
  {}

  lemma QuietAttach(s: State, x: LbId, y: LbId)
    requires Inv(s) && Enabled(s, Attach(x, true))
    ensures Quiet(s, Next(s, Attach(x, true)), y)
  {
    assert RowOk(s, x);
    assert Next(s, Attach(x, true)) == AfterAttach(s, x);
    hide RowsOk, CreatorsOk, WorkersOk, VpcOk, VipsOk, Next, Enabled;
  }

  lemma QuietGone(s: State, e: Event, y: LbId)
    requires Enabled(s, e)
    requires e.DropHandle? || e.CreatorCrash? || e.WorkerFinish? || e.WorkerCrash?
    ensures Quiet(s, Next(s, e), y)
  {}

  lemma QuietWorker(s: State, e: Event, y: LbId)
    requires Enabled(s, e)
    requires e.Mark? || e.Claim? || e.WorkerCall?
    ensures Quiet(s, Next(s, e), y)
  {}

  lemma QuietRow(s: State, e: Event, y: LbId)
    requires Enabled(s, e)
    requires e.SetStatus? || e.Touch?
    ensures Quiet(s, Next(s, e), y)
  {}

  /** The tenant, other services and the clock touch neither rows nor workers. */
  ghost predicate SameInside(s: State, t: State) {
    && t.rows == s.rows && t.creators == s.creators && t.workers == s.workers
    && t.marked == s.marked && t.born == s.born
  }

  lemma TenantInside(s: State, e: Event)
    requires Enabled(s, e) && (e.TenantCreates? || e.TenantDeletes? || e.Tick?)
    ensures SameInside(s, Next(s, e))
  {}

  lemma OtherInside(s: State, e: Event)
    requires Enabled(s, e) && (e.OtherReferences? || e.OtherClears?)
    ensures SameInside(s, Next(s, e))
  {}

  lemma OutsideInside(s: State, e: Event)
    requires Enabled(s, e)
    requires e.TenantCreates? || e.TenantDeletes? || e.OtherReferences? || e.OtherClears? || e.Tick?
    ensures SameInside(s, Next(s, e))
  {
    hide Next, Enabled, SameInside;
    if e.OtherReferences? || e.OtherClears? { OtherInside(s, e); } else { TenantInside(s, e); }
  }

  lemma QuietOther(s: State, e: Event, y: LbId)
    requires Enabled(s, e)
    requires e.TenantCreates? || e.TenantDeletes? || e.OtherReferences? || e.OtherClears? || e.Tick?
    ensures Quiet(s, Next(s, e), y)
  {
    hide Next, Enabled;
    OutsideInside(s, e);
  }

  lemma QuietInsert(s: State, x: LbId, specs: seq<Spec>, y: LbId)
    requires Enabled(s, Insert(x, specs)) && x !in s.rows
    ensures Final(Next(s, Insert(x, specs)), y) ==> Quiet(s, Next(s, Insert(x, specs)), y)
    ensures forall a :: Relies(Next(s, Insert(x, specs)), y, a) ==> Relies(s, y, a)
  {}

  /** The steps that confirm a reference: the reply says it is set. */
  lemma ConfirmedByRef(s: State, x: LbId, y: LbId, a: AddressId)
    requires CreatorsOk(s) && Enabled(s, RefReply(x, Done)) && Relies(Next(s, RefReply(x, Done)), y, a)
    ensures Relies(s, y, a) || BoundTo(Next(s, RefReply(x, Done)), y, a)
  {
    assert CreatorOk(s, x);
    hide VipsOk, SpecsOk;
  }

  lemma ConfirmedByLink(s: State, x: LbId, y: LbId, a: AddressId)
    requires Enabled(s, LinkReply(x, Done)) && Relies(Next(s, LinkReply(x, Done)), y, a)
    ensures Relies(s, y, a) || BoundTo(Next(s, LinkReply(x, Done)), y, a)
  {}

  lemma ConfirmedByGet(s: State, x: LbId, y: LbId, a: AddressId)
    requires CreatorsOk(s) && Enabled(s, GetReply(x, true)) && Relies(Next(s, GetReply(x, true)), y, a)
    ensures Relies(s, y, a)
  {
    assert CreatorOk(s, x);
    hide VipsOk, SpecsOk;
  }

  /** What the finalized row names was confirmed by its creator. */
  lemma ConfirmedByFinalize(s: State, x: LbId, y: LbId, a: AddressId)
    requires CreatorsOk(s) && MarkedOk(s) && Enabled(s, Finalize(x, true))
    requires Relies(Next(s, Finalize(x, true)), y, a)
    ensures Relies(s, y, a)
  {
    assert CreatorOk(s, x);
    hide VipsOk, PcOk, Released;
  }

  lemma UnbornHasNoRow(s: State, x: LbId)
    requires Inv(s) && x !in s.born
    ensures x !in s.rows
  {}

  lemma QuietStep(s: State, e: Event, y: LbId)
    requires Inv(s) && Enabled(s, e)
    requires !e.Insert? && !(e.RefReply? && e.reply.Done?) && !(e.LinkReply? && e.reply.Done?)
    requires !(e.GetReply? && e.ok) && !(e.Finalize? && e.ok)
    ensures Quiet(s, Next(s, e), y)
  {
    hide Inv, Next, Quiet, Enabled;
    match e
    case AllocOrphaned(_, _, _) => QuietFailingOrder(s, e, y);
    case UndoReply(_, _) => QuietFailingOrder(s, e, y);
    case AllocCreated(_, _) => QuietMoving(s, e, y);
    case RefReply(_, _) => QuietMoving(s, e, y);
    case CompensatePick(_, _) => QuietCompensating(s, e, y);
    case CompensateCall(_, _) => QuietCompensating(s, e, y);
    case Attach(x, ok) => if ok { QuietAttach(s, x, y); } else { QuietFailing(s, e, y); }
    case DropHandle(_, _) => QuietGone(s, e, y);
    case CreatorCrash(_) => QuietGone(s, e, y);
    case WorkerFinish(_, _) => QuietGone(s, e, y);
    case WorkerCrash(_) => QuietGone(s, e, y);
    case Mark(_, _) => QuietWorker(s, e, y);
    case Claim(_, _) => QuietWorker(s, e, y);
    case WorkerCall(_, _, _) => QuietWorker(s, e, y);
    case SetStatus(_, _) => QuietRow(s, e, y);
    case Touch(_) => QuietRow(s, e, y);
    case AllocRefused(_) => QuietFailing(s, e, y);
    case LinkReply(_, _) => QuietFailing(s, e, y);
    case GetReply(_, _) => QuietFailing(s, e, y);
    case Finalize(_, _) => QuietFailing(s, e, y);
    case _ => QuietOther(s, e, y);
  }

  /** What is relied on after a step was relied on before, or its reference was just set. */
  lemma NewlyRelied(s: State, e: Event, y: LbId, a: AddressId)
    requires Inv(s) && MarkedOk(s) && Enabled(s, e) && Relies(Next(s, e), y, a)
    ensures Relies(s, y, a) || BoundTo(Next(s, e), y, a)
  {
    if e.Insert? { UnbornHasNoRow(s, e.lb); }
    hide RowsOk, CreatorsOk, WorkersOk, VpcOk, MarkedOk, Next, BoundTo;
    if e.Insert? {
      QuietInsert(s, e.lb, e.specs, y);
    } else if e.RefReply? && e.reply.Done? {
      ConfirmedByRef(s, e.lb, y, a);
    } else if e.LinkReply? && e.reply.Done? {
      ConfirmedByLink(s, e.lb, y, a);
    } else if e.GetReply? && e.ok {
      ConfirmedByGet(s, e.lb, y, a);
    } else if e.Finalize? && e.ok {
      ConfirmedByFinalize(s, e.lb, y, a);
    } else {
      QuietStep(s, e, y);
    }
  }

  // ---- marks and runners ----

  /** A step marks at most the load balancer it names, and a marked row only leaves DELETING by
      going away. */
  ghost predicate MarksFrame(s: State, t: State, x: Option<LbId>) {
    && s.born <= t.born && (forall y :: y in t.marked ==> y in s.marked || Some(y) == x)
    && (forall y :: y in t.rows ==> y !in s.born || y in s.rows)
    && (forall y :: y in t.rows && y in s.rows && s.rows[y].status == Deleting ==> t.rows[y].status == Deleting)
    && (x.Some? ==> x.value in s.rows && x.value in t.rows && t.rows[x.value].status == Deleting)
  }

  lemma MarksOfCreator(s: State, e: Event)
    requires Enabled(s, e)
    requires e.Attach? || e.Finalize? || e.DropHandle? || e.CreatorCrash?
    ensures MarksFrame(s, Next(s, e), None)
  {}

  lemma MarksOfInsert(s: State, x: LbId, specs: seq<Spec>)
    requires Enabled(s, Insert(x, specs)) && x !in s.rows
    ensures MarksFrame(s, Next(s, Insert(x, specs)), None)
  {}

  lemma MarksOfCreatorQuiet(s: State, e: Event)
    requires Enabled(s, e)
    requires e.AllocRefused? || e.AllocOrphaned? || e.AllocCreated? || e.RefReply? || e.UndoReply? || e.LinkReply?
      || e.GetReply? || e.CompensatePick? || e.CompensateCall?
    ensures MarksFrame(s, Next(s, e), None)
  {}

  lemma MarksOfWorker(s: State, e: Event)
    requires Enabled(s, e)
    requires e.Mark? || e.Claim? || e.WorkerCall? || e.WorkerFinish? || e.WorkerCrash?
    ensures MarksFrame(s, Next(s, e), if e.Mark? then Some(e.lb) else None)
  {}

  lemma MarksOfRow(s: State, e: Event)
    requires Enabled(s, e) && (e.SetStatus? || e.Touch?)
    ensures MarksFrame(s, Next(s, e), None)
  {}

  lemma MarksOfOthers(s: State, e: Event)
    requires Enabled(s, e)
    requires e.TenantCreates? || e.TenantDeletes? || e.OtherReferences? || e.OtherClears? || e.Tick?
    ensures MarksFrame(s, Next(s, e), None)
  {
    hide Next, Enabled;
    OutsideInside(s, e);
  }

  lemma MarksKept(s: State, t: State, x: Option<LbId>)
    requires RowsOk(s) && MarkedOk(s) && MarksFrame(s, t, x)
    ensures MarkedOk(t)
  {
    hide VipsOk;
    if x.Some? { assert RowOk(s, x.value); }
  }

  lemma MarkedStep(s: State, e: Event)
    requires Inv(s) && MarkedOk(s) && Enabled(s, e)
    ensures MarkedOk(Next(s, e))
  {
    if e.Insert? { UnbornHasNoRow(s, e.lb); }
    hide RowsOk, CreatorsOk, WorkersOk, VpcOk, MarkedOk, Next, MarksFrame;
    var x := if e.Mark? then Some(e.lb) else None;
    if e.Mark? || e.Claim? || e.WorkerCall? || e.WorkerFinish? || e.WorkerCrash? {
      MarksOfWorker(s, e);
    } else if e.Insert? {
      MarksOfInsert(s, e.lb, e.specs);
    } else if e.Attach? || e.Finalize? || e.DropHandle? || e.CreatorCrash? {
      MarksOfCreator(s, e);
    } else if e.SetStatus? || e.Touch? {
      MarksOfRow(s, e);
    } else if e.TenantCreates? || e.TenantDeletes? || e.OtherReferences? || e.OtherClears? || e.Tick? {
      MarksOfOthers(s, e);
    } else {
      MarksOfCreatorQuiet(s, e);
    }
    MarksKept(s, Next(s, e), x);
  }

  /** Creators appear by insertion and runners by a claim, in both cases only there. */
  ghost predicate Staff(s: State, t: State) {
    && t.creators.Keys <= s.creators.Keys
    && forall w :: w in t.workers && t.workers[w].kind == Runner ==>
         w in s.workers && s.workers[w].kind == Runner && s.workers[w].lb == t.workers[w].lb
  }

  lemma StaffOfCreator(s: State, e: Event)
    requires Enabled(s, e)
    requires e.AllocRefused? || e.AllocOrphaned? || e.AllocCreated? || e.RefReply? || e.UndoReply? || e.LinkReply?
      || e.GetReply?
    ensures Staff(s, Next(s, e))
  {}

  lemma StaffOfCreatorEnd(s: State, e: Event)
    requires Enabled(s, e)
    requires e.Attach? || e.Finalize? || e.CompensatePick? || e.CompensateCall? || e.DropHandle? || e.CreatorCrash?
    ensures Staff(s, Next(s, e))
  {}

  lemma StaffOfWorker(s: State, e: Event)
    requires Enabled(s, e)
    requires e.Mark? || e.WorkerCall? || e.WorkerFinish? || e.WorkerCrash?
    ensures Staff(s, Next(s, e))
  {}

  lemma StaffOfRow(s: State, e: Event)
    requires Enabled(s, e) && (e.SetStatus? || e.Touch?)
    ensures Staff(s, Next(s, e))
  {}

  lemma StaffOfOthers(s: State, e: Event)
    requires Enabled(s, e)
    requires e.TenantCreates? || e.TenantDeletes? || e.OtherReferences? || e.OtherClears? || e.Tick?
    ensures Staff(s, Next(s, e))
  {
    hide Next, Enabled;
    OutsideInside(s, e);
  }

  lemma StaffOfInsert(s: State, x: LbId, specs: seq<Spec>)
    requires Enabled(s, Insert(x, specs))
    ensures Next(s, Insert(x, specs)).workers == s.workers
    ensures Next(s, Insert(x, specs)).creators.Keys == s.creators.Keys + {x}
  {}

  lemma NobodyWorksFor(s: State, x: LbId)
    requires Inv(s) && x !in s.born
    ensures forall w :: w in s.workers ==> s.workers[w].lb != x
  {}

  lemma StaffOfClaim(s: State, w: WorkerId, x: LbId)
    requires Enabled(s, Claim(w, x))
    ensures var t := Next(s, Claim(w, x));
      t.creators == s.creators && w in t.workers && t.workers[w].kind == Runner && t.workers[w].lb == x
      && t.workers == s.workers[w := t.workers[w]]
  {}

  /** A claim keeps runners apart from live creators exactly when the creator is gone. */
  lemma RunnersExact(s: State, e: Event)
    requires Inv(s) && RunnersApart(s) && Enabled(s, e)
    ensures RunnersApart(Next(s, e)) <==> Patient(s, e)
  {
    hide RowsOk, CreatorsOk, WorkersOk, VpcOk, Next, Staff;
    if e.Claim? {
      StaffOfClaim(s, e.worker, e.lb);
    } else if e.Insert? {
      StaffOfInsert(s, e.lb, e.specs);
      NobodyWorksFor(s, e.lb);
    } else {
      StaffStep(s, e);
      StaffApart(s, Next(s, e));
    }
  }

  lemma StaffApart(s: State, t: State)
    requires RunnersApart(s) && Staff(s, t)
    ensures RunnersApart(t)
  {}

  lemma StaffStep(s: State, e: Event)
    requires Enabled(s, e) && !e.Claim? && !e.Insert?
    ensures Staff(s, Next(s, e))
  {
    hide Next, Staff, Enabled;
    if e.Mark? || e.WorkerCall? || e.WorkerFinish? || e.WorkerCrash? {
      StaffOfWorker(s, e);
    } else if e.Attach? || e.Finalize? || e.CompensatePick? || e.CompensateCall? || e.DropHandle? || e.CreatorCrash? {
      StaffOfCreatorEnd(s, e);
    } else if e.SetStatus? || e.Touch? {
      StaffOfRow(s, e);
    } else if e.TenantCreates? || e.TenantDeletes? || e.OtherReferences? || e.OtherClears? || e.Tick? {
      StaffOfOthers(s, e);
    } else {
      StaffOfCreator(s, e);
    }
  }

  // ---- exactly which steps unsettle a load balancer ----

  /** A call made for one load balancer leaves the rows and creators of the others. */
  lemma CallLeavesOthers(s: State, e: Event, y: LbId, a: AddressId)
    requires Enabled(s, e) && (e.CompensateCall? || e.WorkerCall?) && Actor(s, e) != Some(y) && Relies(s, y, a)
    ensures Relies(Next(s, e), y, a)
  {}

  lemma TakenIsCleared(vpc: Store, y: LbId, a: AddressId, r: Reply)
    requires Refers(vpc, y, a) && (r.Done? || r.applied)
    ensures !Refers(AfterCall(vpc, ClearReference(a), r), y, a)
  {}

  lemma HarmIsDone(s: State, e: Event, y: LbId, a: AddressId)
    requires Enabled(s, e) && Harms(s, e, y, a)
    ensures Relies(Next(s, e), y, a) && !BoundTo(Next(s, e), y, a)
  {
    VpcStep(s, e);
    hide Next, Relies;
    CallLeavesOthers(s, e, y, a);
    TakenIsCleared(s.vpc, y, a, e.reply);
  }

  /** A step keeps every reference that is relied on, and runners apart from live creators, if and
      only if it takes no such reference and claims no row whose creator is alive. */
  lemma BackedExact(s: State, e: Event)
    requires Inv(s) && Backed(s) && Enabled(s, e)
    ensures Backed(Next(s, e)) <==> Harmless(s, e) && Patient(s, e)
  {
    MarkedStep(s, e);
    RunnersExact(s, e);
    hide Inv, Next, Relies, BoundTo, MarkedOk, RunnersApart, Takes, Patient, Enabled;
    if y, a :| Harms(s, e, y, a) {
      HarmIsDone(s, e, y, a);
    } else {
      forall y, a | Relies(Next(s, e), y, a) ensures BoundTo(Next(s, e), y, a) {
        StillRelied(s, e, y, a);
      }
    }
  }

  lemma StillRelied(s: State, e: Event, y: LbId, a: AddressId)
    requires Inv(s) && Backed(s) && Enabled(s, e) && !Harms(s, e, y, a) && Relies(Next(s, e), y, a)
    ensures BoundTo(Next(s, e), y, a)
  {
    hide Inv, Next, Relies, BoundTo, MarkedOk, RunnersApart, Takes, Enabled;
    NewlyRelied(s, e, y, a);
    if Relies(s, y, a) { ReliedStays(s, e, y, a); }
  }

  /** The step clears the reference behind a binding of a finalized load balancer. */
  ghost predicate Unbinds(s: State, e: Event, y: LbId)
    requires Enabled(s, e)
  {
    exists a :: Takes(s, e, y, a) && Final(s, y) && Named(s, y, a)
  }

  lemma NamedBinding(s: State, y: LbId, a: AddressId)
    requires Final(s, y) && Named(s, y, a) && BoundLb(s, y)
    ensures BoundTo(s, y, a)
  {}

  lemma StillNamed(s: State, e: Event, y: LbId, a: AddressId)
    requires Enabled(s, e) && (e.CompensateCall? || e.WorkerCall?) && Final(s, y) && Named(s, y, a)
    ensures Final(Next(s, e), y) && Named(Next(s, e), y, a)
  {}

  lemma TakenIsUnbound(s: State, e: Event, y: LbId, a: AddressId)
    requires Enabled(s, e) && Takes(s, e, y, a) && Final(s, y) && Named(s, y, a)
    ensures !BoundLb(Next(s, e), y)
  {
    HarmIsDone(s, e, y, a);
    StillNamed(s, e, y, a);
    hide Next, Relies, Takes, Named, Final, BoundTo, BoundLb;
    if BoundLb(Next(s, e), y) { NamedBinding(Next(s, e), y, a); }
  }

  lemma FamiliesBound(s: State, y: LbId)
    requires Inv(s) && Final(s, y)
    ensures s.rows[y].vips.Keys == s.rows[y].families
  {
    assert RowOk(s, y);
  }

  lemma UntakenStaysBound(s: State, e: Event, y: LbId)
    requires Inv(s) && Backed(s) && Enabled(s, e) && !Unbinds(s, e, y)
    ensures BoundLb(Next(s, e), y)
  {
    var t := Next(s, e);
    if Final(t, y) {
      StepInv(s, e);
      FamiliesBound(t, y);
      forall f | f in t.rows[y].vips ensures BoundTo(t, y, t.rows[y].vips[f].addr) {
        var a := t.rows[y].vips[f].addr;
        assert Named(t, y, a) && Relies(t, y, a);
        hide Inv, Next, BoundTo, MarkedOk, RunnersApart, Enabled;
        FinalNotHarmed(s, e, y, a);
        StillRelied(s, e, y, a);
      }
    }
  }

  /** What harms y through an address its finalized row names unbinds it; a row is finalized by a
      step that takes nothing. */
  lemma FinalNotHarmed(s: State, e: Event, y: LbId, a: AddressId)
    requires Enabled(s, e) && !Unbinds(s, e, y) && Final(Next(s, e), y) && Named(Next(s, e), y, a)
    ensures !Harms(s, e, y, a)
  {
    if Takes(s, e, y, a) {
      NamedBefore(s, e, y, a);
    }
  }

  lemma NamedBefore(s: State, e: Event, y: LbId, a: AddressId)
    requires Enabled(s, e) && (e.CompensateCall? || e.WorkerCall?) && Final(Next(s, e), y) && Named(Next(s, e), y, a)
    ensures Final(s, y) && Named(s, y, a)
  {}

  /** From a well-backed state, every finalized load balancer is still bound after a step if and
      only if the step does not clear, for another load balancer, a reference its row names. */
  lemma BoundExact(s: State, e: Event)
    requires Inv(s) && Backed(s) && Enabled(s, e)
    ensures Bound(Next(s, e)) <==> forall y :: !Unbinds(s, e, y)
  {
    hide Inv, Backed, Next, BoundLb, Takes, Final, Named, Enabled;
    forall y ensures BoundLb(Next(s, e), y) <==> !Unbinds(s, e, y) {
      if Unbinds(s, e, y) {
        var a :| Takes(s, e, y, a) && Final(s, y) && Named(s, y, a);
        TakenIsUnbound(s, e, y, a);
      } else {
        UntakenStaysBound(s, e, y);
      }
    }
  }

  // ---- whole runs ----

  /** Every step is harmless and patient. */
  ghost predicate Considerate(s: State, es: seq<Event>)
    requires Run(s, es)
    decreases |es|
  {
    es == [] || (Harmless(s, es[0]) && Patient(s, es[0]) && Considerate(Next(s, es[0]), es[1..]))
  }

  ghost predicate BackedThroughout(s: State, es: seq<Event>)
    requires Run(s, es)
    decreases |es|
  {
    Backed(s) && (es == [] || BackedThroughout(Next(s, es[0]), es[1..]))
  }

  /** Every state of a run is backed if and only if every step is harmless and patient. */
  lemma {:induction false} BackedRunExact(s: State, es: seq<Event>)
    requires Inv(s) && Backed(s) && Run(s, es)
    ensures BackedThroughout(s, es) <==> Considerate(s, es)
    ensures Considerate(s, es) ==> Backed(After(s, es))
    decreases |es|
  {
    hide Inv, Backed, Next, Harmless, Patient, Enabled;
    if es != [] {
      StepInv(s, es[0]);
      BackedExact(s, es[0]);
      if Backed(Next(s, es[0])) { BackedRunExact(Next(s, es[0]), es[1..]); }
    }
  }

  lemma InitBacked(age: nat)
    ensures Inv(Init(age)) && Backed(Init(age))
  {
    InitInv(age);
  }

  /** In every reachable state of such a run, a load balancer that is neither CREATING nor
      DELETING has, for exactly its declared families, an address that exists and carries its
      reference. */
  lemma FinalIsBound(age: nat, es: seq<Event>, x: LbId)
    requires Run(Init(age), es) && Considerate(Init(age), es)
    ensures var t := After(Init(age), es);
      Final(t, x) ==>
        && t.rows[x].vips.Keys == t.rows[x].families
        && forall f :: f in t.rows[x].families ==> BoundTo(t, x, t.rows[x].vips[f].addr)
  {
    var t := After(Init(age), es);
    InitBacked(age);
    BackedRunExact(Init(age), es);
    RunInv(Init(age), es);
    if Final(t, x) {
      FamiliesBound(t, x);
      forall f | f in t.rows[x].families ensures BoundTo(t, x, t.rows[x].vips[f].addr) {
        assert Named(t, x, t.rows[x].vips[f].addr) && Relies(t, x, t.rows[x].vips[f].addr);
      }
    }
  }

  /** A run whose states are fresh and whose steps are scoped, where asked. */
  ghost predicate RunWith(s: State, es: seq<Event>, young: bool, scoped: bool)
    decreases |es|
  {
    es == [] ||
    (Enabled(s, es[0]) && (young ==> Fresh(s)) && (scoped ==> Scoped(s, es[0]))
     && RunWith(Next(s, es[0]), es[1..], young, scoped))
  }

  lemma FreshIsPatient(s: State, e: Event)
    requires Enabled(s, e) && Fresh(s)
    ensures Patient(s, e)
  {}

  /** With creators younger than the runner's age threshold and releases that clear only the
      balancer's own references, every step is harmless and patient. */
  lemma {:induction false} FreshScopedIsConsiderate(s: State, es: seq<Event>)
    requires RunWith(s, es, true, true)
    ensures Run(s, es) && Considerate(s, es)
    decreases |es|
  {
    hide Next, Enabled, Fresh, Takes, Patient;
    if es != [] {
      FreshIsPatient(s, es[0]);
      FreshScopedIsConsiderate(Next(s, es[0]), es[1..]);
    }
  }

  // ---- both assumptions are needed ----

  ghost predicate CanUnbind(s: State, young: bool, scoped: bool) {
    exists es :: RunWith(s, es, young, scoped) && Run(s, es) && !Bound(After(s, es))
  }

  /** One step of such a run. */
  ghost predicate Steps(s: State, e: Event, t: State, young: bool, scoped: bool) {
    Enabled(s, e) && Next(s, e) == t && (young ==> Fresh(s)) && (scoped ==> Scoped(s, e))
  }

  lemma UnbindsAfter(s: State, e: Event, t: State, young: bool, scoped: bool)
    requires Steps(s, e, t, young, scoped) && CanUnbind(t, young, scoped)
    ensures CanUnbind(s, young, scoped)
  {
    hide Fresh, Scoped, Bound;
    var es :| RunWith(t, es, young, scoped) && Run(t, es) && !Bound(After(t, es));
    assert ([e] + es)[1..] == es;
    assert RunWith(s, [e] + es, young, scoped) && Run(s, [e] + es) && !Bound(After(s, [e] + es));
  }

  lemma UnbindsNow(s: State, young: bool, scoped: bool, y: LbId)
    requires !BoundLb(s, y)
    ensures CanUnbind(s, young, scoped)
  {
    hide BoundLb;
    assert RunWith(s, [], young, scoped) && After(s, []) == s;
  }

  const LINK := Spec(V4, Some(7))
  const LINKED: map<Family, Vip> := map[V4 := Vip(7, Linked)]

  /** Load balancer x, which wants to link the free tenant address 7, and its create worker. */
  function Creating7(s: State, x: LbId, c: Creator, vips: map<Family, Vip>): State {
    s.(born := s.born + {x}, rows := s.rows[x := Row(Creating, {V4}, vips, s.now)], creators := map[x := c])
  }

  function Linked7(s: State, x: LbId): State
    requires 7 in s.vpc
  {
    s.(vpc := s.vpc[7 := s.vpc[7].(referrer := Some(ByLb(x)))])
  }

  /** The create, uninterrupted. */
  function LinkedCreate(s: State, x: LbId): State
    requires 7 in s.vpc
  {
    Linked7(s, x).(born := s.born + {x}, rows := s.rows[x := Row(Inactive, {V4}, LINKED, s.now)],
                   log := s.log + [Created(x), Registered(x)])
  }

  ghost predicate CanLinkCreate(s: State, x: LbId) {
    && 7 in s.vpc && 7 in s.used && s.vpc[7].referrer == None && x !in s.born && x !in s.rows
    && s.creators == map[] && s.workers == map[]
  }

  lemma InsertsLink(s: State, x: LbId)
    requires CanLinkCreate(s, x)
    ensures Steps(s, Insert(x, [LINK]), Creating7(s, x, Creator([LINK], map[], {}, Acquire), map[]), true, false)
  {
    assert Families([LINK]) == {V4};
    SameState(Next(s, Insert(x, [LINK])), Creating7(s, x, Creator([LINK], map[], {}, Acquire), map[]));
  }

  lemma SetsLink(s: State, x: LbId)
    requires CanLinkCreate(s, x)
    ensures Steps(Creating7(s, x, Creator([LINK], map[], {}, Acquire), map[]), LinkReply(x, Done),
                  Creating7(Linked7(s, x), x, Creator([LINK], map[], {}, ResolveLink(7)), map[]), true, false)
  {
    SameState(Next(Creating7(s, x, Creator([LINK], map[], {}, Acquire), map[]), LinkReply(x, Done)),
              Creating7(Linked7(s, x), x, Creator([LINK], map[], {}, ResolveLink(7)), map[]));
  }

  lemma ResolvesLink(s: State, x: LbId)
    ensures Steps(Creating7(s, x, Creator([LINK], map[], {}, ResolveLink(7)), map[]), GetReply(x, true),
                  Creating7(s, x, Creator([LINK], LINKED, {}, Persist), map[]), true, false)
  {
    SameState(Next(Creating7(s, x, Creator([LINK], map[], {}, ResolveLink(7)), map[]), GetReply(x, true)),
              Creating7(s, x, Creator([LINK], LINKED, {}, Persist), map[]));
  }

  lemma AttachesLink(s: State, x: LbId)
    requires s.workers == map[]
    ensures Steps(Creating7(s, x, Creator([LINK], LINKED, {}, Persist), map[]), Attach(x, true),
                  Creating7(s, x, Creator([], LINKED, {V4}, Acquire), LINKED), true, false)
  {
    var none: set<Family> := {};
    assert [LINK][1..] == [] && none + {V4} == {V4};
    SameState(Next(Creating7(s, x, Creator([LINK], LINKED, {}, Persist), map[]), Attach(x, true)),
              Creating7(s, x, Creator([], LINKED, {V4}, Acquire), LINKED));
  }

  lemma FinalizesLink(s: State, x: LbId)
    requires s.workers == map[] && s.creators == map[] && 7 in s.vpc
    ensures Steps(Creating7(Linked7(s, x), x, Creator([], LINKED, {V4}, Acquire), LINKED), Finalize(x, true),
                  LinkedCreate(s, x), true, false)
  {
    SameState(Next(Creating7(Linked7(s, x), x, Creator([], LINKED, {V4}, Acquire), LINKED), Finalize(x, true)),
              LinkedCreate(s, x));
  }

  lemma LinkedCreateRuns(s: State, x: LbId)
    requires CanLinkCreate(s, x) && CanUnbind(LinkedCreate(s, x), true, false)
    ensures CanUnbind(s, true, false)
  {
    hide Steps, CanUnbind, Creating7, LinkedCreate;
    var l := Linked7(s, x);
    var s1 := Creating7(s, x, Creator([LINK], map[], {}, Acquire), map[]);
    var s2 := Creating7(l, x, Creator([LINK], map[], {}, ResolveLink(7)), map[]);
    var s3 := Creating7(l, x, Creator([LINK], LINKED, {}, Persist), map[]);
    var s4 := Creating7(l, x, Creator([], LINKED, {V4}, Acquire), LINKED);
    FinalizesLink(s, x);
    UnbindsAfter(s4, Finalize(x, true), LinkedCreate(s, x), true, false);
    AttachesLink(l, x);
    UnbindsAfter(s3, Attach(x, true), s4, true, false);
    ResolvesLink(l, x);
    UnbindsAfter(s2, GetReply(x, true), s3, true, false);
    SetsLink(s, x);
    UnbindsAfter(s1, LinkReply(x, Done), s2, true, false);
    InsertsLink(s, x);
    UnbindsAfter(s, Insert(x, [LINK]), s1, true, false);
  }

  /** A Delete of x under way, or, without a worker, dead after it cleared the reference. */
  function Deleting7(s: State, x: LbId, referrer: Option<Referrer>, workers: map<WorkerId, Worker>): State
    requires 7 in s.vpc && x in s.rows
  {
    s.(vpc := s.vpc[7 := s.vpc[7].(referrer := referrer)], marked := s.marked + {x}, workers := workers,
       rows := s.rows[x := s.rows[x].(status := Deleting, updatedAt := s.now)])
  }

  ghost predicate CanDelete7(s: State, x: LbId) {
    && 7 in s.vpc && x in s.rows && s.rows[x].vips == LINKED && s.vpc[7].referrer == Some(ByLb(x))
    && s.creators == map[] && s.workers == map[]
  }

  lemma MarksLinked(s: State, x: LbId)
    requires CanDelete7(s, x)
    ensures var t := Deleting7(s, x, Some(ByLb(x)), map[0 := Worker(Deleter, x, LINKED, [ClearReference(7)])]);
      Steps(s, Mark(0, x), t, true, false)
  {
    assert ReleaseAll(Deleter, LINKED) == [ClearReference(7)];
    SameState(Next(s, Mark(0, x)),
              Deleting7(s, x, Some(ByLb(x)), map[0 := Worker(Deleter, x, LINKED, [ClearReference(7)])]));
  }

  lemma ClearsLinked(s: State, x: LbId)
    requires CanDelete7(s, x)
    ensures var t := Deleting7(s, x, Some(ByLb(x)), map[0 := Worker(Deleter, x, LINKED, [ClearReference(7)])]);
      var u := Deleting7(s, x, None, map[0 := Worker(Deleter, x, LINKED, [])]);
      Steps(t, WorkerCall(0, Done, false), u, true, false)
  {
    assert [ClearReference(7)][1..] == [];
    SameState(Next(Deleting7(s, x, Some(ByLb(x)), map[0 := Worker(Deleter, x, LINKED, [ClearReference(7)])]),
                   WorkerCall(0, Done, false)),
              Deleting7(s, x, None, map[0 := Worker(Deleter, x, LINKED, [])]));
  }

  lemma DiesLinked(s: State, x: LbId)
    requires CanDelete7(s, x)
    ensures Steps(Deleting7(s, x, None, map[0 := Worker(Deleter, x, LINKED, [])]), WorkerCrash(0),
                  Deleting7(s, x, None, map[]), true, false)
  {
    SameState(Next(Deleting7(s, x, None, map[0 := Worker(Deleter, x, LINKED, [])]), WorkerCrash(0)),
              Deleting7(s, x, None, map[]));
  }

  lemma HalfDeleteRuns(s: State, x: LbId)
    requires CanDelete7(s, x) && CanUnbind(Deleting7(s, x, None, map[]), true, false)
    ensures CanUnbind(s, true, false)
  {
    hide Steps, CanUnbind, Deleting7;
    var s1 := Deleting7(s, x, Some(ByLb(x)), map[0 := Worker(Deleter, x, LINKED, [ClearReference(7)])]);
    var s2 := Deleting7(s, x, None, map[0 := Worker(Deleter, x, LINKED, [])]);
    DiesLinked(s, x);
    UnbindsAfter(s2, WorkerCrash(0), Deleting7(s, x, None, map[]), true, false);
    ClearsLinked(s, x);
    UnbindsAfter(s1, WorkerCall(0, Done, false), s2, true, false);
    MarksLinked(s, x);
    UnbindsAfter(s, Mark(0, x), s1, true, false);
  }

  /** x was being deleted when its worker died, and y has taken the address since. */
  ghost predicate CanRetake(s: State, x: LbId, y: LbId) {
    && 7 in s.vpc && s.age == 0 && s.creators == map[] && s.workers == map[] && x != y
    && x in s.rows && s.rows[x].status == Deleting && s.rows[x].vips == LINKED && s.rows[x].updatedAt <= s.now
    && Final(s, y) && s.rows[y].vips == LINKED
  }

  /** The runner at work on x's row. */
  function Retrying(s: State, x: LbId, calls: seq<Call>): State {
    s.(now := s.now + 1, workers := map[0 := Worker(Runner, x, LINKED, calls)])
  }

  lemma ClaimsRetry(s: State, x: LbId, y: LbId)
    requires CanRetake(s, x, y)
    ensures Steps(s.(now := s.now + 1), Claim(0, x), Retrying(s, x, [ClearReference(7)]), true, false)
  {
    assert ReleaseAll(Runner, LINKED) == [ClearReference(7)];
    SameState(Next(s.(now := s.now + 1), Claim(0, x)), Retrying(s, x, [ClearReference(7)]));
  }

  lemma ClearsRetry(s: State, x: LbId, y: LbId)
    requires CanRetake(s, x, y)
    ensures var t := Retrying(s, x, []).(vpc := s.vpc[7 := s.vpc[7].(referrer := None)]);
      Steps(Retrying(s, x, [ClearReference(7)]), WorkerCall(0, Done, false), t, true, false) && !BoundLb(t, y)
  {
    var t := Retrying(s, x, []).(vpc := s.vpc[7 := s.vpc[7].(referrer := None)]);
    assert [ClearReference(7)][1..] == [];
    SameState(Next(Retrying(s, x, [ClearReference(7)]), WorkerCall(0, Done, false)), t);
    assert Final(t, y) && V4 in t.rows[y].vips;
  }

  /** The runner retries the release of x's row, and clears what y took in the meantime. */
  lemma RetryTakes(s: State, x: LbId, y: LbId)
    requires CanRetake(s, x, y)
    ensures CanUnbind(s, true, false)
  {
    var s1, s2 := s.(now := s.now + 1), Retrying(s, x, [ClearReference(7)]);
    var s3 := Retrying(s, x, []).(vpc := s.vpc[7 := s.vpc[7].(referrer := None)]);
    assert Steps(s, Tick(1), s1, true, false);
    hide Steps, CanUnbind, Retrying;
    ClearsRetry(s, x, y);
    UnbindsNow(s3, true, false, y);
    UnbindsAfter(s2, WorkerCall(0, Done, false), s3, true, false);
    ClaimsRetry(s, x, y);
    UnbindsAfter(s1, Claim(0, x), s2, true, false);
    UnbindsAfter(s, Tick(1), s1, true, false);
  }

  lemma DeletableAfterCreate(s: State, x: LbId)
    requires CanLinkCreate(s, x)
    ensures CanDelete7(LinkedCreate(s, x), x)
  {}

  lemma LinkableAfterDelete(s: State, x: LbId, y: LbId)
    requires CanDelete7(s, x) && 7 in s.used && y !in s.born && y !in s.rows && y != x
    ensures CanLinkCreate(Deleting7(s, x, None, map[]), y)
  {}

  lemma RetakenAfterCreate(s: State, x: LbId, y: LbId)
    requires CanLinkCreate(s, y) && s.age == 0 && x != y && x in s.rows && s.rows[x].status == Deleting
    requires s.rows[x].vips == LINKED && s.rows[x].updatedAt <= s.now
    ensures CanRetake(LinkedCreate(s, y), x, y)
  {}

  /** Without scoped releases the property fails, with every creator fresh and nothing lost:
      a Delete of 0 clears the tenant's address and dies, the tenant links the address to 1,
      and the runner's retry for 0 clears the reference of 1. */
  lemma UnscopedReleaseUnbinds()
    ensures CanUnbind(Init(0), true, false)
  {
    var s1 := Init(0).(vpc := map[7 := Address(None, None)], used := {7});
    SameState(Next(Init(0), TenantCreates(7)), s1);
    assert Steps(Init(0), TenantCreates(7), s1, true, false);
    UnscopedFrom(s1);
    hide *;
    UnbindsAfter(Init(0), TenantCreates(7), s1, true, false);
  }

  lemma UnscopedFrom(s1: State)
    requires CanLinkCreate(s1, 0) && s1.age == 0 && 1 !in s1.born && 1 !in s1.rows
    ensures CanUnbind(s1, true, false)
  {
    var s2 := LinkedCreate(s1, 0);
    DeletableAfterCreate(s1, 0);
    var s3 := Deleting7(s2, 0, None, map[]);
    LinkableAfterDelete(s2, 0, 1);
    assert s3.rows[0].vips == LINKED && s3.rows[0].status == Deleting && s3.rows[0].updatedAt <= s3.now;
    hide CanLinkCreate, CanDelete7, CanRetake, CanUnbind, LinkedCreate, Deleting7;
    RetakenAfterCreate(s3, 0, 1);
    RetryTakes(LinkedCreate(s3, 1), 0, 1);
    LinkedCreateRuns(s3, 1);
    HalfDeleteRuns(s2, 0);
    LinkedCreateRuns(s1, 0);
  }

  /** A step that makes no reference call, or clears its own reference. */
  lemma OwnSteps(s: State, e: Event, t: State)
    requires Enabled(s, e) && Next(s, e) == t
    requires Applied(s, e).Some? ==>
      forall y: LbId :: Actor(s, e) != Some(y) ==> !BoundTo(s, y, Applied(s, e).value.addr)
    ensures Steps(s, e, t, false, true)
  {
    hide BoundTo, Actor;
  }

  const AUTO: map<Family, Vip> := map[V4 := Vip(7, Auto)]

  lemma OrderInserts()
    ensures Steps(Init(0), Insert(0, [Spec(V4, None)]), Next(Init(0), Insert(0, [Spec(V4, None)])), false, true)
  {
    OwnSteps(Init(0), Insert(0, [Spec(V4, None)]), Next(Init(0), Insert(0, [Spec(V4, None)])));
  }

  lemma OrderCreates()
    ensures var s1 := Next(Init(0), Insert(0, [Spec(V4, None)]));
      Steps(s1, AllocCreated(0, 7), Alone(false, None, map[], SetRef(7)), false, true)
  {
    var s1 := Next(Init(0), Insert(0, [Spec(V4, None)]));
    assert Families([Spec(V4, None)]) == {V4};
    SameState(Next(s1, AllocCreated(0, 7)), Alone(false, None, map[], SetRef(7)));
    OwnSteps(s1, AllocCreated(0, 7), Alone(false, None, map[], SetRef(7)));
  }

  lemma OrderReferences()
    ensures Steps(Alone(false, None, map[], SetRef(7)), RefReply(0, Done), InHandState(false), false, true)
  {
    var s := Alone(false, None, map[], SetRef(7));
    SameState(Next(s, RefReply(0, Done)), InHandState(false));
    OwnSteps(s, RefReply(0, Done), InHandState(false));
  }

  /** The address is bound, and the creator only has to finalize; the clock and a runner follow. */
  function Slow(now: nat, referrer: Option<Referrer>, workers: map<WorkerId, Worker>): State {
    State(map[7 := Address(Some(0), referrer)], {7},
          map[0 := Row(Creating, {V4}, AUTO, 0)], {0}, {},
          map[0 := Creator([], AUTO, {V4}, Acquire)], workers, [], now, 0)
  }

  lemma OrderAttaches()
    ensures Steps(InHandState(false), Attach(0, true), Slow(0, Some(ByLb(0)), map[]), false, true)
  {
    var none: set<Family> := {};
    assert [Spec(V4, None)][1..] == [] && none + {V4} == {V4};
    SameState(Next(InHandState(false), Attach(0, true)), Slow(0, Some(ByLb(0)), map[]));
    OwnSteps(InHandState(false), Attach(0, true), Slow(0, Some(ByLb(0)), map[]));
  }

  lemma SlowTicks()
    ensures Steps(Slow(0, Some(ByLb(0)), map[]), Tick(1), Slow(1, Some(ByLb(0)), map[]), false, true)
  {
    OwnSteps(Slow(0, Some(ByLb(0)), map[]), Tick(1), Slow(1, Some(ByLb(0)), map[]));
  }

  function Impatient(calls: seq<Call>): map<WorkerId, Worker> {
    map[0 := Worker(Runner, 0, AUTO, calls)]
  }

  lemma SlowClaimed()
    ensures Steps(Slow(1, Some(ByLb(0)), map[]), Claim(0, 0),
                  Slow(1, Some(ByLb(0)), Impatient([ClearReference(7), FreeIP(7)])), false, true)
  {
    var s, t := Slow(1, Some(ByLb(0)), map[]),
                Slow(1, Some(ByLb(0)), Impatient([ClearReference(7), FreeIP(7)]));
    assert ReleaseAll(Runner, AUTO) == [ClearReference(7), FreeIP(7)];
    SameState(Next(s, Claim(0, 0)), t);
    OwnSteps(s, Claim(0, 0), t);
  }

  lemma SlowCleared()
    ensures Steps(Slow(1, Some(ByLb(0)), Impatient([ClearReference(7), FreeIP(7)])), WorkerCall(0, Done, false),
                  Slow(1, None, Impatient([FreeIP(7)])), false, true)
  {
    var s, t := Slow(1, Some(ByLb(0)), Impatient([ClearReference(7), FreeIP(7)])),
                Slow(1, None, Impatient([FreeIP(7)]));
    SameState(Next(s, WorkerCall(0, Done, false)), t);
    OwnSteps(s, WorkerCall(0, Done, false), t);
  }

  lemma SlowAbandoned()
    ensures Steps(Slow(1, None, Impatient([FreeIP(7)])), WorkerCrash(0), Slow(1, None, map[]), false, true)
  {
    SameState(Next(Slow(1, None, Impatient([FreeIP(7)])), WorkerCrash(0)), Slow(1, None, map[]));
    OwnSteps(Slow(1, None, Impatient([FreeIP(7)])), WorkerCrash(0), Slow(1, None, map[]));
  }

  /** The creator finalizes a row whose reference is gone. */
  lemma SlowFinalizes()
    ensures var s := Slow(1, None, map[]);
      Enabled(s, Finalize(0, true)) && Steps(s, Finalize(0, true), Next(s, Finalize(0, true)), false, true)
      && !BoundLb(Next(s, Finalize(0, true)), 0)
  {
    var s := Slow(1, None, map[]);
    var t := Next(s, Finalize(0, true));
    OwnSteps(s, Finalize(0, true), t);
    assert Final(t, 0) && V4 in t.rows[0].vips && !BoundTo(t, 0, 7);
  }

  lemma EarlyClaimFrom()
    ensures CanUnbind(Slow(0, Some(ByLb(0)), map[]), false, true)
  {
    hide Steps, CanUnbind, Slow, Impatient, BoundLb, Next, Enabled;
    SlowFinalizes();
    var s5 := Slow(1, None, map[]);
    UnbindsNow(Next(s5, Finalize(0, true)), false, true, 0);
    UnbindsAfter(s5, Finalize(0, true), Next(s5, Finalize(0, true)), false, true);
    SlowAbandoned();
    UnbindsAfter(Slow(1, None, Impatient([FreeIP(7)])), WorkerCrash(0), s5, false, true);
    SlowCleared();
    var s3 := Slow(1, Some(ByLb(0)), Impatient([ClearReference(7), FreeIP(7)]));
    UnbindsAfter(s3, WorkerCall(0, Done, false), Slow(1, None, Impatient([FreeIP(7)])), false, true);
    SlowClaimed();
    UnbindsAfter(Slow(1, Some(ByLb(0)), map[]), Claim(0, 0), s3, false, true);
    SlowTicks();
    UnbindsAfter(Slow(0, Some(ByLb(0)), map[]), Tick(1), Slow(1, Some(ByLb(0)), map[]), false, true);
  }

  /** Without patient claims it fails too: a runner claims the row of a slow but live creator,
      clears its reference and dies, and the creator finalizes. */
  lemma EarlyClaimUnbinds()
    ensures CanUnbind(Init(0), false, true)
  {
    hide Steps, CanUnbind, Slow, Alone, InHandState, Init;
    EarlyClaimFrom();
    OrderAttaches();
    UnbindsAfter(InHandState(false), Attach(0, true), Slow(0, Some(ByLb(0)), map[]), false, true);
    OrderReferences();
    UnbindsAfter(Alone(false, None, map[], SetRef(7)), RefReply(0, Done), InHandState(false), false, true);
    OrderCreates();
    OrderInserts();
    var s1 := Next(Init(0), Insert(0, [Spec(V4, None)]));
    UnbindsAfter(s1, AllocCreated(0, 7), Alone(false, None, map[], SetRef(7)), false, true);
    UnbindsAfter(Init(0), Insert(0, [Spec(V4, None)]), s1, false, true);
  }
}
