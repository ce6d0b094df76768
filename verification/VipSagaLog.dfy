/** Exactly-once lifecycle events and register/unregister intents over all workers and replicas. */
module VipSagaLog {
  import opened Domain
  import opened Vpc
  import opened VipSaga
  import opened VipSagaInvariant

  function Count(s: State, e: Entry): nat {
    multiset(s.log)[e]
  }

  /** For one load balancer: Created means it left CREATING, Deleted means its row is gone. */
  ghost predicate Once(s: State, x: LbId) {
    && Count(s, Created(x)) == Count(s, Registered(x)) <= 1
    && Count(s, Deleted(x)) == Count(s, Unregistered(x)) <= 1
    && (x !in s.born || x in s.creators || (x in s.rows && s.rows[x].status == Creating) ==> Count(s, Created(x)) == 0)
    && (x !in s.born || x in s.rows ==> Count(s, Deleted(x)) == 0)
    && (Count(s, Deleted(x)) == 1 ==> x in s.marked)
    && (Count(s, Created(x)) == 1 && x !in s.rows ==> Count(s, Deleted(x)) == 1)
  }

  /** Nothing about x changed, or only its status among those that are not CREATING. */
  ghost predicate SameFate(s: State, t: State, x: LbId) {
    && t.log == s.log && s.marked <= t.marked
    && (x in t.born <==> x in s.born) && (x in t.rows <==> x in s.rows)
    && (x in t.creators ==> x in s.creators)
    && (x in t.rows && t.rows[x].status == Creating ==> s.rows[x].status == Creating)
  }

  lemma OnceKept(s: State, t: State, x: LbId)
    requires Once(s, x) && SameFate(s, t, x)
    ensures Once(t, x)
  {}

  /** Two entries are appended to the log. */
  ghost predicate Appends(s: State, t: State, e: Entry, f: Entry) {
    forall g :: Count(t, g) == Count(s, g) + (if g == e then 1 else 0) + (if g == f then 1 else 0)
  }

  lemma Appended(s: State, t: State, e: Entry, f: Entry)
    requires t.log == s.log + [e, f]
    ensures Appends(s, t, e, f)
  {}

  lemma OnceFinalized(s: State, t: State, y: LbId, x: LbId)
    requires Once(s, x) && Appends(s, t, Created(y), Registered(y)) && t.born == s.born && t.marked == s.marked
    requires y in s.creators && y in s.rows && s.rows[y].status == Creating && y in s.born
    requires t.creators == s.creators - {y} && t.rows == s.rows[y := s.rows[y].(status := Inactive, updatedAt := s.now)]
    ensures Once(t, x)
  {
    hide Count;
    assert Count(t, Created(x)) == Count(s, Created(x)) + (if x == y then 1 else 0);
    assert Count(t, Registered(x)) == Count(s, Registered(x)) + (if x == y then 1 else 0);
    assert Count(t, Deleted(x)) == Count(s, Deleted(x)) && Count(t, Unregistered(x)) == Count(s, Unregistered(x));
  }

  lemma FinalizeEffect(s: State, y: LbId)
    requires Enabled(s, Finalize(y, true))
    ensures var t := Next(s, Finalize(y, true));
      && t.log == s.log + [Created(y), Registered(y)] && t.born == s.born && t.marked == s.marked
      && y in s.creators && y in s.rows && s.rows[y].status == Creating && t.creators == s.creators - {y}
      && t.rows == s.rows[y := s.rows[y].(status := Inactive, updatedAt := s.now)]
  {}

  lemma RowBorn(s: State, y: LbId)
    requires Inv(s) && y in s.rows
    ensures RowOk(s, y)
  {}

  lemma OnceFinalize(s: State, y: LbId, x: LbId)
    requires Inv(s) && Enabled(s, Finalize(y, true)) && Once(s, x)
    ensures Once(Next(s, Finalize(y, true)), x)
  {
    hide Inv, Next, Once, Appends;
    var t := Next(s, Finalize(y, true));
    RowBorn(s, y);
    FinalizeEffect(s, y);
    Appended(s, t, Created(y), Registered(y));
    OnceFinalized(s, t, y, x);
  }

  /** The row goes, with two entries if the worker announces the deletion. */
  lemma OnceFinished(s: State, t: State, w: WorkerId, x: LbId)
    requires Once(s, x) && w in s.workers && s.workers[w].lb in s.rows && t == AfterFinish(s, w)
    requires var y := s.workers[w].lb;
      && y in s.born && (s.rows[y].status == Deleting ==> y in s.marked)
      && (s.workers[w].kind == Deleter ==> s.rows[y].status == Deleting)
      && (s.workers[w].kind == Runner ==> s.rows[y].status in {Creating, Deleting})
    requires s.rows[s.workers[w].lb].status == Deleting ==>
      Appends(s, t, Deleted(s.workers[w].lb), Unregistered(s.workers[w].lb))
    ensures Once(t, x)
  {
    hide Count, Appends;
    var y := s.workers[w].lb;
    if s.rows[y].status == Deleting {
      assert Count(t, Deleted(x)) == Count(s, Deleted(x)) + (if x == y then 1 else 0)
          && Count(t, Unregistered(x)) == Count(s, Unregistered(x)) + (if x == y then 1 else 0)
          && Count(t, Created(x)) == Count(s, Created(x)) && Count(t, Registered(x)) == Count(s, Registered(x)) by {
        Appends4(s, t, y, x);
      }
    } else {
      SameLog(s, t);
    }
  }

  lemma Appends4(s: State, t: State, y: LbId, x: LbId)
    requires Appends(s, t, Deleted(y), Unregistered(y))
    ensures Count(t, Deleted(x)) == Count(s, Deleted(x)) + (if x == y then 1 else 0)
    ensures Count(t, Unregistered(x)) == Count(s, Unregistered(x)) + (if x == y then 1 else 0)
    ensures Count(t, Created(x)) == Count(s, Created(x)) && Count(t, Registered(x)) == Count(s, Registered(x))
  {
    hide Count;
  }

  lemma SameLog(s: State, t: State)
    requires t.log == s.log
    ensures forall g :: Count(t, g) == Count(s, g)
  {}

  lemma FinisherOk(s: State, w: WorkerId)
    requires Inv(s) && Enabled(s, WorkerFinish(w, true))
    ensures var y := s.workers[w].lb;
      && y in s.born && (s.rows[y].status == Deleting ==> y in s.marked)
      && (s.workers[w].kind == Deleter ==> s.rows[y].status == Deleting)
      && (s.workers[w].kind == Runner ==> s.rows[y].status in {Creating, Deleting})
  {
    hide VipsOk, CallsFor, Pending, Released, CreatorsOk, VpcOk;
    assert WorkerOk(s, w) && RowOk(s, s.workers[w].lb);
  }

  lemma OnceFinish(s: State, w: WorkerId, x: LbId)
    requires Inv(s) && Enabled(s, WorkerFinish(w, true)) && Once(s, x)
    ensures Once(Next(s, WorkerFinish(w, true)), x)
  {
    var t := AfterFinish(s, w);
    var y := s.workers[w].lb;
    assert Next(s, WorkerFinish(w, true)) == t;
    FinisherOk(s, w);
    hide Inv, Next, Once, Appends;
    if s.rows[y].status == Deleting { Appended(s, t, Deleted(y), Unregistered(y)); }
    OnceFinished(s, t, w, x);
  }

  lemma OnceDrop(s: State, y: LbId, ok: bool, x: LbId)
    requires Enabled(s, DropHandle(y, ok)) && Once(s, x)
    ensures Once(Next(s, DropHandle(y, ok)), x)
  {}

  lemma OnceInsert(s: State, e: Event, x: LbId)
    requires Inv(s) && Enabled(s, e) && e.Insert? && Once(s, x)
    ensures Once(Next(s, e), x)
  {}

  /** The creator's and the address service's steps do not touch rows' existence or status. */
  lemma FateOfCreator(s: State, e: Event, x: LbId)
    requires Enabled(s, e)
    requires e.AllocRefused? || e.AllocOrphaned? || e.AllocCreated? || e.RefReply? || e.UndoReply? || e.LinkReply?
      || e.GetReply? || e.Attach? || (e.Finalize? && !e.ok) || e.CompensatePick? || e.CompensateCall? || e.CreatorCrash?
    ensures SameFate(s, Next(s, e), x)
  {}

  lemma FateOfWorkers(s: State, e: Event, x: LbId)
    requires Enabled(s, e)
    requires e.Mark? || e.Claim? || e.WorkerCall? || (e.WorkerFinish? && !e.ok) || e.WorkerCrash?
    ensures SameFate(s, Next(s, e), x)
  {}

  lemma FateOfRows(s: State, e: Event, x: LbId)
    requires Enabled(s, e) && (e.SetStatus? || e.Touch?)
    ensures SameFate(s, Next(s, e), x)
  {}

  lemma FateOfTenant(s: State, e: Event, x: LbId)
    requires Enabled(s, e) && (e.TenantCreates? || e.TenantDeletes? || e.Tick?)
    ensures SameFate(s, Next(s, e), x)
  {}

  lemma FateOfServices(s: State, e: Event, x: LbId)
    requires Enabled(s, e) && (e.OtherReferences? || e.OtherClears?)
    ensures SameFate(s, Next(s, e), x)
  {}

  /** A step that neither begins nor ends a load balancer's row or creation. */
  predicate Minor(e: Event) {
    !e.Insert? && !(e.Finalize? && e.ok) && !(e.WorkerFinish? && e.ok) && !e.DropHandle?
  }

  lemma FateStep(s: State, e: Event, x: LbId)
    requires Enabled(s, e) && Minor(e)
    ensures SameFate(s, Next(s, e), x)
  {
    hide Next, SameFate, Enabled;
    if e.Mark? || e.Claim? || e.WorkerCall? || e.WorkerFinish? || e.WorkerCrash? {
      FateOfWorkers(s, e, x);
    } else if e.SetStatus? || e.Touch? {
      FateOfRows(s, e, x);
    } else if e.TenantCreates? || e.TenantDeletes? || e.Tick? {
      FateOfTenant(s, e, x);
    } else if e.OtherReferences? || e.OtherClears? {
      FateOfServices(s, e, x);
    } else {
      FateOfCreator(s, e, x);
    }
  }

  lemma OnceStep(s: State, e: Event, x: LbId)
    requires Inv(s) && Enabled(s, e) && Once(s, x)
    ensures Once(Next(s, e), x)
  {
    hide Inv, Once, Next, SameFate, Enabled;
    if e.Insert? {
      OnceInsert(s, e, x);
    } else if e.Finalize? && e.ok {
      OnceFinalize(s, e.lb, x);
    } else if e.WorkerFinish? && e.ok {
      OnceFinish(s, e.worker, x);
    } else if e.DropHandle? {
      OnceDrop(s, e.lb, e.ok, x);
    } else {
      FateStep(s, e, x);
      OnceKept(s, Next(s, e), x);
    }
  }

  lemma {:induction false} OnceRun(s: State, es: seq<Event>, x: LbId)
    requires Inv(s) && Run(s, es) && Once(s, x)
    ensures Once(After(s, es), x)
    decreases |es|
  {
    if es != [] {
      StepInv(s, es[0]);
      OnceStep(s, es[0], x);
      OnceRun(Next(s, es[0]), es[1..], x);
    }
  }

  /** Over every run: CREATED and DELETED are emitted at most once, each with its intent; a
      finalized load balancer's row is absent exactly when DELETED was emitted; a load balancer
      that was never marked emits no DELETED, and one that is still in creation no CREATED. */
  lemma ExactlyOnce(age: nat, es: seq<Event>, x: LbId)
    requires Run(Init(age), es)
    ensures var t := After(Init(age), es);
      && Count(t, Created(x)) == Count(t, Registered(x)) <= 1
      && Count(t, Deleted(x)) == Count(t, Unregistered(x)) <= 1
      && (Count(t, Created(x)) == 1 ==> (x !in t.rows <==> Count(t, Deleted(x)) == 1))
      && (Count(t, Deleted(x)) == 1 ==> x in t.marked && x !in t.rows)
      && (x in t.creators ==> Count(t, Created(x)) == 0)
      && (x in t.rows && t.rows[x].status == Creating ==> Count(t, Created(x)) == 0 == Count(t, Deleted(x)))
  {
    InitInv(age);
    OnceRun(Init(age), es, x);
  }

  // ---- orphans ----

  ghost predicate Orphan(s: State, x: LbId) {
    x in s.born && x !in s.creators && Count(s, Created(x)) == 0
  }

  lemma OrphanStep(s: State, e: Event, x: LbId)
    requires Inv(s) && Enabled(s, e) && Orphan(s, x)
    ensures Orphan(Next(s, e), x)
  {
    if Minor(e) {
      hide Inv, Next, Enabled;
      FateStep(s, e, x);
    } else {
      OrphanMajor(s, e, x);
    }
  }

  lemma OrphanMajor(s: State, e: Event, x: LbId)
    requires Enabled(s, e) && Orphan(s, x) && !Minor(e)
    ensures Orphan(Next(s, e), x)
  {
    if e.Finalize? {
      Appended(s, Next(s, e), Created(e.lb), Registered(e.lb));
    } else if e.WorkerFinish? && Next(s, e).log != s.log {
      var y := s.workers[e.worker].lb;
      Appended(s, Next(s, e), Deleted(y), Unregistered(y));
    }
  }

  /** A load balancer whose creator is gone before it finalized never emits CREATED, and
      DELETED only if a Delete marked it: compensation and the runner remove it silently. */
  lemma {:induction false} OrphanIsSilent(s: State, es: seq<Event>, x: LbId)
    requires Inv(s) && Run(s, es) && Once(s, x) && Orphan(s, x)
    ensures var t := After(s, es);
      Count(t, Created(x)) == 0 && (x !in t.marked ==> Count(t, Deleted(x)) == 0)
    decreases |es|
  {
    if es != [] {
      StepInv(s, es[0]);
      OnceStep(s, es[0], x);
      OrphanStep(s, es[0], x);
      OrphanIsSilent(Next(s, es[0]), es[1..], x);
    }
  }
}
