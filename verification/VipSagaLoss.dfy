/** Address conservation: what the load balancer owes the address service is named by a row,
    is in a live creator's hand, or was lost by exactly one of five kinds of event. */
module VipSagaLoss {
  import opened Domain
  import opened Vpc
  import opened VipSaga
  import opened VipSagaInvariant

  /** The address exists, and was ordered for x or carries x's reference. */
  ghost predicate Owes(s: State, x: LbId, a: AddressId) {
    a in s.vpc && (s.vpc[a].maker == Some(x) || s.vpc[a].referrer == Some(ByLb(x)))
  }

  /** The creator's `allocated` map and the address it is working on. */
  function InHand(c: Creator): set<AddressId> {
    Addrs(c.held) + (if c.pc.SetRef? || c.pc.UndoAlloc? || c.pc.ResolveLink? then {c.pc.addr} else {})
  }

  predicate Named(s: State, x: LbId, a: AddressId) {
    x in s.rows && a in Addrs(s.rows[x].vips)
  }

  predicate Carried(s: State, x: LbId, a: AddressId) {
    x in s.creators && a in InHand(s.creators[x])
  }

  ghost predicate Stranded(s: State, x: LbId, a: AddressId) {
    Owes(s, x, a) && !Named(s, x, a) && !Carried(s, x, a)
  }

  datatype Loss =
    | CrashBeforePersist   // the creator dies between allocation and AttachVIP
    | AllocationAbandoned  // the order's reply or poll fails, or the reference and the undo both fail
    | LinkAbandoned        // the reference was set, but its reply or the following Get failed
    | ReleaseFailed        // compensation could not release, and dropped the handle anyway
    | AttachedAfterMark    // Delete captured the row before AttachVIP landed, and the creator is gone

  /** Classified from the state before the event alone. */
  ghost function LossOf(s: State, e: Event, x: LbId, a: AddressId): Option<Loss>
    requires Enabled(s, e)
  {
    match e
    case AllocOrphaned(y, b, _) =>
      if y == x && b == a then Some(AllocationAbandoned) else None
    case UndoReply(y, r) =>
      if y == x && s.creators[x].pc.addr == a && a in s.vpc && r.Failed? && (r.applied ==> s.vpc[a].referrer.Some?)
      then Some(AllocationAbandoned) else None
    case LinkReply(y, r) =>
      if y == x && s.creators[x].specs[0].link == Some(a) && r == Failed(true) && CanReference(s.vpc, a, x)
      then Some(LinkAbandoned) else None
    case GetReply(y, ok) =>
      if y == x && !ok && s.creators[x].pc.addr == a && Owes(s, x, a) then Some(LinkAbandoned) else None
    case DropHandle(y, ok) =>
      if y == x && Owes(s, x, a) && (ok || !Named(s, x, a))
         && (exists f :: f in s.creators[x].pc.failed && f in s.creators[x].held && s.creators[x].held[f].addr == a)
      then Some(ReleaseFailed) else None
    case CreatorCrash(y) =>
      if y == x && Owes(s, x, a) && Carried(s, x, a) && !Named(s, x, a)
      then Some(if exists f :: f in s.creators[x].saved && f in s.creators[x].held && s.creators[x].held[f].addr == a
                then AttachedAfterMark else CrashBeforePersist)
      else None
    case WorkerFinish(w, ok) =>
      if ok && s.workers[w].kind == Deleter && s.workers[w].lb == x && Owes(s, x, a)
         && Named(s, x, a) && a !in Addrs(s.workers[w].vips) && !Carried(s, x, a)
      then Some(AttachedAfterMark) else None
    case _ => None
  }

  /** x can never come to hold a (again). */
  ghost predicate Gone(s: State, x: LbId, a: AddressId) {
    && x in s.born && !Named(s, x, a) && !Carried(s, x, a)
    && (x in s.creators && !s.creators[x].pc.Compensate? ==>
          a in s.used && forall i :: 0 <= i < |s.creators[x].specs| ==> s.creators[x].specs[i].link != Some(a))
  }

  lemma StrandedIsGone(s: State, x: LbId, a: AddressId)
    requires Inv(s) && Stranded(s, x, a)
    ensures Gone(s, x, a)
  {}

  // ---- what a step does to the address service ----

  function VpcNext(s: State, e: Event): Store
    requires Enabled(s, e)
  {
    match e
    case AllocOrphaned(x, a, _) => s.vpc[a := Address(Some(x), None)]
    case AllocCreated(x, a) => s.vpc[a := Address(Some(x), None)]
    case RefReply(x, r) => AfterSet(s.vpc, s.creators[x].pc.addr, x, r)
    case LinkReply(x, r) => AfterSet(s.vpc, s.creators[x].specs[0].link.value, x, r)
    case UndoReply(x, r) => AfterCall(s.vpc, FreeIP(s.creators[x].pc.addr), r)
    case CompensateCall(x, r) => AfterCall(s.vpc, s.creators[x].pc.calls[0], r)
    case WorkerCall(w, r, _) => AfterCall(s.vpc, s.workers[w].calls[0], r)
    case TenantCreates(a) => s.vpc[a := Address(None, None)]
    case TenantDeletes(a) => s.vpc - {a}
    case OtherReferences(a) => s.vpc[a := s.vpc[a].(referrer := Some(ByOther))]
    case OtherClears(a) => s.vpc[a := s.vpc[a].(referrer := None)]
    case _ => s.vpc
  }

  lemma VpcOfCreate(s: State, e: Event)
    requires Enabled(s, e)
    requires e.Insert? || e.AllocRefused? || e.AllocOrphaned? || e.AllocCreated?
      || e.RefReply? || e.UndoReply? || e.LinkReply?
    ensures Next(s, e).vpc == VpcNext(s, e)
  {
    hide AfterSet, AfterCall;
  }

  lemma VpcOfCreateEnd(s: State, e: Event)
    requires Enabled(s, e)
    requires e.GetReply? || e.Attach? || e.Finalize? || e.CompensatePick? || e.CompensateCall? || e.DropHandle?
      || e.CreatorCrash?
    ensures Next(s, e).vpc == VpcNext(s, e)
  {
    hide AfterSet, AfterCall;
  }

  lemma VpcOfWorker(s: State, e: Event)
    requires Enabled(s, e)
    requires e.Mark? || e.Claim? || e.WorkerCall? || e.WorkerFinish? || e.WorkerCrash? || e.SetStatus? || e.Touch?
    ensures Next(s, e).vpc == VpcNext(s, e)
  {
    hide AfterSet, AfterCall;
  }

  lemma VpcOfOthers(s: State, e: Event)
    requires Enabled(s, e)
    requires e.TenantCreates? || e.TenantDeletes? || e.OtherReferences? || e.OtherClears? || e.Tick?
    ensures Next(s, e).vpc == VpcNext(s, e)
  {}

  lemma VpcStep(s: State, e: Event)
    requires Enabled(s, e)
    ensures Next(s, e).vpc == VpcNext(s, e)
  {
    hide Next, VpcNext, Enabled;
    if e.Insert? || e.AllocRefused? || e.AllocOrphaned? || e.AllocCreated?
        || e.RefReply? || e.UndoReply? || e.LinkReply? {
      VpcOfCreate(s, e);
    } else if e.Mark? || e.Claim? || e.WorkerCall? || e.WorkerFinish? || e.WorkerCrash? || e.SetStatus? || e.Touch? {
      VpcOfWorker(s, e);
    } else if e.TenantCreates? || e.TenantDeletes? || e.OtherReferences? || e.OtherClears? || e.Tick? {
      VpcOfOthers(s, e);
    } else {
      VpcOfCreateEnd(s, e);
    }
  }

  // ---- one step ----

  /** The step loses a exactly when it strands it, and what is gone stays gone. */
  ghost predicate Exact(s: State, t: State, lost: Option<Loss>, x: LbId, a: AddressId) {
    && (lost.Some? <==> Stranded(t, x, a) && !Stranded(s, x, a))
    && (Gone(s, x, a) ==> Gone(t, x, a) && (Owes(t, x, a) ==> Owes(s, x, a)))
  }

  /** x's row and creator hold what they held, and x owes no more than it did. */
  ghost predicate Untouched(s: State, t: State, x: LbId, a: AddressId) {
    && (Owes(t, x, a) ==> Owes(s, x, a))
    && (x in t.rows <==> x in s.rows) && (x in s.rows ==> t.rows[x].vips == s.rows[x].vips)
    && (x in t.creators <==> x in s.creators) && (x in s.creators ==> t.creators[x] == s.creators[x])
    && s.used <= t.used && s.born <= t.born
  }

  lemma ExactUntouched(s: State, t: State, x: LbId, a: AddressId)
    requires Untouched(s, t, x, a)
    ensures Exact(s, t, None, x, a)
  {}

  lemma ExactQuiet(s: State, e: Event, x: LbId, a: AddressId)
    requires Enabled(s, e)
    requires e.Mark? || e.Claim? || e.WorkerCrash? || e.SetStatus? || e.Touch? || e.Tick? || (e.WorkerFinish? && !e.ok)
    ensures Exact(s, Next(s, e), LossOf(s, e, x, a), x, a)
  {
    ExactUntouched(s, Next(s, e), x, a);
  }

  lemma UntouchedOutside(s: State, e: Event, x: LbId, a: AddressId)
    requires Enabled(s, e) && (e.TenantCreates? || e.TenantDeletes?)
    ensures Untouched(s, Next(s, e), x, a)
  {}

  lemma UntouchedByService(s: State, e: Event, x: LbId, a: AddressId)
    requires Enabled(s, e) && (e.OtherReferences? || e.OtherClears?)
    ensures Untouched(s, Next(s, e), x, a)
  {}

  lemma ExactEnvironment(s: State, e: Event, x: LbId, a: AddressId)
    requires Enabled(s, e)
    requires e.TenantCreates? || e.TenantDeletes? || e.OtherReferences? || e.OtherClears?
    ensures Exact(s, Next(s, e), LossOf(s, e, x, a), x, a)
  {
    hide Next, Enabled, Untouched, Exact;
    if e.OtherReferences? || e.OtherClears? { UntouchedByService(s, e, x, a); } else { UntouchedOutside(s, e, x, a); }
    ExactUntouched(s, Next(s, e), x, a);
  }

  lemma ExactWorkerCall(s: State, e: Event, x: LbId, a: AddressId)
    requires Enabled(s, e) && e.WorkerCall?
    ensures Exact(s, Next(s, e), LossOf(s, e, x, a), x, a)
  {}

  /** The creator changes its program counter only, between two that hold no address. */
  lemma ExactCreatorQuiet(s: State, e: Event, x: LbId, a: AddressId)
    requires Enabled(s, e)
    requires e.AllocRefused? || (e.Attach? && !e.ok) || (e.Finalize? && !e.ok) || e.CompensatePick?
    ensures Exact(s, Next(s, e), LossOf(s, e, x, a), x, a)
  {}

  lemma ExactCompensate(s: State, e: Event, x: LbId, a: AddressId)
    requires Enabled(s, e) && e.CompensateCall?
    ensures Exact(s, Next(s, e), LossOf(s, e, x, a), x, a)
  {}

  lemma ExactInsert(s: State, e: Event, x: LbId, a: AddressId)
    requires Inv(s) && Enabled(s, e) && e.Insert?
    ensures Exact(s, Next(s, e), LossOf(s, e, x, a), x, a)
  {}

  /** A new address is nobody's yet. */
  lemma NewAddress(s: State, x: LbId, a: AddressId)
    requires Inv(s) && a !in s.used
    ensures !Owes(s, x, a) && !Named(s, x, a) && !Carried(s, x, a)
  {}

  lemma ExactOrphanedRetried(s: State, x: LbId, b: AddressId, a: AddressId)
    requires Inv(s) && Enabled(s, AllocOrphaned(x, b, true))
    ensures Exact(s, Next(s, AllocOrphaned(x, b, true)), LossOf(s, AllocOrphaned(x, b, true), x, a), x, a)
  {}

  lemma ExactOrphanedFailed(s: State, x: LbId, b: AddressId, a: AddressId)
    requires Inv(s) && Enabled(s, AllocOrphaned(x, b, false))
    ensures Exact(s, Next(s, AllocOrphaned(x, b, false)), LossOf(s, AllocOrphaned(x, b, false), x, a), x, a)
  {
    NewAddress(s, x, b);
    assert InHand(Failing(s.creators[x])) == InHand(s.creators[x]);
    hide Inv, InHand, Addrs;
  }

  lemma ExactOrphaned(s: State, e: Event, x: LbId, a: AddressId)
    requires Inv(s) && Enabled(s, e) && e.AllocOrphaned?
    ensures Exact(s, Next(s, e), LossOf(s, e, x, a), x, a)
  {
    hide Inv, Next, Exact, Owes, Untouched;
    if e.lb == x {
      if e.retried { ExactOrphanedRetried(s, x, e.addr, a); } else { ExactOrphanedFailed(s, x, e.addr, a); }
    } else {
      NewAddress(s, x, e.addr);
      UntouchedByOrphan(s, e, x, a);
      ExactUntouched(s, Next(s, e), x, a);
    }
  }

  lemma UntouchedByOrphan(s: State, e: Event, x: LbId, a: AddressId)
    requires Enabled(s, e) && e.AllocOrphaned? && e.lb != x && !Owes(s, x, e.addr)
    ensures Untouched(s, Next(s, e), x, a)
  {}

  lemma ExactCreated(s: State, e: Event, x: LbId, a: AddressId)
    requires Inv(s) && Enabled(s, e) && e.AllocCreated?
    ensures Exact(s, Next(s, e), LossOf(s, e, x, a), x, a)
  {}

  lemma ExactRef(s: State, e: Event, x: LbId, a: AddressId)
    requires Inv(s) && Enabled(s, e) && e.RefReply?
    ensures Exact(s, Next(s, e), LossOf(s, e, x, a), x, a)
  {
    var t := Next(s, e);
    if e.lb == x {
      var c := s.creators[x];
      assert CreatorOk(s, x);
      assert Owes(t, x, a) ==> Owes(s, x, a);
      if e.reply.Done? { HandAcquired(c, Vip(c.pc.addr, Auto)); }
    } else {
      ExactUntouched(s, t, x, a);
    }
  }

  lemma HandAcquired(c: Creator, vip: Vip)
    requires c.specs != [] && c.pc in {SetRef(vip.addr), ResolveLink(vip.addr)} && c.specs[0].family !in c.held
    ensures InHand(Acquired(c, vip)) == InHand(c)
  {
    var d := Acquired(c, vip);
    assert d.held[c.specs[0].family].addr in Addrs(d.held);
    forall b | b in Addrs(c.held) ensures b in Addrs(d.held) {
      var f :| f in c.held && c.held[f].addr == b;
      assert d.held[f].addr == b;
    }
  }

  lemma UntouchedByCall(s: State, e: Event, x: LbId, a: AddressId)
    requires Enabled(s, e) && e.UndoReply? && e.lb != x
    ensures Untouched(s, Next(s, e), x, a)
  {}

  /** The undone address leaves the creator's hand; it is lost unless it left the service too. */
  lemma ExactUndoOwn(s: State, x: LbId, r: Reply, a: AddressId)
    requires x in s.creators && CreatorOk(s, x) && Enabled(s, UndoReply(x, r))
    ensures Exact(s, Next(s, UndoReply(x, r)), LossOf(s, UndoReply(x, r), x, a), x, a)
  {
    hide VipsOk, SpecsOk, Released;
  }

  lemma ExactUndo(s: State, e: Event, x: LbId, a: AddressId)
    requires Inv(s) && Enabled(s, e) && e.UndoReply?
    ensures Exact(s, Next(s, e), LossOf(s, e, x, a), x, a)
  {
    hide CreatorOk, RowsOk, WorkersOk, VpcOk, Next, Exact, Untouched;
    if e.lb == x {
      ExactUndoOwn(s, x, e.reply, a);
    } else {
      UntouchedByCall(s, e, x, a);
      ExactUntouched(s, Next(s, e), x, a);
    }
  }

  lemma UntouchedByLink(s: State, e: Event, x: LbId, a: AddressId)
    requires Enabled(s, e) && e.LinkReply? && e.lb != x
    ensures Untouched(s, Next(s, e), x, a)
  {}

  lemma LinkOwes(vpc: Store, b: AddressId, x: LbId, r: Reply, a: AddressId)
    ensures var after := AfterSet(vpc, b, x, r);
      && (a in after <==> a in vpc) && (a in vpc ==> after[a].maker == vpc[a].maker)
      && (a != b && a in vpc ==> after[a] == vpc[a])
      && (a == b && a in vpc && (r == Failed(false) || !CanReference(vpc, a, x)) ==> after[a] == vpc[a])
      && (a == b && (r.Done? || r.applied) && CanReference(vpc, a, x) ==> after[a].referrer == Some(ByLb(x)))
  {}

  /** A link whose reply is an error although it was set is in nobody's hand. */
  lemma LinkLost(s: State, t: State, x: LbId, b: AddressId, r: Reply, a: AddressId)
    requires x in s.creators && CreatorOk(s, x) && s.creators[x].pc == Acquire
    requires s.creators[x].specs != [] && s.creators[x].specs[0].link == Some(b)
    requires t.rows == s.rows && t.born == s.born && t.used == s.used && t.vpc == AfterSet(s.vpc, b, x, r) && r.Failed?
    requires x in t.creators && t.creators[x] == Failing(s.creators[x])
    ensures Exact(s, t, if a == b && r.applied && CanReference(s.vpc, a, x) then Some(LinkAbandoned) else None, x, a)
  {
    LinkOwes(s.vpc, b, x, r, a);
    assert InHand(t.creators[x]) == InHand(s.creators[x]) == Addrs(s.creators[x].held);
    NamedIsHeld(s, x);
    hide AfterSet, CanReference, VipsOk, InHand, Released;
  }

  lemma LinkHeld(s: State, t: State, x: LbId, b: AddressId, a: AddressId)
    requires x in s.creators && CreatorOk(s, x) && s.creators[x].pc == Acquire
    requires s.creators[x].specs != [] && s.creators[x].specs[0].link == Some(b)
    requires t.rows == s.rows && t.born == s.born && t.used == s.used && t.vpc == AfterSet(s.vpc, b, x, Done)
    requires x in t.creators && t.creators[x] == s.creators[x].(pc := ResolveLink(b))
    ensures Exact(s, t, None, x, a)
  {
    LinkOwes(s.vpc, b, x, Done, a);
    assert InHand(t.creators[x]) == InHand(s.creators[x]) + {b};
    hide AfterSet, CanReference, VipsOk, InHand, Released, PcOk;
  }

  /** What the row of a live creator names, the creator holds. */
  lemma NamedIsHeld(s: State, x: LbId)
    requires x in s.creators && CreatorOk(s, x)
    ensures forall a :: Named(s, x, a) ==> a in Addrs(s.creators[x].held)
  {
    hide PcOk, VipsOk, Released;
  }

  lemma LinkBorn(s: State, x: LbId, r: Reply)
    requires Enabled(s, LinkReply(x, r))
    ensures Next(s, LinkReply(x, r)).born == s.born && Next(s, LinkReply(x, r)).used == s.used
  {}

  lemma ExactLink(s: State, e: Event, x: LbId, a: AddressId)
    requires Inv(s) && Enabled(s, e) && e.LinkReply?
    ensures Exact(s, Next(s, e), LossOf(s, e, x, a), x, a)
  {
    hide Inv, Next, Exact, Untouched, CreatorOk, VpcOk, AfterSet, Evolves, CanReference;
    if e.lb == x {
      CreatorBorn(s, x);
      LinkFrame(s, x, e.reply);
      LinkBorn(s, x, e.reply);
      VpcStep(s, e);
      var b := s.creators[x].specs[0].link.value;
      if e.reply.Done? { LinkHeld(s, Next(s, e), x, b, a); } else { LinkLost(s, Next(s, e), x, b, e.reply, a); }
    } else {
      UntouchedByLink(s, e, x, a);
      ExactUntouched(s, Next(s, e), x, a);
    }
  }

  lemma ExactGet(s: State, e: Event, x: LbId, a: AddressId)
    requires Inv(s) && Enabled(s, e) && e.GetReply?
    ensures Exact(s, Next(s, e), LossOf(s, e, x, a), x, a)
  {
    var t := Next(s, e);
    if e.lb == x {
      var c := s.creators[x];
      assert CreatorOk(s, x) && (x in s.rows ==> RowOk(s, x));
      if e.ok { HandAcquired(c, Vip(c.pc.addr, Linked)); }
    } else {
      ExactUntouched(s, t, x, a);
    }
  }

  lemma UntouchedByAttach(s: State, y: LbId, x: LbId, a: AddressId)
    requires y in s.creators && CanAttach(s, y) && y != x
    ensures Untouched(s, AfterAttach(s, y), x, a)
  {}

  /** The row names what the creator held, and the creator holds it still. */
  lemma AttachedHand(s: State, t: State, x: LbId)
    requires x in s.creators && CreatorOk(s, x) && s.creators[x].pc == Persist
    requires CanAttach(s, x) && t == AfterAttach(s, x)
    ensures InHand(t.creators[x]) == InHand(s.creators[x]) == Addrs(s.creators[x].held)
    ensures forall a :: Named(t, x, a) ==> a in InHand(t.creators[x])
    ensures forall a :: Named(s, x, a) ==> a in InHand(s.creators[x])
  {
    NamedIsHeld(s, x);
    hide CreatorOk;
    var c, f := s.creators[x], s.creators[x].specs[0].family;
    forall a | Named(t, x, a) ensures a in Addrs(c.held) {
      var g :| g in t.rows[x].vips && t.rows[x].vips[g].addr == a;
      if g == f { assert c.held[f].addr == a; } else { assert Named(s, x, a); }
    }
  }

  lemma ExactAttachOwn(s: State, t: State, x: LbId, a: AddressId)
    requires x in s.creators && CreatorOk(s, x) && s.creators[x].pc == Persist
    requires CanAttach(s, x) && t == AfterAttach(s, x)
    ensures Exact(s, t, None, x, a)
  {
    AttachedHand(s, t, x);
    hide CreatorOk, InHand, Addrs, Named;
    var rest := s.creators[x].specs[1..];
    assert forall i :: 0 <= i < |rest| ==> rest[i] == s.creators[x].specs[i + 1];
  }

  lemma ExactAttach(s: State, e: Event, x: LbId, a: AddressId)
    requires Inv(s) && Enabled(s, e) && e.Attach? && e.ok
    ensures Exact(s, Next(s, e), LossOf(s, e, x, a), x, a)
  {
    assert Next(s, e) == AfterAttach(s, e.lb);
    hide Next, Exact, Untouched, CreatorOk, RowsOk, WorkersOk, VpcOk, AfterAttach;
    if e.lb == x {
      ExactAttachOwn(s, Next(s, e), x, a);
    } else {
      UntouchedByAttach(s, e.lb, x, a);
      ExactUntouched(s, Next(s, e), x, a);
    }
  }

  lemma ExactFinalize(s: State, e: Event, x: LbId, a: AddressId)
    requires Inv(s) && Enabled(s, e) && e.Finalize? && e.ok
    ensures Exact(s, Next(s, e), LossOf(s, e, x, a), x, a)
  {}

  lemma UntouchedByDrop(s: State, y: LbId, ok: bool, x: LbId, a: AddressId)
    requires y != x
    ensures Untouched(s, Dropped(s, y, ok), x, a)
  {}

  /** Everything the creator held and did not fail to release is released. */
  lemma ReleasedIsNotOwed(s: State, x: LbId, a: AddressId)
    requires x in s.creators && CreatorOk(s, x) && s.creators[x].pc.Compensate?
    requires s.creators[x].pc.calls == [] && s.creators[x].pc.left == {} && Owes(s, x, a) && Carried(s, x, a)
    ensures exists f :: f in s.creators[x].pc.failed && f in s.creators[x].held && s.creators[x].held[f].addr == a
  {
    var c := s.creators[x];
    var f :| f in c.held && c.held[f].addr == a;
    assert VipOk(s, x, c.held[f]);
  }

  lemma FailedIsCarried(c: Creator, f: Family)
    requires c.pc.Compensate? && f in c.held
    ensures c.held[f].addr in InHand(c)
  {}

  lemma ExactDropOwn(s: State, x: LbId, ok: bool, a: AddressId)
    requires x in s.creators && CreatorOk(s, x) && Enabled(s, DropHandle(x, ok))
    ensures Exact(s, Dropped(s, x, ok), LossOf(s, DropHandle(x, ok), x, a), x, a)
  {
    if Owes(s, x, a) && Carried(s, x, a) { ReleasedIsNotOwed(s, x, a); }
    NamedIsHeld(s, x);
    if f :| f in s.creators[x].pc.failed && f in s.creators[x].held && s.creators[x].held[f].addr == a {
      FailedIsCarried(s.creators[x], f);
    }
    assert InHand(s.creators[x]) == Addrs(s.creators[x].held);
    hide PcOk, VipsOk, Released, InHand, Addrs;
  }

  lemma ExactDrop(s: State, e: Event, x: LbId, a: AddressId)
    requires Inv(s) && Enabled(s, e) && e.DropHandle?
    ensures Exact(s, Next(s, e), LossOf(s, e, x, a), x, a)
  {
    assert Next(s, e) == Dropped(s, e.lb, e.ok);
    hide Next, Exact, Untouched, CreatorOk, RowsOk, WorkersOk, VpcOk, Dropped;
    if e.lb == x {
      ExactDropOwn(s, x, e.ok, a);
    } else {
      UntouchedByDrop(s, e.lb, e.ok, x, a);
      ExactUntouched(s, Next(s, e), x, a);
    }
  }

  lemma ExactCrash(s: State, e: Event, x: LbId, a: AddressId)
    requires Enabled(s, e) && e.CreatorCrash?
    ensures Exact(s, Next(s, e), LossOf(s, e, x, a), x, a)
  {}

  lemma UntouchedByFinish(s: State, w: WorkerId, x: LbId, a: AddressId)
    requires w in s.workers && s.workers[w].lb in s.rows && s.workers[w].lb != x
    ensures Untouched(s, AfterFinish(s, w), x, a)
  {}

  /** What the finishing worker captured is released; a runner captured all that the row names. */
  lemma FinishedIsReleased(s: State, w: WorkerId, a: AddressId)
    requires w in s.workers && WorkerOk(s, w) && s.workers[w].calls == []
    ensures a in Addrs(s.workers[w].vips) ==> !Owes(s, s.workers[w].lb, a)
    ensures s.workers[w].kind == Runner && Named(s, s.workers[w].lb, a) ==> a in Addrs(s.workers[w].vips)
  {
    var k := s.workers[w];
    if a in Addrs(k.vips) {
      var f :| f in k.vips && k.vips[f].addr == a;
      assert VipOk(s, k.lb, k.vips[f]) && Released(s, k.lb, k.vips[f]);
    }
  }

  lemma ExactFinishOwn(s: State, w: WorkerId, a: AddressId)
    requires w in s.workers && WorkerOk(s, w) && Enabled(s, WorkerFinish(w, true))
    ensures var x := s.workers[w].lb; Exact(s, AfterFinish(s, w), LossOf(s, WorkerFinish(w, true), x, a), x, a)
  {
    FinishedIsReleased(s, w, a);
    hide WorkerOk, Addrs, InHand;
  }

  lemma ExactFinish(s: State, e: Event, x: LbId, a: AddressId)
    requires Inv(s) && Enabled(s, e) && e.WorkerFinish? && e.ok
    ensures Exact(s, Next(s, e), LossOf(s, e, x, a), x, a)
  {
    assert Next(s, e) == AfterFinish(s, e.worker);
    hide Next, Exact, Untouched, WorkerOk, RowsOk, CreatorsOk, VpcOk, AfterFinish;
    if s.workers[e.worker].lb == x {
      ExactFinishOwn(s, e.worker, a);
    } else {
      UntouchedByFinish(s, e.worker, x, a);
      ExactUntouched(s, Next(s, e), x, a);
    }
  }

  /** The five kinds of loss are all the ways the saga strands an address. */
  lemma LossExact(s: State, e: Event, x: LbId, a: AddressId)
    requires Inv(s) && Enabled(s, e)
    ensures Exact(s, Next(s, e), LossOf(s, e, x, a), x, a)
  {
    hide Inv, Exact, LossOf, Next, Enabled;
    match e
    case Insert(_, _) => ExactInsert(s, e, x, a);
    case AllocRefused(_) => ExactCreatorQuiet(s, e, x, a);
    case AllocOrphaned(_, _, _) => ExactOrphaned(s, e, x, a);
    case AllocCreated(_, _) => ExactCreated(s, e, x, a);
    case RefReply(_, _) => ExactRef(s, e, x, a);
    case UndoReply(_, _) => ExactUndo(s, e, x, a);
    case LinkReply(_, _) => ExactLink(s, e, x, a);
    case GetReply(_, _) => ExactGet(s, e, x, a);
    case Attach(_, ok) => if ok { ExactAttach(s, e, x, a); } else { ExactCreatorQuiet(s, e, x, a); }
    case Finalize(_, ok) => if ok { ExactFinalize(s, e, x, a); } else { ExactCreatorQuiet(s, e, x, a); }
    case CompensatePick(_, _) => ExactCreatorQuiet(s, e, x, a);
    case CompensateCall(_, _) => ExactCompensate(s, e, x, a);
    case DropHandle(_, _) => ExactDrop(s, e, x, a);
    case CreatorCrash(_) => ExactCrash(s, e, x, a);
    case WorkerCall(_, _, _) => ExactWorkerCall(s, e, x, a);
    case WorkerFinish(_, ok) => if ok { ExactFinish(s, e, x, a); } else { ExactQuiet(s, e, x, a); }
    case TenantCreates(_) => ExactEnvironment(s, e, x, a);
    case TenantDeletes(_) => ExactEnvironment(s, e, x, a);
    case OtherReferences(_) => ExactEnvironment(s, e, x, a);
    case OtherClears(_) => ExactEnvironment(s, e, x, a);
    case _ => ExactQuiet(s, e, x, a);
  }

  // ---- whole runs ----

  lemma {:induction false} RunInv(s: State, es: seq<Event>)
    requires Inv(s) && Run(s, es)
    ensures Inv(After(s, es))
    decreases |es|
  {
    if es != [] {
      StepInv(s, es[0]);
      RunInv(Next(s, es[0]), es[1..]);
    }
  }

  /** The losses of (x, a) along a run, oldest first. */
  ghost function Losses(s: State, es: seq<Event>, x: LbId, a: AddressId): seq<Loss>
    requires Run(s, es)
    decreases |es|
  {
    if es == [] then []
    else (match LossOf(s, es[0], x, a) case Some(k) => [k] case None => []) + Losses(Next(s, es[0]), es[1..], x, a)
  }

  lemma {:induction false} GoneForGood(s: State, es: seq<Event>, x: LbId, a: AddressId)
    requires Inv(s) && Run(s, es) && Gone(s, x, a)
    ensures Gone(After(s, es), x, a) && Losses(s, es, x, a) == []
    ensures Owes(After(s, es), x, a) ==> Stranded(s, x, a)
    decreases |es|
  {
    if es != [] {
      StepInv(s, es[0]);
      LossExact(s, es[0], x, a);
      GoneForGood(Next(s, es[0]), es[1..], x, a);
    }
  }

  lemma {:induction false} LossesOfRun(s: State, es: seq<Event>, x: LbId, a: AddressId)
    requires Inv(s) && Run(s, es) && !Stranded(s, x, a)
    ensures |Losses(s, es, x, a)| <= 1
    ensures Losses(s, es, x, a) != [] ==> Gone(After(s, es), x, a)
    ensures Stranded(After(s, es), x, a) ==> Losses(s, es, x, a) != []
    decreases |es|
  {
    if es != [] {
      var t := Next(s, es[0]);
      StepInv(s, es[0]);
      LossExact(s, es[0], x, a);
      if LossOf(s, es[0], x, a).Some? {
        StrandedIsGone(t, x, a);
        GoneForGood(t, es[1..], x, a);
      } else {
        LossesOfRun(t, es[1..], x, a);
      }
    }
  }

  /** Conservation, over every run from the empty system: an address the load balancer owes is
      named by its row, carried by its live creator, or was lost by exactly one event, never
      two of these at once; and one that was lost is never named or carried again. */
  lemma AddressConservation(age: nat, es: seq<Event>, x: LbId, a: AddressId)
    requires Run(Init(age), es)
    ensures var t := After(Init(age), es);
      var lost := Losses(Init(age), es, x, a);
      && |lost| <= 1
      && (Owes(t, x, a) ==> (Named(t, x, a) || Carried(t, x, a) <==> lost == []))
      && (lost != [] ==> !Named(t, x, a) && !Carried(t, x, a))
  {
    InitInv(age);
    LossesOfRun(Init(age), es, x, a);
  }

  /** After a run without losses and without live creators, every address ordered or referenced
      by a load balancer is in that load balancer's row. */
  lemma NoLossNoLeak(age: nat, es: seq<Event>)
    requires Run(Init(age), es)
    requires forall x, a :: Losses(Init(age), es, x, a) == []
    requires After(Init(age), es).creators == map[]
    ensures var t := After(Init(age), es);
      forall x, a :: Owes(t, x, a) ==> Named(t, x, a)
  {
    var t := After(Init(age), es);
    forall x, a | Owes(t, x, a) ensures Named(t, x, a) {
      AddressConservation(age, es, x, a);
    }
  }

  // ---- what the classification tells ----

  /** A crash loses what was not persisted, or, after a Delete took the row away, what was; a
      Delete loses only a binding its mark did not see. */
  lemma CrashLoss(s: State, x: LbId, a: AddressId)
    requires Inv(s) && x in s.creators && LossOf(s, CreatorCrash(x), x, a).Some?
    ensures LossOf(s, CreatorCrash(x), x, a) == Some(AttachedAfterMark) ==> x in s.marked && x !in s.rows
    ensures LossOf(s, CreatorCrash(x), x, a) == Some(CrashBeforePersist) ==>
      forall f :: f in s.creators[x].saved ==> s.creators[x].held[f].addr != a
  {}

  // ---- deletion from the address service ----

  /** The load balancer on whose behalf a step runs. */
  function Actor(s: State, e: Event): Option<LbId>
    requires Enabled(s, e)
  {
    match e
    case UndoReply(x, _) => Some(x)
    case CompensateCall(x, _) => Some(x)
    case WorkerCall(w, _, _) => Some(s.workers[w].lb)
    case _ => None
  }

  ghost predicate KeptOrOwn(s: State, t: State, actor: Option<LbId>, a: AddressId)
    requires a in s.vpc
  {
    && (a in t.vpc ==> t.vpc[a].maker == s.vpc[a].maker)
    && (a !in t.vpc ==> actor.Some? && s.vpc[a].maker == actor)
  }

  lemma CallDeletes(vpc: Store, call: Call, r: Reply, a: AddressId)
    requires a in vpc
    ensures var after := AfterCall(vpc, call, r);
      if a in after then after[a].maker == vpc[a].maker else call == FreeIP(a)
  {}

  /** What a worker frees was ordered for its load balancer. */
  lemma WorkerFrees(s: State, w: WorkerId, a: AddressId)
    requires w in s.workers && WorkerOk(s, w) && s.workers[w].calls != []
    requires s.workers[w].calls[0] == FreeIP(a) && a in s.vpc
    ensures s.vpc[a].maker == Some(s.workers[w].lb)
  {
    var k := s.workers[w];
    assert k.calls[0] in k.calls;
    var f :| f in k.vips && CallFor(k.vips[f], k.calls[0]);
    assert VipOk(s, k.lb, k.vips[f]);
  }

  lemma CompensationFrees(s: State, x: LbId, a: AddressId)
    requires x in s.creators && CreatorOk(s, x) && s.creators[x].pc.Compensate? && s.creators[x].pc.calls != []
    requires s.creators[x].pc.calls[0] == FreeIP(a) && a in s.vpc
    ensures s.vpc[a].maker == Some(x)
  {
    var c := s.creators[x];
    assert CallFor(c.held[c.pc.cur], c.pc.calls[0]);
    assert VipOk(s, x, c.held[c.pc.cur]);
  }

  lemma UndoFrees(s: State, x: LbId)
    requires x in s.creators && CreatorOk(s, x) && s.creators[x].pc.UndoAlloc? && s.creators[x].pc.addr in s.vpc
    ensures s.vpc[s.creators[x].pc.addr].maker == Some(x)
  {}

  lemma WorkerIsOk(s: State, w: WorkerId)
    requires Inv(s) && w in s.workers
    ensures WorkerOk(s, w)
  {
    hide WorkerOk;
  }

  lemma RemoteCallDeletes(s: State, e: Event, a: AddressId)
    requires Inv(s) && Enabled(s, e) && a in s.vpc
    requires e.UndoReply? || e.CompensateCall? || e.WorkerCall?
    ensures KeptOrOwn(s, Next(s, e), Actor(s, e), a)
  {
    hide Next, Inv, CreatorOk, WorkerOk, VpcOk, AfterCall;
    VpcStep(s, e);
    match e
    case UndoReply(x, r) =>
      CreatorBorn(s, x);
      CallDeletes(s.vpc, FreeIP(s.creators[x].pc.addr), r, a);
      if s.creators[x].pc.addr == a { UndoFrees(s, x); }
    case CompensateCall(x, r) =>
      CreatorBorn(s, x);
      CallDeletes(s.vpc, s.creators[x].pc.calls[0], r, a);
      if s.creators[x].pc.calls[0] == FreeIP(a) { CompensationFrees(s, x, a); }
    case WorkerCall(w, r, _) =>
      WorkerIsOk(s, w);
      CallDeletes(s.vpc, s.workers[w].calls[0], r, a);
      if s.workers[w].calls[0] == FreeIP(a) { WorkerFrees(s, w, a); }
  }

  lemma ReferenceDeletesNothing(s: State, e: Event, a: AddressId)
    requires Enabled(s, e) && a in s.vpc
    requires e.RefReply? || e.LinkReply? || e.OtherReferences? || e.OtherClears?
    ensures KeptOrOwn(s, Next(s, e), None, a)
  {}

  lemma RowStepDeletesNothing(s: State, e: Event, a: AddressId)
    requires Enabled(s, e) && a in s.vpc
    requires !e.UndoReply? && !e.CompensateCall? && !e.WorkerCall? && !e.AllocCreated? && !e.AllocOrphaned?
    requires !e.RefReply? && !e.LinkReply? && !e.OtherReferences?
    requires !e.OtherClears? && !e.TenantCreates? && !e.TenantDeletes?
    ensures Next(s, e).vpc == s.vpc
  {}

  /** Apart from the tenant, only the load balancer an address was ordered for deletes it. */
  lemma OnlyMakerDeletes(s: State, e: Event, a: AddressId)
    requires Inv(s) && Enabled(s, e) && e != TenantDeletes(a) && a in s.vpc
    ensures KeptOrOwn(s, Next(s, e), Actor(s, e), a)
  {
    hide Inv;
    if e.UndoReply? || e.CompensateCall? || e.WorkerCall? {
      RemoteCallDeletes(s, e, a);
    } else if e.RefReply? || e.LinkReply? || e.OtherReferences? || e.OtherClears? {
      ReferenceDeletesNothing(s, e, a);
    } else if e.AllocCreated? || e.AllocOrphaned? || e.TenantCreates? {
      assert VpcOk(s) by { VpcOfInv(s); }
    } else if !e.TenantDeletes? {
      RowStepDeletesNothing(s, e, a);
    }
  }

  lemma VpcOfInv(s: State)
    requires Inv(s)
    ensures VpcOk(s)
  {}

  /** A tenant's address survives every run in which the tenant does not delete it. */
  lemma {:induction false} TenantAddressSurvives(s: State, es: seq<Event>, a: AddressId)
    requires Inv(s) && Run(s, es) && a in s.vpc && s.vpc[a].maker == None && TenantDeletes(a) !in es
    ensures a in After(s, es).vpc && After(s, es).vpc[a].maker == None
    decreases |es|
  {
    if es != [] {
      StepInv(s, es[0]);
      OnlyMakerDeletes(s, es[0], a);
      TenantAddressSurvives(Next(s, es[0]), es[1..], a);
    }
  }

  /** The three release routines agree on every binding a reachable row can name. */
  lemma ReachableReleasesAgree(age: nat, es: seq<Event>, x: LbId, f: Family)
    requires Run(Init(age), es)
    requires var t := After(Init(age), es); x in t.rows && f in t.rows[x].vips
    ensures var vip := After(Init(age), es).rows[x].vips[f];
      CreateRelease(vip) == DeleteRelease(vip) == RunnerRelease(vip)
  {
    InitInv(age);
    RunInv(Init(age), es);
    var t := After(Init(age), es);
    assert RowOk(t, x) && VipOk(t, x, t.rows[x].vips[f]);
    ReleasesAgreeIff(t.rows[x].vips[f]);
  }

  // ---- none of the five kinds is idle ----

  ghost predicate CanLose(s: State, kind: Loss, x: LbId, a: AddressId) {
    exists es :: Run(s, es) && Losses(s, es, x, a) == [kind]
  }

  lemma LosesNow(s: State, e: Event, x: LbId, a: AddressId)
    requires Enabled(s, e) && LossOf(s, e, x, a).Some?
    ensures CanLose(s, LossOf(s, e, x, a).value, x, a)
  {
    hide LossOf;
    assert [e][1..] == [];
    assert Run(Next(s, e), []) && Losses(Next(s, e), [], x, a) == [];
    assert Losses(s, [e], x, a) == [LossOf(s, e, x, a).value];
  }

  /** A step that loses nothing of load balancer 0 and address 7. */
  ghost predicate Steps(s: State, e: Event, t: State) {
    Enabled(s, e) && Next(s, e) == t && LossOf(s, e, 0, 7) == None
  }

  lemma LosesAfter(s: State, e: Event, t: State, kind: Loss)
    requires Steps(s, e, t) && CanLose(t, kind, 0, 7)
    ensures CanLose(s, kind, 0, 7)
  {
    hide LossOf;
    var es :| Run(t, es) && Losses(t, es, 0, 7) == [kind];
    assert ([e] + es)[1..] == es;
    assert Run(s, [e] + es) && Losses(s, [e] + es, 0, 7) == [kind];
  }

  lemma SameState(s: State, t: State)
    requires s.vpc == t.vpc && s.used == t.used && s.rows == t.rows && s.born == t.born && s.marked == t.marked
    requires s.creators == t.creators && s.workers == t.workers && s.log == t.log && s.now == t.now && s.age == t.age
    ensures s == t
  {}

  const ORDER := Spec(V4, None)

  /** Load balancer 0 asks for one new address; a Delete may be under way that captured no
      binding. */
  function Asking(marked: bool): State {
    Alone(marked, None, map[], Acquire).(vpc := map[], used := {})
  }

  function Alone(marked: bool, referrer: Option<Referrer>, held: map<Family, Vip>, pc: Pc): State {
    State(map[7 := Address(Some(0), referrer)], {7},
          map[0 := Row(if marked then Deleting else Creating, {V4}, map[], 0)], {0}, if marked then {0} else {},
          map[0 := Creator([ORDER], held, {}, pc)],
          if marked then map[1 := Worker(Deleter, 0, map[], [])] else map[], [], 0, 0)
  }

  function InHandState(marked: bool): State {
    Alone(marked, Some(ByLb(0)), map[V4 := Vip(7, Auto)], Persist)
  }

  lemma AskingStarts()
    ensures Steps(Init(0), Insert(0, [ORDER]), Asking(false))
  {
    assert Families([ORDER]) == {V4};
    SameState(Next(Init(0), Insert(0, [ORDER])), Asking(false));
  }

  lemma AskingMarked()
    ensures Steps(Asking(false), Mark(1, 0), Asking(true))
  {
    assert ReleaseAll(Deleter, map[]) == [];
    SameState(Next(Asking(false), Mark(1, 0)), Asking(true));
  }

  lemma AskingOrders(marked: bool)
    ensures Steps(Asking(marked), AllocCreated(0, 7), Alone(marked, None, map[], SetRef(7)))
  {
    SameState(Next(Asking(marked), AllocCreated(0, 7)), Alone(marked, None, map[], SetRef(7)));
  }

  lemma ToAsking(marked: bool, kind: Loss)
    requires CanLose(Asking(marked), kind, 0, 7)
    ensures CanLose(Init(0), kind, 0, 7)
  {
    hide Steps, CanLose, Asking, Init;
    AskingStarts();
    if marked {
      AskingMarked();
      LosesAfter(Asking(false), Mark(1, 0), Asking(true), kind);
    }
    LosesAfter(Init(0), Insert(0, [ORDER]), Asking(false), kind);
  }

  lemma ToOrdered(marked: bool, kind: Loss)
    requires CanLose(Alone(marked, None, map[], SetRef(7)), kind, 0, 7)
    ensures CanLose(Init(0), kind, 0, 7)
  {
    hide Steps, CanLose, Asking, Alone, Init;
    AskingOrders(marked);
    LosesAfter(Asking(marked), AllocCreated(0, 7), Alone(marked, None, map[], SetRef(7)), kind);
    ToAsking(marked, kind);
  }

  lemma ToHand(marked: bool, kind: Loss)
    requires CanLose(InHandState(marked), kind, 0, 7)
    ensures CanLose(Alone(marked, None, map[], SetRef(7)), kind, 0, 7)
  {
    var s := Alone(marked, None, map[], SetRef(7));
    SameState(Next(s, RefReply(0, Done)), InHandState(marked));
    LosesAfter(s, RefReply(0, Done), InHandState(marked), kind);
  }

  lemma CrashHappens()
    ensures CanLose(Init(0), CrashBeforePersist, 0, 7)
  {
    LosesNow(Alone(false, None, map[], SetRef(7)), CreatorCrash(0), 0, 7);
    ToOrdered(false, CrashBeforePersist);
  }

  lemma AbandonHappens()
    ensures CanLose(Init(0), AllocationAbandoned, 0, 7)
  {
    LosesNow(Asking(false), AllocOrphaned(0, 7, false), 0, 7);
    ToAsking(false, AllocationAbandoned);
  }

  /** Load balancer 0 links the tenant's address 7. */
  function Linking(referrer: Option<Referrer>, pc: Pc): State {
    State(map[7 := Address(None, referrer)], {7}, map[0 := Row(Creating, {V4}, map[], 0)], {0}, {},
          map[0 := Creator([Spec(V4, Some(7))], map[], {}, pc)], map[], [], 0, 0)
  }

  lemma LinkingStarts()
    ensures var s := Init(0).(vpc := map[7 := Address(None, None)], used := {7});
      Steps(Init(0), TenantCreates(7), s) && Steps(s, Insert(0, [Spec(V4, Some(7))]), Linking(None, Acquire))
  {
    var s := Init(0).(vpc := map[7 := Address(None, None)], used := {7});
    SameState(Next(Init(0), TenantCreates(7)), s);
    assert Families([Spec(V4, Some(7))]) == {V4};
    SameState(Next(s, Insert(0, [Spec(V4, Some(7))])), Linking(None, Acquire));
  }

  lemma LinkingSets()
    ensures Steps(Linking(None, Acquire), LinkReply(0, Done), Linking(Some(ByLb(0)), ResolveLink(7)))
  {
    SameState(Next(Linking(None, Acquire), LinkReply(0, Done)), Linking(Some(ByLb(0)), ResolveLink(7)));
  }

  lemma LinkingLoses()
    ensures CanLose(Linking(Some(ByLb(0)), ResolveLink(7)), LinkAbandoned, 0, 7)
  {
    LosesNow(Linking(Some(ByLb(0)), ResolveLink(7)), GetReply(0, false), 0, 7);
  }

  lemma LinkHappens()
    ensures CanLose(Init(0), LinkAbandoned, 0, 7)
  {
    hide Steps, CanLose, Linking, Init;
    LinkingLoses();
    LinkingSets();
    LosesAfter(Linking(None, Acquire), LinkReply(0, Done), Linking(Some(ByLb(0)), ResolveLink(7)), LinkAbandoned);
    LinkingStarts();
    var s := Init(0).(vpc := map[7 := Address(None, None)], used := {7});
    LosesAfter(s, Insert(0, [Spec(V4, Some(7))]), Linking(None, Acquire), LinkAbandoned);
    LosesAfter(Init(0), TenantCreates(7), s, LinkAbandoned);
  }

  const HELD: map<Family, Vip> := map[V4 := Vip(7, Auto)]

  lemma ReleaseHappens()
    ensures CanLose(InHandState(false), ReleaseFailed, 0, 7)
  {
    var s1 := Alone(false, Some(ByLb(0)), HELD, Compensate({V4}, V4, [], {}));
    var s2 := Alone(false, Some(ByLb(0)), HELD, Compensate({}, V4, [ClearReference(7), FreeIP(7)], {}));
    var none: set<Family> := {V4} - {V4};
    assert HELD.Keys == {V4} && none == {};
    SameState(Next(InHandState(false), Attach(0, false)), s1);
    SameState(Next(s1, CompensatePick(0, V4)), s2);
    DropLoses();
    LosesAfter(s1, CompensatePick(0, V4), s2, ReleaseFailed);
    LosesAfter(InHandState(false), Attach(0, false), s1, ReleaseFailed);
  }

  lemma DropLoses()
    ensures CanLose(Alone(false, Some(ByLb(0)), HELD, Compensate({}, V4, [ClearReference(7), FreeIP(7)], {})),
                    ReleaseFailed, 0, 7)
  {
    var s2 := Alone(false, Some(ByLb(0)), HELD, Compensate({}, V4, [ClearReference(7), FreeIP(7)], {}));
    var s3 := Alone(false, Some(ByLb(0)), HELD, Compensate({}, V4, [], {V4}));
    assert {} + {V4} == {V4};
    SameState(Next(s2, CompensateCall(0, Failed(false))), s3);
    assert V4 in s3.creators[0].pc.failed && s3.creators[0].held[V4].addr == 7;
    LosesNow(s3, DropHandle(0, true), 0, 7);
    LosesAfter(s2, CompensateCall(0, Failed(false)), s3, ReleaseFailed);
  }

  /** The binding landed after the mark; the creator then finishes or dies. */
  function Landed(alive: bool): State {
    State(map[7 := Address(Some(0), Some(ByLb(0)))], {7}, map[0 := Row(Deleting, {V4}, HELD, 0)], {0}, {0},
          if alive then map[0 := Creator([], HELD, {V4}, Acquire)] else map[],
          map[1 := Worker(Deleter, 0, map[], [])], [], 0, 0)
  }

  lemma AttachLands()
    ensures Steps(InHandState(true), Attach(0, true), Landed(true))
  {
    var none: set<Family> := {};
    assert [ORDER][1..] == [] && none + {V4} == {V4};
    SameState(Next(InHandState(true), Attach(0, true)), Landed(true));
  }

  lemma LanderDies()
    ensures Steps(Landed(true), CreatorCrash(0), Landed(false))
  {
    assert Landed(true).rows[0].vips[V4].addr == 7;
    assert Named(Landed(true), 0, 7);
    SameState(Next(Landed(true), CreatorCrash(0)), Landed(false));
  }

  lemma LandedLoses()
    ensures CanLose(Landed(false), AttachedAfterMark, 0, 7)
  {
    assert Landed(false).rows[0].vips[V4].addr == 7;
    assert Named(Landed(false), 0, 7);
    LosesNow(Landed(false), WorkerFinish(1, true), 0, 7);
  }

  lemma AttachHappens()
    ensures CanLose(InHandState(true), AttachedAfterMark, 0, 7)
  {
    hide Steps, CanLose, Landed, InHandState;
    LandedLoses();
    LanderDies();
    LosesAfter(Landed(true), CreatorCrash(0), Landed(false), AttachedAfterMark);
    AttachLands();
    LosesAfter(InHandState(true), Attach(0, true), Landed(true), AttachedAfterMark);
  }

  /** Each of the five kinds of loss happens in some run from the empty system. */
  lemma EachLossHappens(kind: Loss)
    ensures CanLose(Init(0), kind, 0, 7)
  {
    match kind
    case CrashBeforePersist => CrashHappens();
    case AllocationAbandoned => AbandonHappens();
    case LinkAbandoned => LinkHappens();
    case ReleaseFailed => ReleaseHappens(); ToHand(false, kind); ToOrdered(false, kind);
    case AttachedAfterMark => AttachHappens(); ToHand(true, kind); ToOrdered(true, kind);
  }
}
