/** The writers' transactions as the program issues them, statement by statement, with everybody
    else acting in between. Every path is a run of the row-lock protocol; what a writer returns
    is what its commit made true. */
module RowLockWriters {
  import opened Domain
  import opened RowLocks
  import opened RowLocksTheorems

  datatype Error = NotFound | FailedPrecondition | Aborted

  /** How a wait for a row lock ends. */
  datatype Wait = Free | Gone | TimedOut(waited: nat)

  class Database {
    var st: State
    ghost var start: State
    ghost var trace: seq<Event>

    ghost predicate Valid()
      reads this
    {
      Inv(st) && Run(start, trace) && After(start, trace) == st
    }

    constructor ()
      ensures st == Init() && trace == []
      ensures Valid()
    {
      st, start, trace := Init(), Init(), [];
    }

    /** Statements, commits and aborts of other transactions. The caller relies on the contract
        only. */
    method Yield(i: TxId)
      requires Valid()
      modifies this
      ensures Valid()
      ensures i in old(st).txs ==> i in st.txs && st.txs[i] == old(st).txs[i]
      ensures i !in old(st).txs ==> i !in st.txs
    {
    }

    method Do(e: Event)
      requires Valid() && Enabled(st, e) && !e.LockMarkOnce?
      modifies this
      ensures Valid() && st == Next(old(st), e) && start == old(start) && trace == old(trace) + [e]
    {
      RunExtend(start, trace, e);
      StepInv(st, e);
      st := Next(st, e);
      trace := trace + [e];
    }

    /** The last step was the commit of transaction i. */
    ghost predicate Committed(i: TxId)
      reads this
    {
      trace != [] && trace[|trace| - 1] == Commit(i)
    }

    method Rollback(i: TxId)
      requires Valid() && i in st.txs
      modifies this
      ensures Valid() && st.txs == old(st).txs - {i} && st.db == old(st).db
      ensures trace == old(trace) + [Abort(i)]
      ensures forall x: LbId :: !FreeLb(old(st), x) && HoldsLb(old(st).txs[i]) != Some(x) ==> !FreeLb(st, x)
      ensures forall g: TgId :: !FreeTg(old(st), g) && HoldsTg(old(st).txs[i]) != Some(g) ==> !FreeTg(st, g)
    {
      hide Inv, Run, After;
      ghost var s := st;
      Do(Abort(i));
      StillHeld(s, st, i);
    }

    /** Waits for the row while others act, until it is free, gone, or `patience` ran out (the
        caller's context was cancelled). */
    method AwaitLb(i: TxId, x: LbId, patience: nat) returns (w: Wait)
      requires Valid() && i in st.txs
      modifies this
      ensures Valid() && i in st.txs && st.txs[i] == old(st).txs[i]
      ensures w.Free? ==> CanLockLb(st, x)
      ensures w.Gone? ==> x !in st.db.lbs
      ensures w.TimedOut? ==> x in st.db.lbs && !FreeLb(st, x) && w.waited == patience
    {
      hide Inv, Run, After;
      var waited := 0;
      Yield(i);
      while x in st.db.lbs && !FreeLb(st, x) && waited < patience
        invariant Valid() && i in st.txs && st.txs[i] == old(st).txs[i] && waited <= patience
      {
        Yield(i);
        waited := waited + 1;
      }
      return if x !in st.db.lbs then Gone else if FreeLb(st, x) then Free else TimedOut(waited);
    }

    method AwaitTg(i: TxId, g: TgId, patience: nat) returns (w: Wait)
      requires Valid() && i in st.txs
      modifies this
      ensures Valid() && i in st.txs && st.txs[i] == old(st).txs[i]
      ensures w.Free? ==> CanLockTg(st, g)
      ensures w.Gone? ==> g !in st.db.tgs
      ensures w.TimedOut? ==> g in st.db.tgs && !FreeTg(st, g) && w.waited == patience
    {
      hide Inv, Run, After;
      var waited := 0;
      Yield(i);
      while g in st.db.tgs && !FreeTg(st, g) && waited < patience
        invariant Valid() && i in st.txs && st.txs[i] == old(st).txs[i] && waited <= patience
      {
        Yield(i);
        waited := waited + 1;
      }
      return if g !in st.db.tgs then Gone else if FreeTg(st, g) then Free else TimedOut(waited);
    }

    /** Two statements: the row lock, then the guarded update on a new snapshot. It gives up only
        while another transaction holds the row, and refuses only a protected row or one with
        children. */
    method MarkDeleting(i: TxId, x: LbId, patience: nat) returns (r: Result<(), Error>)
      requires Valid() && i !in st.txs
      modifies this
      ensures Valid() && i !in st.txs
      ensures r.Ok? ==> IsDeleting(st, x) && Childless(st.db, x) && Committed(i)
      ensures r == Err(Aborted) ==> x in st.db.lbs && !FreeLb(st, x)
      ensures r == Err(NotFound) ==> x !in st.db.lbs
      ensures r == Err(FailedPrecondition) ==> x in st.db.lbs && (st.db.lbs[x].protected || !Childless(st.db, x))
    {
      hide FreeLb, FreeTg, Inv, Run, After;
      Do(BeginMark(i, x));
      var w := AwaitLb(i, x, patience);
      if w.Gone? {
        Rollback(i);
        return Err(NotFound);
      }
      if w.TimedOut? {
        Rollback(i);
        return Err(Aborted);
      }
      Do(LockMark(i));
      r := GuardAndCommit(i, x);
    }

    /** The second statement and the commit. */
    method GuardAndCommit(i: TxId, x: LbId) returns (r: Result<(), Error>)
      requires Valid() && i in st.txs && st.txs[i] == MarkLocked(x)
      modifies this
      ensures Valid() && i !in st.txs
      ensures r.Ok? ==> IsDeleting(st, x) && Childless(st.db, x) && Committed(i)
      ensures r == Err(NotFound) ==> x !in st.db.lbs
      ensures r == Err(FailedPrecondition) ==> x in st.db.lbs && (st.db.lbs[x].protected || !Childless(st.db, x))
      ensures r != Err(Aborted)
    {
      hide FreeLb, FreeTg, Inv, Run, After;
      Yield(i);
      if x !in st.db.lbs {
        Rollback(i);
        return Err(NotFound);
      }
      Do(GuardMark(i));
      if st.txs[i] != Marked(x) {
        Rollback(i);
        return Err(FailedPrecondition);
      }
      Yield(i);
      KnowsMarked(st, i);
      Do(Commit(i));
      return Ok(());
    }

    /** One INSERT ... SELECT with a locking read: the project and the status guard come from the
        row as it is when the lock is got. `trigger` is what the status trigger makes of a status. */
    method InsertListener(i: TxId, x: LbId, id: ListenerId, trigger: Status -> Status, patience: nat)
      returns (r: Result<(), Error>)
      requires Valid() && i !in st.txs && forall from :: Recomputed(from, trigger(from))
      modifies this
      ensures Valid() && i !in st.txs
      ensures r.Ok? ==>
        && id in st.db.listeners && st.db.listeners[id].lb == x && x in st.db.lbs && st.db.lbs[x].status != Deleting
        && st.db.listeners[id].project == st.db.lbs[x].project && Committed(i)
        && exists from :: st.db.lbs[x].status == trigger(from)
      ensures r == Err(Aborted) ==> x in st.db.lbs && !FreeLb(st, x)
      ensures r == Err(FailedPrecondition) ==>
        x !in st.db.lbs || st.db.lbs[x].status == Deleting || id in st.db.listeners
      ensures r != Err(NotFound)
    {
      hide FreeLb, FreeTg, Inv, Run, After, Recomputed;
      if x !in st.db.lbs || st.db.lbs[x].status == Deleting { return Err(FailedPrecondition); }
      Do(BeginInsert(i, x, id));
      var w := AwaitLb(i, x, patience);
      if !w.Free? {
        Rollback(i);
        return Err(if w.Gone? then FailedPrecondition else Aborted);
      }
      Do(LockInsert(i, trigger(st.db.lbs[x].status)));
      if !st.txs[i].Inserted? {
        Rollback(i);
        return Err(FailedPrecondition);
      }
      Yield(i);
      if id in st.db.listeners {
        Rollback(i);
        return Err(FailedPrecondition);
      }
      KnowsInserted(st, i);
      Do(Commit(i));
      return Ok(());
    }

    /** One INSERT ... SELECT over the join of both rows, locked one after the other. Ok(true) is a
        new pair, Ok(false) one that was there already. */
    method AttachGroup(i: TxId, x: LbId, g: TgId, trigger: Status -> Status, patience: nat)
      returns (r: Result<bool, Error>)
      requires Valid() && i !in st.txs && forall from :: Recomputed(from, trigger(from))
      modifies this
      ensures Valid() && i !in st.txs
      ensures r.Ok? ==> (x, g) in st.db.attached
      ensures r == Ok(true) ==> Joined(st.db, x, g) && Committed(i)
      ensures r == Ok(true) ==> exists from :: st.db.lbs[x].status == trigger(from)
      ensures r == Ok(false) ==> trace == old(trace) || (trace != [] && trace[|trace| - 1] == Abort(i))
      ensures r == Err(Aborted) ==>
        (x in st.db.lbs && !FreeLb(st, x)) || (g in st.db.tgs && !FreeTg(st, g))
      ensures r == Err(FailedPrecondition) ==> !Joined(st.db, x, g) && (x, g) !in st.db.attached
      ensures r != Err(NotFound)
    {
      hide FreeLb, FreeTg, Inv, Run, After, Recomputed;
      if !Joined(st.db, x, g) {
        r := Existing(x, g);
        return;
      }
      Do(BeginAttach(i, x, g));
      var w := LockPair(i, x, g, patience);
      if w.Free? {
        r := InsertPair(i, x, g, trigger);
      } else {
        r := GiveUp(i, x, g, w);
      }
    }

    method LockPair(i: TxId, x: LbId, g: TgId, patience: nat) returns (w: Wait)
      requires Valid() && i in st.txs && st.txs[i] == Attaching(x, g, false, false)
      modifies this
      ensures Valid() && i in st.txs
      ensures w.Free? ==> st.txs[i] == Attaching(x, g, true, true)
      ensures w.Gone? ==> !Joined(st.db, x, g)
      ensures w.TimedOut? ==>
        || (x in st.db.lbs && !FreeLb(st, x) && HoldsLb(st.txs[i]) == None)
        || (g in st.db.tgs && !FreeTg(st, g) && HoldsTg(st.txs[i]) == None)
    {
      hide FreeLb, FreeTg, Inv, Run, After;
      w := AwaitLb(i, x, patience);
      if !w.Free? { return; }
      Do(LockAttachLb(i));
      w := AwaitTg(i, g, patience);
      if !w.Free? { return; }
      Do(LockAttachTg(i));
    }

    /** A row to be joined is gone, or another transaction holds it. */
    method GiveUp(i: TxId, x: LbId, g: TgId, w: Wait) returns (r: Result<bool, Error>)
      requires Valid() && i in st.txs && !w.Free?
      modifies this
      ensures Valid() && st.txs == old(st).txs - {i} && st.db == old(st).db && trace == old(trace) + [Abort(i)]
      ensures forall y: LbId :: !FreeLb(old(st), y) && HoldsLb(old(st).txs[i]) != Some(y) ==> !FreeLb(st, y)
      ensures forall h: TgId :: !FreeTg(old(st), h) && HoldsTg(old(st).txs[i]) != Some(h) ==> !FreeTg(st, h)
      ensures r == if w.TimedOut? then Err(Aborted)
                   else if (x, g) in st.db.attached then Ok(false) else Err(FailedPrecondition)
    {
      Rollback(i);
      if w.TimedOut? { return Err(Aborted); }
      r := Existing(x, g);
    }

    /** A guard that matched no row: the pair exists, or it may not. */
    method Existing(x: LbId, g: TgId) returns (r: Result<bool, Error>)
      ensures r == if (x, g) in st.db.attached then Ok(false) else Err(FailedPrecondition)
    {
      return if (x, g) in st.db.attached then Ok(false) else Err(FailedPrecondition);
    }

    /** Both rows are held: the join is evaluated on them as they are now. */
    method InsertPair(i: TxId, x: LbId, g: TgId, trigger: Status -> Status) returns (r: Result<bool, Error>)
      requires Valid() && i in st.txs && st.txs[i] == Attaching(x, g, true, true)
      requires forall from :: Recomputed(from, trigger(from))
      modifies this
      ensures Valid() && i !in st.txs
      ensures r.Ok? ==> (x, g) in st.db.attached
      ensures r == Ok(true) ==> Joined(st.db, x, g) && Committed(i)
      ensures r == Ok(true) ==> exists from :: st.db.lbs[x].status == trigger(from)
      ensures r == Ok(false) ==> trace != [] && trace[|trace| - 1] == Abort(i)
      ensures r == Err(Aborted) ==>
        (x in st.db.lbs && !FreeLb(st, x)) || (g in st.db.tgs && !FreeTg(st, g))
      ensures r == Err(FailedPrecondition) ==> !Joined(st.db, x, g) && (x, g) !in st.db.attached
      ensures r != Err(NotFound)
    {
      hide FreeLb, FreeTg, Inv, Run, After, Recomputed;
      Yield(i);
      if x !in st.db.lbs {
        Rollback(i);
        r := Existing(x, g);
        return;
      }
      Do(WriteAttach(i, trigger(st.db.lbs[x].status)));
      if !st.txs[i].Attached? {
        Rollback(i);
        r := Existing(x, g);
        return;
      }
      Yield(i);
      KnowsAttached(st, i);
      Do(Commit(i));
      return Ok(true);
    }

    /** The guarded update of the balancer, then the cascade on its listeners. */
    method MoveLoadBalancer(i: TxId, x: LbId, project: Project, patience: nat) returns (r: Result<(), Error>)
      requires Valid() && i !in st.txs
      modifies this
      ensures Valid() && i !in st.txs
      ensures r.Ok? ==> x in st.db.lbs && st.db.lbs[x].project == project && Committed(i)
      ensures r.Ok? ==> ListenersIn(st.db, x, project)
      ensures r == Err(NotFound) ==> x !in st.db.lbs
      ensures r == Err(FailedPrecondition) ==> HasPair(st.db, x)
      ensures r == Err(Aborted) ==> x in st.db.lbs && !FreeLb(st, x)
    {
      hide FreeLb, FreeTg, Inv, Run, After, ListenersIn;
      if HasPair(st.db, x) { return Err(FailedPrecondition); }
      Do(BeginMoveLb(i, x, project));
      var w := AwaitLb(i, x, patience);
      if !w.Free? {
        Rollback(i);
        return Err(if w.Gone? then NotFound else Aborted);
      }
      Do(LockMoveLb(i));
      CascadeAndCommit(i, x, project);
      return Ok(());
    }

    method CascadeAndCommit(i: TxId, x: LbId, project: Project)
      requires Valid() && i in st.txs && st.txs[i] == MovedLb(x, project)
      modifies this
      ensures Valid() && i !in st.txs
      ensures x in st.db.lbs && st.db.lbs[x].project == project && ListenersIn(st.db, x, project) && Committed(i)
    {
      hide Inv, Run, After, ListenersIn;
      Yield(i);
      Do(Cascade(i));
      Yield(i);
      KnowsCascaded(st, i);
      Do(Commit(i));
    }

    method MoveTargetGroup(i: TxId, g: TgId, project: Project, patience: nat) returns (r: Result<(), Error>)
      requires Valid() && i !in st.txs
      modifies this
      ensures Valid() && i !in st.txs
      ensures r.Ok? ==> g in st.db.tgs && st.db.tgs[g].project == project && Committed(i)
      ensures r == Err(NotFound) ==> g !in st.db.tgs
      ensures r == Err(FailedPrecondition) ==> TgHasPair(st.db, g)
      ensures r == Err(Aborted) ==> g in st.db.tgs && !FreeTg(st, g)
    {
      hide FreeLb, FreeTg, Inv, Run, After;
      if TgHasPair(st.db, g) { return Err(FailedPrecondition); }
      Do(BeginMoveTg(i, g, project));
      var w := AwaitTg(i, g, patience);
      if !w.Free? {
        Rollback(i);
        return Err(if w.Gone? then NotFound else Aborted);
      }
      Do(LockMoveTg(i));
      Yield(i);
      KnowsMovedTg(st, i);
      Do(Commit(i));
      return Ok(());
    }
  }

  /** A row held by another transaction than i stays held when i ends. */
  lemma StillHeld(s: State, t: State, i: TxId)
    requires i in s.txs && t.txs == s.txs - {i}
    ensures forall x: LbId :: !FreeLb(s, x) && HoldsLb(s.txs[i]) != Some(x) ==> !FreeLb(t, x)
    ensures forall g: TgId :: !FreeTg(s, g) && HoldsTg(s.txs[i]) != Some(g) ==> !FreeTg(t, g)
  {
    hide HoldsLb, HoldsTg;
    forall x: LbId | !FreeLb(s, x) && HoldsLb(s.txs[i]) != Some(x) ensures !FreeLb(t, x) {
      var j :| j in s.txs && HoldsLb(s.txs[j]) == Some(x);
      assert j in t.txs && t.txs[j] == s.txs[j];
    }
    forall g: TgId | !FreeTg(s, g) && HoldsTg(s.txs[i]) != Some(g) ensures !FreeTg(t, g) {
      var j :| j in s.txs && HoldsTg(s.txs[j]) == Some(g);
      assert j in t.txs && t.txs[j] == s.txs[j];
    }
  }

  ghost predicate ListenersIn(db: Db, x: LbId, project: Project) {
    forall l :: l in db.listeners && db.listeners[l].lb == x ==> db.listeners[l].project == project
  }

  // ---- what a transaction knows before its commit, and what the commit makes true ----

  lemma KnowsMarked(s: State, i: TxId)
    requires Inv(s) && i in s.txs && s.txs[i].Marked?
    ensures Enabled(s, Commit(i))
    ensures var t := Next(s, Commit(i)); IsDeleting(t, s.txs[i].lb) && Childless(t.db, s.txs[i].lb)
  {
    assert TxOk(s.db, s.txs[i]);
  }

  lemma KnowsInserted(s: State, i: TxId)
    requires Inv(s) && i in s.txs && s.txs[i].Inserted? && s.txs[i].id !in s.db.listeners
    ensures Enabled(s, Commit(i))
    ensures var db := Next(s, Commit(i)).db; var x := s.txs[i].lb; var l := s.txs[i].id;
      && l in db.listeners && db.listeners[l].lb == x && x in db.lbs && db.lbs[x].status != Deleting
      && db.listeners[l].project == db.lbs[x].project && db.lbs[x].status == s.txs[i].status
  {
    assert TxOk(s.db, s.txs[i]);
  }

  lemma KnowsAttached(s: State, i: TxId)
    requires Inv(s) && i in s.txs && s.txs[i].Attached?
    ensures Enabled(s, Commit(i))
    ensures var db := Next(s, Commit(i)).db;
      && (s.txs[i].lb, s.txs[i].tg) in db.attached && Joined(db, s.txs[i].lb, s.txs[i].tg)
      && db.lbs[s.txs[i].lb].status == s.txs[i].status
  {
    assert TxOk(s.db, s.txs[i]);
  }

  lemma KnowsCascaded(s: State, i: TxId)
    requires Inv(s) && i in s.txs && s.txs[i].Cascaded?
    ensures Enabled(s, Commit(i))
    ensures var db := Next(s, Commit(i)).db; var x := s.txs[i].lb;
      && x in db.lbs && db.lbs[x].project == s.txs[i].project
      && ListenersIn(db, x, s.txs[i].project)
  {
    assert TxOk(s.db, s.txs[i]);
  }

  lemma KnowsMovedTg(s: State, i: TxId)
    requires Inv(s) && i in s.txs && s.txs[i].MovedTg?
    ensures Enabled(s, Commit(i))
    ensures var db := Next(s, Commit(i)).db; s.txs[i].tg in db.tgs && db.tgs[s.txs[i].tg].project == s.txs[i].project
  {
    assert TxOk(s.db, s.txs[i]);
  }
}
