/** Safety over whole runs of the row-lock protocol, and the two forms of guard that do not
    give it. */
module RowLocksTheorems {
  import opened Domain
  import opened RowLocks

  /** A run of the repository's statements: MarkDeleting in two statements. */
  predicate TwoStatement(es: seq<Event>) {
    forall e :: e in es ==> !e.LockMarkOnce?
  }

  lemma {:induction false} RunInv(s: State, es: seq<Event>)
    requires Inv(s) && Run(s, es) && TwoStatement(es)
    ensures Inv(After(s, es))
    decreases |es|
  {
    if es != [] {
      assert es[0] in es;
      StepInv(s, es[0]);
      RunInv(Next(s, es[0]), es[1..]);
    }
  }

  /** In every committed state a DELETING load balancer has no listener and no attachment, a
      listener's project is its load balancer's, and attached pairs share a region. */
  lemma CommittedStatesAreSafe(es: seq<Event>)
    requires Run(Init(), es) && TwoStatement(es)
    ensures var db := After(Init(), es).db;
      && (forall x :: x in db.lbs && db.lbs[x].status == Deleting ==> !HasListener(db, x) && !HasPair(db, x))
      && (forall l :: l in db.listeners ==>
            db.listeners[l].lb in db.lbs && db.listeners[l].project == db.lbs[db.listeners[l].lb].project)
      && (forall p :: p in db.attached ==>
            p.0 in db.lbs && p.1 in db.tgs && db.lbs[p.0].region == db.tgs[p.1].region)
  {
    RunInv(Init(), es);
  }

  // ---- DELETING is entered under the guard and never left ----

  predicate IsDeleting(s: State, x: LbId) {
    x in s.db.lbs && s.db.lbs[x].status == Deleting
  }

  lemma AppliedStatus(db: Db, tx: Tx, x: LbId)
    requires CanCommit(db, tx) && TxOk(db, tx) && x in db.lbs
    ensures x in Apply(db, tx).lbs
    ensures db.lbs[x].status == Deleting ==> Apply(db, tx).lbs[x].status == Deleting
    ensures db.lbs[x].status != Deleting && Apply(db, tx).lbs[x].status == Deleting ==> tx == Marked(x)
  {}

  lemma AppliedRows(db: Db, tx: Tx, x: LbId)
    requires CanCommit(db, tx) && x in Apply(db, tx).lbs
    ensures x in db.lbs
  {}

  lemma CommitStatus(s: State, i: TxId, x: LbId)
    requires Inv(s) && Enabled(s, Commit(i))
    ensures IsDeleting(s, x) ==> IsDeleting(Next(s, Commit(i)), x)
    ensures !IsDeleting(s, x) && IsDeleting(Next(s, Commit(i)), x) ==>
      s.txs[i] == Marked(x) && x in s.db.lbs && !s.db.lbs[x].protected && Childless(s.db, x)
  {
    hide DbOk, Exclusive, CanCommit, Apply, HasListener, HasPair;
    if x in s.db.lbs { AppliedStatus(s.db, s.txs[i], x); }
    if x in Next(s, Commit(i)).db.lbs { AppliedRows(s.db, s.txs[i], x); }
  }

  lemma RowStatus(s: State, e: Event, x: LbId)
    requires Enabled(s, e) && OfRow(e)
    ensures IsDeleting(s, x) && e != DeleteLb(x) ==> IsDeleting(Next(s, e), x)
    ensures IsDeleting(Next(s, e), x) ==> IsDeleting(s, x)
  {}

  lemma StatementLeavesRows(s: State, e: Event)
    requires Enabled(s, e) && !e.Commit? && !OfRow(e)
    ensures Next(s, e).db == s.db
  {}

  lemma OtherStatus(s: State, e: Event, x: LbId)
    requires Enabled(s, e) && !e.Commit?
    ensures IsDeleting(s, x) && e != DeleteLb(x) ==> IsDeleting(Next(s, e), x)
    ensures IsDeleting(Next(s, e), x) ==> IsDeleting(s, x)
  {
    hide Next, Enabled;
    if OfRow(e) { RowStatus(s, e, x); } else { StatementLeavesRows(s, e); }
  }

  /** A load balancer enters DELETING only when its committed row is unprotected and it has no
      committed child at that moment; only the removal of the row ends it. */
  lemma DeletingEnteredAndKept(s: State, e: Event, x: LbId)
    requires Inv(s) && Enabled(s, e)
    ensures !IsDeleting(s, x) && IsDeleting(Next(s, e), x) ==>
      x in s.db.lbs && !s.db.lbs[x].protected && Childless(s.db, x)
    ensures IsDeleting(s, x) && e != DeleteLb(x) ==> IsDeleting(Next(s, e), x)
  {
    hide Inv, Next, Enabled;
    if e.Commit? { CommitStatus(s, e.i, x); } else { OtherStatus(s, e, x); }
  }

  lemma {:induction false} DeletingAbsorbs(s: State, es: seq<Event>, x: LbId)
    requires Inv(s) && Run(s, es) && TwoStatement(es) && IsDeleting(s, x) && DeleteLb(x) !in es
    ensures IsDeleting(After(s, es), x)
    decreases |es|
  {
    if es != [] {
      assert es[0] in es;
      StepInv(s, es[0]);
      DeletingEnteredAndKept(s, es[0], x);
      DeletingAbsorbs(Next(s, es[0]), es[1..], x);
    }
  }

  // ---- attached pairs and projects ----

  ghost predicate PairsShareProject(db: Db) {
    forall p :: p in db.attached && p.0 in db.lbs && p.1 in db.tgs ==> db.lbs[p.0].project == db.tgs[p.1].project
  }

  /** When a Move gets its row lock, the guard it evaluated before is still true. */
  predicate GuardStillTrue(s: State, e: Event)
    requires Enabled(s, e)
  {
    && (e.LockMoveLb? ==> !HasPair(s.db, s.txs[e.i].lb))
    && (e.LockMoveTg? ==> !TgHasPair(s.db, s.txs[e.i].tg))
  }

  ghost predicate MoveOk(db: Db, tx: Tx) {
    match tx
    case MovedLb(x, _) => !HasPair(db, x)
    case Cascaded(x, _, _) => !HasPair(db, x)
    case MovedTg(g, _) => !TgHasPair(db, g)
    case _ => true
  }

  ghost predicate ProjectInv(s: State) {
    PairsShareProject(s.db) && forall i :: i in s.txs ==> MoveOk(s.db, s.txs[i])
  }

  /** New pairs appear only by the commit of an Attach, which holds both rows. */
  lemma MoveKept(db: Db, tx: Tx, other: Tx)
    requires CanCommit(db, tx) && Apart(other, tx) && MoveOk(db, other)
    ensures MoveOk(Apply(db, tx), other)
  {}

  lemma ProjectCommit(s: State, i: TxId)
    requires Inv(s) && ProjectInv(s) && Enabled(s, Commit(i))
    ensures ProjectInv(Next(s, Commit(i)))
  {
    var tx := s.txs[i];
    assert TxOk(s.db, tx) && MoveOk(s.db, tx);
    forall j | j in s.txs && j != i ensures MoveOk(Apply(s.db, tx), s.txs[j]) {
      assert Apart(s.txs[j], tx);
      MoveKept(s.db, tx, s.txs[j]);
    }
    ProjectApplies(s.db, tx);
  }

  lemma ProjectApplies(db: Db, tx: Tx)
    requires CanCommit(db, tx) && TxOk(db, tx) && MoveOk(db, tx) && PairsShareProject(db) && PairsShareRegion(db)
    ensures PairsShareProject(Apply(db, tx))
  {}

  lemma ProjectRow(s: State, e: Event)
    requires Inv(s) && ProjectInv(s) && Enabled(s, e)
    requires OfRow(e)
    ensures ProjectInv(Next(s, e))
  {
    hide TxOk, Exclusive, DeletingIsChildless, ListenersFollow;
  }

  /** Only the statement that takes a Move's row lock asks for the guard. */
  lemma ProjectStatement(s: State, e: Event)
    requires Enabled(s, e) && GuardStillTrue(s, e) && ProjectInv(s)
    requires !e.Commit? && !e.Abort? && !OfRow(e)
    ensures Next(s, e) == Put(s, e.i, Next(s, e).txs[e.i]) && MoveOk(s.db, Next(s, e).txs[e.i])
  {}

  lemma ProjectStep(s: State, e: Event)
    requires Inv(s) && ProjectInv(s) && Enabled(s, e) && GuardStillTrue(s, e)
    ensures ProjectInv(Next(s, e))
  {
    if e.Commit? {
      ProjectCommit(s, e.i);
    } else if OfRow(e) {
      ProjectRow(s, e);
    } else if !e.Abort? {
      ProjectStatement(s, e);
    }
  }

  predicate GuardsStillTrue(s: State, es: seq<Event>)
    requires Run(s, es)
    decreases |es|
  {
    es == [] || (GuardStillTrue(s, es[0]) && GuardsStillTrue(Next(s, es[0]), es[1..]))
  }

  lemma {:induction false} PairsShareProjectRun(s: State, es: seq<Event>)
    requires Inv(s) && ProjectInv(s) && Run(s, es) && TwoStatement(es) && GuardsStillTrue(s, es)
    ensures ProjectInv(After(s, es))
    decreases |es|
  {
    if es != [] {
      assert es[0] in es;
      StepInv(s, es[0]);
      ProjectStep(s, es[0]);
      PairsShareProjectRun(Next(s, es[0]), es[1..]);
    }
  }

  // ---- exactly which commits split a pair ----

  /** A Move's destination is the project of everything attached when it commits. */
  ghost predicate Agrees(db: Db, tx: Tx) {
    match tx
    case Cascaded(x, p, _) => forall g :: (x, g) in db.attached && g in db.tgs ==> db.tgs[g].project == p
    case MovedTg(g, p) => forall x :: (x, g) in db.attached && x in db.lbs ==> db.lbs[x].project == p
    case _ => true
  }

  lemma LbMoveAgrees(db: Db, tx: Tx)
    requires CanCommit(db, tx) && tx.Cascaded? && PairsShareProject(db) && PairsShareRegion(db)
    ensures PairsShareProject(Apply(db, tx)) <==> Agrees(db, tx)
  {
    var after := Apply(db, tx);
    if PairsShareProject(after) {
      forall g | (tx.lb, g) in db.attached && g in db.tgs ensures db.tgs[g].project == tx.project {
        assert (tx.lb, g) in after.attached;
      }
    }
  }

  lemma TgMoveAgrees(db: Db, tx: Tx)
    requires CanCommit(db, tx) && tx.MovedTg? && PairsShareProject(db) && PairsShareRegion(db)
    ensures PairsShareProject(Apply(db, tx)) <==> Agrees(db, tx)
  {
    var after := Apply(db, tx);
    if PairsShareProject(after) {
      forall x | (x, tx.tg) in db.attached && x in db.lbs ensures db.lbs[x].project == tx.project {
        assert (x, tx.tg) in after.attached;
      }
    }
  }

  lemma OtherCommitAgrees(db: Db, tx: Tx)
    requires CanCommit(db, tx) && TxOk(db, tx) && !tx.Cascaded? && !tx.MovedTg?
    requires PairsShareProject(db) && PairsShareRegion(db)
    ensures PairsShareProject(Apply(db, tx))
  {}

  lemma RowKeepsPairs(s: State, e: Event)
    requires Enabled(s, e) && OfRow(e) && PairsShareProject(s.db)
    ensures PairsShareProject(Next(s, e).db)
  {}

  /** Attached pairs still share their projects after a step if and only if it is not the commit
      of a Move whose destination differs from the project of something attached. */
  lemma ProjectExact(s: State, e: Event)
    requires Inv(s) && PairsShareProject(s.db) && Enabled(s, e)
    ensures PairsShareProject(Next(s, e).db) <==> (e.Commit? ==> Agrees(s.db, s.txs[e.i]))
  {
    hide PairsShareProject, PairsShareRegion, Agrees, TxOk, Apply, CanCommit, DeletingIsChildless, ListenersFollow;
    if e.Commit? {
      var tx := s.txs[e.i];
      if tx.Cascaded? {
        LbMoveAgrees(s.db, tx);
      } else if tx.MovedTg? {
        TgMoveAgrees(s.db, tx);
      } else {
        OtherCommitAgrees(s.db, tx);
        assert Agrees(s.db, tx) by { OthersAgree(s.db, tx); }
      }
    } else if OfRow(e) {
      RowKeepsPairs(s, e);
    } else {
      StatementLeavesRows(s, e);
    }
  }

  lemma OthersAgree(db: Db, tx: Tx)
    requires !tx.Cascaded? && !tx.MovedTg?
    ensures Agrees(db, tx)
  {}

  ghost predicate AllAgree(s: State, es: seq<Event>)
    requires Run(s, es)
    decreases |es|
  {
    es == [] || ((es[0].Commit? ==> Agrees(s.db, s.txs[es[0].i])) && AllAgree(Next(s, es[0]), es[1..]))
  }

  ghost predicate ShareThroughout(s: State, es: seq<Event>)
    requires Run(s, es)
    decreases |es|
  {
    PairsShareProject(s.db) && (es == [] || ShareThroughout(Next(s, es[0]), es[1..]))
  }

  /** Over whole runs: every committed state keeps pairs in one project if and only if every Move
      agrees with what is attached when it commits. */
  lemma {:induction false} ShareThroughoutExact(s: State, es: seq<Event>)
    requires Inv(s) && PairsShareProject(s.db) && Run(s, es) && TwoStatement(es)
    ensures ShareThroughout(s, es) <==> AllAgree(s, es)
    decreases |es|
  {
    hide Inv, PairsShareProject, Agrees, Next, Enabled;
    if es != [] {
      assert es[0] in es;
      StepInv(s, es[0]);
      ProjectExact(s, es[0]);
      if PairsShareProject(Next(s, es[0]).db) { ShareThroughoutExact(Next(s, es[0]), es[1..]); }
    }
  }

  // ---- a stale guard splits a pair ----

  /** Three steps, and where they lead. */
  lemma RunOfThree(s: State, e1: Event, s1: State, e2: Event, s2: State, e3: Event, s3: State)
    requires Enabled(s, e1) && Next(s, e1) == s1
    requires Enabled(s1, e2) && Next(s1, e2) == s2
    requires Enabled(s2, e3) && Next(s2, e3) == s3
    ensures Run(s, [e1, e2, e3]) && After(s, [e1, e2, e3]) == s3
  {
    hide Enabled, Next;
    RunOfTwo(s1, e2, s2, e3, s3);
    assert [e1, e2, e3][1..] == [e2, e3];
  }

  lemma RunOfTwo(s: State, e1: Event, s1: State, e2: Event, s2: State)
    requires Enabled(s, e1) && Next(s, e1) == s1 && Enabled(s1, e2) && Next(s1, e2) == s2
    ensures Run(s, [e1, e2]) && After(s, [e1, e2]) == s2
  {
    hide Enabled, Next;
    assert [e1, e2][1..] == [e2] && [e2][1..] == [];
    assert Run(s2, []) && After(s2, []) == s2;
    assert Run(s1, [e2]) && After(s1, [e2]) == s2;
  }

  lemma LbMoveEffect(db: Db, x: LbId, p: Project, ids: set<ListenerId>, g: TgId)
    requires x in db.lbs && (x, g) in db.attached && g in db.tgs && db.tgs[g].project != p
    ensures CanCommit(db, Cascaded(x, p, ids)) && !PairsShareProject(Apply(db, Cascaded(x, p, ids)))
  {
    var after := Apply(db, Cascaded(x, p, ids));
    assert (x, g) in after.attached && after.lbs[x].project == p;
  }

  lemma LbMoveLocks(s: State, i: TxId)
    requires Enabled(s, LockMoveLb(i))
    ensures var x, p := s.txs[i].lb, s.txs[i].project;
      && x in s.db.lbs && Next(s, LockMoveLb(i)) == Put(s, i, MovedLb(x, p))
  {}

  lemma LbMoveCascades(s: State, i: TxId, x: LbId, p: Project)
    ensures var s1 := Put(s, i, MovedLb(x, p));
      && Enabled(s1, Cascade(i))
      && Next(s1, Cascade(i)) == Put(s, i, Cascaded(x, p, set l | l in s.db.listeners && s.db.listeners[l].lb == x))
  {
    var s1 := Put(s, i, MovedLb(x, p));
    assert Next(s1, Cascade(i)).txs == Put(s, i, Next(s1, Cascade(i)).txs[i]).txs;
  }

  lemma Commits(s: State, i: TxId, tx: Tx)
    requires CanCommit(s.db, tx)
    ensures Enabled(Put(s, i, tx), Commit(i)) && Next(Put(s, i, tx), Commit(i)).db == Apply(s.db, tx)
  {
    hide Apply, CanCommit;
  }

  /** A Move that gets its lock after its guard went stale, and goes on to commit a different
      project, leaves an attached pair in two projects. */
  lemma StaleLbMoveSplitsPair(s: State, i: TxId, g: TgId)
    requires Inv(s) && Enabled(s, LockMoveLb(i)) && (s.txs[i].lb, g) in s.db.attached
    requires g in s.db.tgs && s.db.tgs[g].project != s.txs[i].project
    ensures Run(s, [LockMoveLb(i), Cascade(i), Commit(i)])
    ensures !PairsShareProject(After(s, [LockMoveLb(i), Cascade(i), Commit(i)]).db)
  {
    var x, p := s.txs[i].lb, s.txs[i].project;
    LbMoveLocks(s, i);
    hide Inv, Next, Enabled, Run, After, Apply, CanCommit, PairsShareProject;
    LbMoveCascades(s, i, x, p);
    var ids := set l | l in s.db.listeners && s.db.listeners[l].lb == x;
    LbMoveEffect(s.db, x, p, ids, g);
    Commits(s, i, Cascaded(x, p, ids));
    var s2 := Put(s, i, Cascaded(x, p, ids));
    RunOfThree(s, LockMoveLb(i), Put(s, i, MovedLb(x, p)), Cascade(i), s2, Commit(i), Next(s2, Commit(i)));
  }

  lemma TgMoveEffect(db: Db, g: TgId, p: Project, x: LbId)
    requires g in db.tgs && (x, g) in db.attached && x in db.lbs && db.lbs[x].project != p
    ensures CanCommit(db, MovedTg(g, p)) && !PairsShareProject(Apply(db, MovedTg(g, p)))
  {
    var after := Apply(db, MovedTg(g, p));
    assert (x, g) in after.attached && after.tgs[g].project == p;
  }

  lemma StaleTgMoveSplitsPair(s: State, i: TxId, x: LbId)
    requires Inv(s) && Enabled(s, LockMoveTg(i)) && (x, s.txs[i].tg) in s.db.attached
    requires x in s.db.lbs && s.db.lbs[x].project != s.txs[i].project
    ensures Run(s, [LockMoveTg(i), Commit(i)])
    ensures !PairsShareProject(After(s, [LockMoveTg(i), Commit(i)]).db)
  {
    var g, p := s.txs[i].tg, s.txs[i].project;
    assert Next(s, LockMoveTg(i)) == Put(s, i, MovedTg(g, p)) && g in s.db.tgs;
    hide Inv, Next, Run, After, Apply, CanCommit, PairsShareProject;
    TgMoveEffect(s.db, g, p, x);
    Commits(s, i, MovedTg(g, p));
    var s1 := Put(s, i, MovedTg(g, p));
    RunOfTwo(s, LockMoveTg(i), s1, Commit(i), Next(s1, Commit(i)));
  }

  // ---- reachable failures ----

  /** Reached from the empty database; `once` admits the one-statement MarkDeleting. */
  ghost predicate Reachable(s: State, once: bool) {
    exists es :: Run(Init(), es) && After(Init(), es) == s && (once || TwoStatement(es))
  }

  lemma {:induction false} RunExtend(s: State, es: seq<Event>, e: Event)
    requires Run(s, es) && Enabled(After(s, es), e)
    ensures Run(s, es + [e]) && After(s, es + [e]) == Next(After(s, es), e)
    decreases |es|
  {
    if es == [] {
      assert [e][1..] == [];
    } else {
      assert (es + [e])[1..] == es[1..] + [e];
      RunExtend(Next(s, es[0]), es[1..], e);
    }
  }

  lemma Step(s: State, e: Event, once: bool)
    requires Reachable(s, once) && Enabled(s, e) && (once || !e.LockMarkOnce?)
    ensures Reachable(Next(s, e), once)
  {
    hide Enabled, Next;
    var es :| Run(Init(), es) && After(Init(), es) == s && (once || TwoStatement(es));
    RunExtend(Init(), es, e);
    assert once || TwoStatement(es + [e]);
  }

  lemma Start(once: bool)
    ensures Reachable(Init(), once)
  {
    assert Run(Init(), []) && After(Init(), []) == Init() && TwoStatement([]);
  }

  const ROW := LbRow(Creating, false, 0, 0)

  /** One load balancer, one target group. */
  function Base(): State {
    State(Db(map[0 := ROW], map[0 := TgRow(0, 0)], map[], {}), map[])
  }

  /** One step of a witness. */
  ghost predicate Leads(s: State, e: Event, t: State, once: bool) {
    Enabled(s, e) && Next(s, e) == t && (once || !e.LockMarkOnce?)
  }

  lemma Follow(s: State, e: Event, t: State, once: bool)
    requires Reachable(s, once) && Leads(s, e, t, once)
    ensures Reachable(t, once)
  {
    hide Enabled, Next, Reachable;
    Step(s, e, once);
  }

  lemma SameState(s: State, t: State)
    requires s.db.lbs == t.db.lbs && s.db.tgs == t.db.tgs && s.db.listeners == t.db.listeners
    requires s.db.attached == t.db.attached && s.txs == t.txs
    ensures s == t
  {}

  /** The base with these transactions under way. */
  function With(txs: map<TxId, Tx>): State {
    State(Base().db, txs)
  }

  lemma BaseReachable(once: bool)
    ensures Reachable(Base(), once)
  {
    Start(once);
    var s1 := State(Db(map[0 := ROW], map[], map[], {}), map[]);
    BaseLeads(s1, once);
    hide Reachable, Leads;
    Follow(Init(), CreateLb(0, ROW), s1, once);
    Follow(s1, CreateTg(0, TgRow(0, 0)), Base(), once);
  }

  lemma BaseLeads(s1: State, once: bool)
    requires s1 == State(Db(map[0 := ROW], map[], map[], {}), map[])
    ensures Leads(Init(), CreateLb(0, ROW), s1, once) && Leads(s1, CreateTg(0, TgRow(0, 0)), Base(), once)
  {
    SameState(Next(Init(), CreateLb(0, ROW)), s1);
    SameState(Next(s1, CreateTg(0, TgRow(0, 0))), Base());
  }

  /** A listener's insert holds the row uncommitted, and a one-statement mark began. */
  function Racing(): State {
    With(map[1 := Inserted(0, 9, 0, Creating), 2 := MarkingOnce(0)])
  }

  lemma InsertLeads()
    ensures Leads(Base(), BeginInsert(1, 0, 9), With(map[1 := Inserting(0, 9)]), true)
    ensures Leads(With(map[1 := Inserting(0, 9)]), LockInsert(1, Creating),
                  With(map[1 := Inserted(0, 9, 0, Creating)]), true)
  {}

  lemma MarkLeads()
    ensures Leads(With(map[1 := Inserted(0, 9, 0, Creating)]), BeginMarkOnce(2, 0), Racing(), true)
  {}

  lemma RacingReachable()
    ensures Reachable(Racing(), true)
  {
    hide Reachable, Leads, With, Base, Racing;
    BaseReachable(true);
    InsertLeads();
    Follow(Base(), BeginInsert(1, 0, 9), With(map[1 := Inserting(0, 9)]), true);
    Follow(With(map[1 := Inserting(0, 9)]), LockInsert(1, Creating),
           With(map[1 := Inserted(0, 9, 0, Creating)]), true);
    MarkLeads();
    Follow(With(map[1 := Inserted(0, 9, 0, Creating)]), BeginMarkOnce(2, 0), Racing(), true);
  }

  /** The listener is committed; the mark saw none. */
  function Missed(mark: Tx): State {
    State(Base().db.(listeners := map[9 := ListenerRow(0, 0)]), map[2 := mark])
  }

  lemma MissedLeads()
    ensures Leads(Racing(), Commit(1), Missed(MarkingOnce(0)), true)
  {
    SameState(Next(Racing(), Commit(1)), Missed(MarkingOnce(0)));
  }

  lemma MarkedLeads()
    ensures Leads(Missed(MarkingOnce(0)), LockMarkOnce(2), Missed(Marked(0)), true)
  {
    SameState(Next(Missed(MarkingOnce(0)), LockMarkOnce(2)), Missed(Marked(0)));
  }

  /** With the guard in one statement, a listener that commits while the mark waits for the row
      is missed: a DELETING load balancer with a listener. */
  lemma OneStatementGuardFails()
    ensures exists s :: Reachable(s, true) && IsDeleting(s, 0) && HasListener(s.db, 0)
  {
    RacingReachable();
    MissedLeads();
    MarkedLeads();
    var s := Missed(Marked(0));
    hide Reachable, Leads, Racing;
    Follow(Racing(), Commit(1), Missed(MarkingOnce(0)), true);
    Follow(Missed(MarkingOnce(0)), LockMarkOnce(2), s, true);
    MarkOnceCommits(s);
  }

  lemma MarkOnceCommits(s: State)
    requires Reachable(s, true) && 2 in s.txs && s.txs[2] == Marked(0)
    requires 0 in s.db.lbs && 9 in s.db.listeners && s.db.listeners[9].lb == 0
    ensures exists t :: Reachable(t, true) && IsDeleting(t, 0) && HasListener(t.db, 0)
  {
    hide Reachable;
    Step(s, Commit(2), true);
    var t := Next(s, Commit(2));
    assert 9 in t.db.listeners && t.db.listeners[9].lb == 0;
    assert IsDeleting(t, 0) && HasListener(t.db, 0);
  }

  /** Attach holds both rows uncommitted. */
  function Written(): State {
    State(Base().db, map[1 := Attached(0, 0, Creating)])
  }

  lemma AttachLeads()
    ensures Leads(Base(), BeginAttach(1, 0, 0), With(map[1 := Attaching(0, 0, false, false)]), false)
    ensures Leads(With(map[1 := Attaching(0, 0, false, false)]), LockAttachLb(1),
                  With(map[1 := Attaching(0, 0, true, false)]), false)
  {}

  lemma WriteLeads()
    ensures Leads(With(map[1 := Attaching(0, 0, true, false)]), LockAttachTg(1),
                  With(map[1 := Attaching(0, 0, true, true)]), false)
    ensures Leads(With(map[1 := Attaching(0, 0, true, true)]), WriteAttach(1, Creating), Written(), false)
  {}

  lemma WrittenReachable()
    ensures Reachable(Written(), false)
  {
    hide Reachable, Leads, With, Base, Written;
    BaseReachable(false);
    AttachLeads();
    Follow(Base(), BeginAttach(1, 0, 0), With(map[1 := Attaching(0, 0, false, false)]), false);
    Follow(With(map[1 := Attaching(0, 0, false, false)]), LockAttachLb(1),
           With(map[1 := Attaching(0, 0, true, false)]), false);
    WriteLeads();
    Follow(With(map[1 := Attaching(0, 0, true, false)]), LockAttachTg(1),
           With(map[1 := Attaching(0, 0, true, true)]), false);
    Follow(With(map[1 := Attaching(0, 0, true, true)]), WriteAttach(1, Creating), Written(), false);
  }

  /** The pair is committed while a Move that saw no attachment waits. */
  function Waiting(move: Tx): State {
    State(Base().db.(attached := {(0, 0)}), map[2 := move])
  }

  lemma BothLead(move: Tx)
    requires move in {MovingLb(0, 5), MovingTg(0, 5)}
    ensures var e := if move.MovingLb? then BeginMoveLb(2, 0, 5) else BeginMoveTg(2, 0, 5);
      Leads(Written(), e, With(map[1 := Attached(0, 0, Creating), 2 := move]), false)
  {}

  lemma PairLeads(move: Tx)
    requires move in {MovingLb(0, 5), MovingTg(0, 5)}
    ensures Leads(With(map[1 := Attached(0, 0, Creating), 2 := move]), Commit(1), Waiting(move), false)
  {
    var s := With(map[1 := Attached(0, 0, Creating), 2 := move]);
    SameState(Next(s, Commit(1)), Waiting(move));
  }

  lemma WaitingReachable(move: Tx)
    requires move in {MovingLb(0, 5), MovingTg(0, 5)}
    ensures Reachable(Waiting(move), false)
  {
    hide Reachable, Leads, With, Written, Waiting;
    WrittenReachable();
    BothLead(move);
    var s := With(map[1 := Attached(0, 0, Creating), 2 := move]);
    Follow(Written(), if move.MovingLb? then BeginMoveLb(2, 0, 5) else BeginMoveTg(2, 0, 5), s, false);
    PairLeads(move);
    Follow(s, Commit(1), Waiting(move), false);
  }

  lemma LbMoveLeads()
    ensures Leads(Waiting(MovingLb(0, 5)), LockMoveLb(2), Waiting(MovedLb(0, 5)), false)
    ensures Leads(Waiting(MovedLb(0, 5)), Cascade(2), Waiting(Cascaded(0, 5, {})), false)
  {
    assert Next(Waiting(MovedLb(0, 5)), Cascade(2)).txs[2].ids == {};
  }

  lemma TgMoveLeads()
    ensures Leads(Waiting(MovingTg(0, 5)), LockMoveTg(2), Waiting(MovedTg(0, 5)), false)
  {}

  /** MoveProject's guard is one statement: an Attach in flight splits the pair, for a load
      balancer ... */
  lemma LbMoveMissesAttach()
    ensures exists s :: Reachable(s, false) && !PairsShareProject(s.db)
  {
    hide Reachable, Leads, PairsShareProject, Apply, CanCommit;
    WaitingReachable(MovingLb(0, 5));
    LbMoveLeads();
    Follow(Waiting(MovingLb(0, 5)), LockMoveLb(2), Waiting(MovedLb(0, 5)), false);
    Follow(Waiting(MovedLb(0, 5)), Cascade(2), Waiting(Cascaded(0, 5, {})), false);
    LbMoveEffect(Waiting(Cascaded(0, 5, {})).db, 0, 5, {}, 0);
    CommitSplits(Waiting(Cascaded(0, 5, {})), Cascaded(0, 5, {}));
  }

  lemma CommitSplits(s: State, tx: Tx)
    requires Reachable(s, false) && 2 in s.txs && s.txs[2] == tx
    requires CanCommit(s.db, tx) && !PairsShareProject(Apply(s.db, tx))
    ensures exists t :: Reachable(t, false) && !PairsShareProject(t.db)
  {
    hide Reachable, Apply, CanCommit, PairsShareProject;
    Step(s, Commit(2), false);
  }

  /** ... and for a target group. */
  lemma TgMoveMissesAttach()
    ensures exists s :: Reachable(s, false) && !PairsShareProject(s.db)
  {
    hide Reachable, Leads, PairsShareProject, Apply, CanCommit;
    WaitingReachable(MovingTg(0, 5));
    TgMoveLeads();
    Follow(Waiting(MovingTg(0, 5)), LockMoveTg(2), Waiting(MovedTg(0, 5)), false);
    TgMoveEffect(Waiting(MovedTg(0, 5)).db, 0, 5, 0);
    CommitSplits(Waiting(MovedTg(0, 5)), MovedTg(0, 5));
  }
}
