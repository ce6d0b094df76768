/** Transactions over load balancers, listeners, target groups and attachments under READ
    COMMITTED: every statement sees the rows committed when it began, a row lock is held to the
    end of its transaction, and a statement that had to wait re-evaluates only the rows it
    locked, never its subqueries. */
module RowLocks {
  import opened Domain

  type TgId = nat
  type ListenerId = nat
  type TxId = nat
  type Project = nat
  type Region = nat

  datatype LbRow = LbRow(status: Status, protected: bool, project: Project, region: Region)
  datatype TgRow = TgRow(project: Project, region: Region)
  datatype ListenerRow = ListenerRow(lb: LbId, project: Project)

  /** Committed rows. */
  datatype Db = Db(lbs: map<LbId, LbRow>, tgs: map<TgId, TgRow>,
                   listeners: map<ListenerId, ListenerRow>, attached: set<(LbId, TgId)>)

  datatype Child = AListener(id: ListenerId) | APair(lb: LbId, tg: TgId)

  /** A transaction between two of its steps. The `-ing` forms began a statement and may have to
      wait for a row; the others hold the row locks named by HoldsLb and HoldsTg, and their
      uncommitted writes. */
  datatype Tx =
    | Marking(lb: LbId)                               // MarkDeleting, first statement
    | MarkLocked(lb: LbId)                            // ... second statement not begun
    | MarkingOnce(lb: LbId)                           // one-statement form, saw no child
    | Marked(lb: LbId)
    | Inserting(lb: LbId, id: ListenerId)
    | Inserted(lb: LbId, id: ListenerId, project: Project, status: Status)
    | Attaching(lb: LbId, tg: TgId, lbHeld: bool, tgHeld: bool)
    | Attached(lb: LbId, tg: TgId, status: Status)
    | MovingLb(lb: LbId, project: Project)            // saw no attachment
    | MovedLb(lb: LbId, project: Project)
    | Cascaded(lb: LbId, project: Project, ids: set<ListenerId>)
    | MovingTg(tg: TgId, project: Project)            // saw no attachment
    | MovedTg(tg: TgId, project: Project)
    | Removing(child: Child, lb: LbId, seen: Status)  // the status trigger is about to write
    | Removed(child: Child, lb: LbId, left: Option<Status>)
    | Spent(lbLock: Option<LbId>, tgLock: Option<TgId>)       // matched no row; keeps its locks

  datatype State = State(db: Db, txs: map<TxId, Tx>)

  function HoldsLb(tx: Tx): Option<LbId> {
    match tx
    case MarkLocked(x) => Some(x)
    case Marked(x) => Some(x)
    case Inserted(x, _, _, _) => Some(x)
    case Attaching(x, _, held, _) => if held then Some(x) else None
    case Attached(x, _, _) => Some(x)
    case MovedLb(x, _) => Some(x)
    case Cascaded(x, _, _) => Some(x)
    case Removed(_, x, st) => if st.Some? then Some(x) else None
    case Spent(x, _) => x
    case _ => None
  }

  function HoldsTg(tx: Tx): Option<TgId> {
    match tx
    case Attaching(_, g, _, held) => if held then Some(g) else None
    case Attached(_, g, _) => Some(g)
    case MovedTg(g, _) => Some(g)
    case Spent(_, g) => g
    case _ => None
  }

  predicate FreeLb(s: State, x: LbId) {
    forall i :: i in s.txs ==> HoldsLb(s.txs[i]) != Some(x)
  }

  predicate FreeTg(s: State, g: TgId) {
    forall i :: i in s.txs ==> HoldsTg(s.txs[i]) != Some(g)
  }

  /** The row can be locked by transaction i: it exists and nobody else holds it. */
  predicate CanLockLb(s: State, x: LbId) {
    x in s.db.lbs && FreeLb(s, x)
  }

  predicate CanLockTg(s: State, g: TgId) {
    g in s.db.tgs && FreeTg(s, g)
  }

  predicate HasListener(db: Db, x: LbId) {
    exists l :: l in db.listeners && db.listeners[l].lb == x
  }

  predicate HasPair(db: Db, x: LbId) {
    exists p :: p in db.attached && p.0 == x
  }

  predicate TgHasPair(db: Db, g: TgId) {
    exists p :: p in db.attached && p.1 == g
  }

  predicate Childless(db: Db, x: LbId) {
    !HasListener(db, x) && !HasPair(db, x)
  }

  /** What the status trigger may leave: it moves only between INACTIVE and ACTIVE. */
  predicate Recomputed(from: Status, to: Status) {
    to == from || (from in {Inactive, Active} && to in {Inactive, Active})
  }

  predicate Joined(db: Db, x: LbId, g: TgId) {
    && x in db.lbs && g in db.tgs && db.lbs[x].status != Deleting
    && db.lbs[x].project == db.tgs[g].project && db.lbs[x].region == db.tgs[g].region
  }

  predicate Present(db: Db, child: Child, x: LbId) {
    match child
    case AListener(l) => l in db.listeners && db.listeners[l].lb == x
    case APair(y, g) => y == x && (x, g) in db.attached
  }

  datatype Event =
    | BeginMark(i: TxId, lb: LbId) | LockMark(i: TxId) | GuardMark(i: TxId)
    | BeginMarkOnce(i: TxId, lb: LbId) | LockMarkOnce(i: TxId)
    | BeginInsert(i: TxId, lb: LbId, id: ListenerId) | LockInsert(i: TxId, status: Status)
    | BeginAttach(i: TxId, lb: LbId, tg: TgId) | LockAttachLb(i: TxId) | LockAttachTg(i: TxId)
    | WriteAttach(i: TxId, status: Status)
    | BeginMoveLb(i: TxId, lb: LbId, project: Project) | LockMoveLb(i: TxId) | Cascade(i: TxId)
    | BeginMoveTg(i: TxId, tg: TgId, project: Project) | LockMoveTg(i: TxId)
    | BeginRemove(i: TxId, child: Child, lb: LbId) | LockRemove(i: TxId, status: Status) | SkipRemove(i: TxId)
    | Commit(i: TxId) | Abort(i: TxId)
    // one-row transactions
    | SetStatus(lb: LbId, expected: Status, status: Status)
    | SetProtection(lb: LbId, protected: bool)
    | CreateLb(lb: LbId, row: LbRow) | DeleteLb(lb: LbId)
    | CreateTg(tg: TgId, group: TgRow) | DeleteTg(tg: TgId)

  predicate Enabled(s: State, e: Event) {
    var db := s.db;
    match e
    case BeginMark(i, x) => i !in s.txs
    case LockMark(i) => i in s.txs && s.txs[i].Marking? && CanLockLb(s, s.txs[i].lb)
    case GuardMark(i) => i in s.txs && s.txs[i].MarkLocked? && s.txs[i].lb in db.lbs
    case BeginMarkOnce(i, x) => i !in s.txs && Childless(db, x)
    case LockMarkOnce(i) => i in s.txs && s.txs[i].MarkingOnce? && CanLockLb(s, s.txs[i].lb)
    case BeginInsert(i, x, l) => i !in s.txs && x in db.lbs && db.lbs[x].status != Deleting
    case LockInsert(i, st) => i in s.txs && s.txs[i].Inserting? && CanLockLb(s, s.txs[i].lb)
                              && Recomputed(db.lbs[s.txs[i].lb].status, st)
    case BeginAttach(i, x, g) => i !in s.txs && Joined(db, x, g)
    case LockAttachLb(i) => i in s.txs && s.txs[i].Attaching? && !s.txs[i].lbHeld && CanLockLb(s, s.txs[i].lb)
    case LockAttachTg(i) => i in s.txs && s.txs[i].Attaching? && !s.txs[i].tgHeld && CanLockTg(s, s.txs[i].tg)
    case WriteAttach(i, st) => i in s.txs && s.txs[i].Attaching? && s.txs[i].lbHeld && s.txs[i].tgHeld
                               && s.txs[i].lb in db.lbs && Recomputed(db.lbs[s.txs[i].lb].status, st)
    case BeginMoveLb(i, x, p) => i !in s.txs && !HasPair(db, x)
    case LockMoveLb(i) => i in s.txs && s.txs[i].MovingLb? && CanLockLb(s, s.txs[i].lb)
    case Cascade(i) => i in s.txs && s.txs[i].MovedLb?
    case BeginMoveTg(i, g, p) => i !in s.txs && !TgHasPair(db, g)
    case LockMoveTg(i) => i in s.txs && s.txs[i].MovingTg? && CanLockTg(s, s.txs[i].tg)
    case BeginRemove(i, child, x) => i !in s.txs && x in db.lbs && Present(db, child, x)
    case LockRemove(i, st) => i in s.txs && s.txs[i].Removing? && CanLockLb(s, s.txs[i].lb)
                              && Recomputed(s.txs[i].seen, st)
    case SkipRemove(i) => i in s.txs && s.txs[i].Removing?
    case Commit(i) => i in s.txs && CanCommit(db, s.txs[i])
    case Abort(i) => i in s.txs
    case SetStatus(x, was, st) => CanLockLb(s, x) && db.lbs[x].status == was && was != Deleting && st != Deleting
    case SetProtection(x, _) => CanLockLb(s, x)
    case CreateLb(x, row) => x !in db.lbs && FreeLb(s, x) && row.status == Creating && Childless(db, x)
    case DeleteLb(x) => CanLockLb(s, x) && Childless(db, x)
    case CreateTg(g, row) => g !in db.tgs && FreeTg(s, g) && !TgHasPair(db, g)
    case DeleteTg(g) => CanLockTg(s, g) && !TgHasPair(db, g)
  }

  /** The transaction has made its writes; the listener's primary key is still free. */
  predicate CanCommit(db: Db, tx: Tx) {
    match tx
    case Marked(x) => x in db.lbs
    case Inserted(x, l, _, _) => x in db.lbs && l !in db.listeners
    case Attached(x, g, _) => x in db.lbs
    case Cascaded(x, _, _) => x in db.lbs
    case MovedTg(g, _) => g in db.tgs
    case Removed(_, x, st) => st.Some? ==> x in db.lbs
    case _ => false
  }

  function SetLb(db: Db, x: LbId, row: LbRow): Db {
    db.(lbs := db.lbs[x := row])
  }

  function Without(db: Db, child: Child): Db {
    match child
    case AListener(l) => db.(listeners := db.listeners - {l})
    case APair(x, g) => db.(attached := db.attached - {(x, g)})
  }

  /** The committed rows after transaction tx's writes become visible, all at once. */
  function Apply(db: Db, tx: Tx): Db
    requires CanCommit(db, tx)
  {
    match tx
    case Marked(x) => SetLb(db, x, db.lbs[x].(status := Deleting))
    case Inserted(x, l, p, st) =>
      SetLb(db.(listeners := db.listeners[l := ListenerRow(x, p)]), x, db.lbs[x].(status := st))
    case Attached(x, g, st) =>
      SetLb(db.(attached := db.attached + {(x, g)}), x, db.lbs[x].(status := st))
    case Cascaded(x, p, ids) =>
      SetLb(db.(listeners := map l | l in db.listeners ::
                  if l in ids && db.listeners[l].lb == x then db.listeners[l].(project := p) else db.listeners[l]),
            x, db.lbs[x].(project := p))
    case MovedTg(g, p) => db.(tgs := db.tgs[g := db.tgs[g].(project := p)])
    case Removed(child, x, st) =>
      var db1 := Without(db, child);
      if st.Some? then SetLb(db1, x, db1.lbs[x].(status := st.value)) else db1
  }

  function Put(s: State, i: TxId, tx: Tx): State {
    s.(txs := s.txs[i := tx])
  }

  function Next(s: State, e: Event): State
    requires Enabled(s, e)
  {
    var db := s.db;
    match e
    case BeginMark(i, x) => Put(s, i, Marking(x))
    case LockMark(i) => Put(s, i, MarkLocked(s.txs[i].lb))
    case GuardMark(i) =>
      var x := s.txs[i].lb;
      Put(s, i, if !db.lbs[x].protected && Childless(db, x) then Marked(x) else Spent(Some(x), None))
    case BeginMarkOnce(i, x) => Put(s, i, MarkingOnce(x))
    case LockMarkOnce(i) =>
      var x := s.txs[i].lb;
      Put(s, i, if !db.lbs[x].protected then Marked(x) else Spent(Some(x), None))
    case BeginInsert(i, x, l) => Put(s, i, Inserting(x, l))
    case LockInsert(i, st) =>
      var x := s.txs[i].lb;
      Put(s, i, if db.lbs[x].status != Deleting then Inserted(x, s.txs[i].id, db.lbs[x].project, st)
                else Spent(Some(x), None))
    case BeginAttach(i, x, g) => Put(s, i, Attaching(x, g, false, false))
    case LockAttachLb(i) => Put(s, i, s.txs[i].(lbHeld := true))
    case LockAttachTg(i) => Put(s, i, s.txs[i].(tgHeld := true))
    case WriteAttach(i, st) =>
      var x, g := s.txs[i].lb, s.txs[i].tg;
      // ON CONFLICT DO NOTHING: an existing pair is left alone
      Put(s, i, if Joined(db, x, g) && (x, g) !in db.attached then Attached(x, g, st) else Spent(Some(x), Some(g)))
    case BeginMoveLb(i, x, p) => Put(s, i, MovingLb(x, p))
    case LockMoveLb(i) => Put(s, i, MovedLb(s.txs[i].lb, s.txs[i].project))
    case Cascade(i) =>
      Put(s, i, Cascaded(s.txs[i].lb, s.txs[i].project,
                         set l | l in db.listeners && db.listeners[l].lb == s.txs[i].lb))
    case BeginMoveTg(i, g, p) => Put(s, i, MovingTg(g, p))
    case LockMoveTg(i) => Put(s, i, MovedTg(s.txs[i].tg, s.txs[i].project))
    case BeginRemove(i, child, x) =>
      Put(s, i, if db.lbs[x].status in {Inactive, Active} then Removing(child, x, db.lbs[x].status)
                else Removed(child, x, None))
    case LockRemove(i, st) =>
      var tx := s.txs[i];
      Put(s, i, Removed(tx.child, tx.lb, if db.lbs[tx.lb].status == tx.seen then Some(st) else None))
    case SkipRemove(i) => Put(s, i, Removed(s.txs[i].child, s.txs[i].lb, None))
    case Commit(i) => State(Apply(db, s.txs[i]), s.txs - {i})
    case Abort(i) => s.(txs := s.txs - {i})
    case SetStatus(x, _, st) => s.(db := SetLb(db, x, db.lbs[x].(status := st)))
    case SetProtection(x, b) => s.(db := SetLb(db, x, db.lbs[x].(protected := b)))
    case CreateLb(x, row) => s.(db := SetLb(db, x, row))
    case DeleteLb(x) => s.(db := db.(lbs := db.lbs - {x}))
    case CreateTg(g, row) => s.(db := db.(tgs := db.tgs[g := row]))
    case DeleteTg(g) => s.(db := db.(tgs := db.tgs - {g}))
  }

  predicate Run(s: State, es: seq<Event>)
    decreases |es|
  {
    es == [] || (Enabled(s, es[0]) && Run(Next(s, es[0]), es[1..]))
  }

  function After(s: State, es: seq<Event>): State
    requires Run(s, es)
    decreases |es|
  {
    if es == [] then s else After(Next(s, es[0]), es[1..])
  }

  function Init(): State {
    State(Db(map[], map[], map[], {}), map[])
  }

  // ---- the invariant ----

  /** What a transaction knows about the committed rows it holds. */
  ghost predicate TxOk(db: Db, tx: Tx) {
    match tx
    case Marked(x) => x in db.lbs && !db.lbs[x].protected && Childless(db, x)
    case Inserted(x, l, p, st) => x in db.lbs && db.lbs[x].status != Deleting && p == db.lbs[x].project
                                  && Recomputed(db.lbs[x].status, st)
    case Attached(x, g, st) => Joined(db, x, g) && Recomputed(db.lbs[x].status, st)
    case MovedLb(x, _) => x in db.lbs
    case Cascaded(x, p, ids) => x in db.lbs && forall l :: l in db.listeners && db.listeners[l].lb == x ==> l in ids
    case MovedTg(g, _) => g in db.tgs
    case Removing(_, _, seen) => seen in {Inactive, Active}
    case Removed(_, x, st) => st.Some? ==>
      x in db.lbs && db.lbs[x].status in {Inactive, Active} && st.value in {Inactive, Active}
    case _ => true
  }

  ghost predicate TxsOk(s: State) {
    forall i :: i in s.txs ==> TxOk(s.db, s.txs[i])
  }

  ghost predicate Exclusive(s: State) {
    forall i, j :: i in s.txs && j in s.txs && i != j ==> Apart(s.txs[i], s.txs[j])
  }

  predicate Apart(a: Tx, b: Tx) {
    && (HoldsLb(a).Some? ==> HoldsLb(a) != HoldsLb(b))
    && (HoldsTg(a).Some? ==> HoldsTg(a) != HoldsTg(b))
  }

  /** The properties of committed states. */
  ghost predicate DeletingIsChildless(db: Db) {
    forall x :: x in db.lbs && db.lbs[x].status == Deleting ==> Childless(db, x)
  }

  ghost predicate ListenersFollow(db: Db) {
    forall l :: l in db.listeners ==>
      && db.listeners[l].lb in db.lbs
      && db.listeners[l].project == db.lbs[db.listeners[l].lb].project
  }

  ghost predicate PairsShareRegion(db: Db) {
    forall p :: p in db.attached ==>
      p.0 in db.lbs && p.1 in db.tgs && db.lbs[p.0].region == db.tgs[p.1].region
  }

  ghost predicate DbOk(db: Db) {
    DeletingIsChildless(db) && ListenersFollow(db) && PairsShareRegion(db)
  }

  ghost predicate Inv(s: State) {
    DbOk(s.db) && TxsOk(s) && Exclusive(s)
  }

  /** From db to new, nothing tx relies on changed: the rows it locked are the same, and no
      child appeared under a load balancer it locked. */
  ghost predicate Undisturbed(db: Db, new_: Db, tx: Tx) {
    && (HoldsLb(tx).Some? ==>
          var x := HoldsLb(tx).value;
          && (x in db.lbs ==> x in new_.lbs && new_.lbs[x] == db.lbs[x])
          && (forall l :: l in new_.listeners && new_.listeners[l].lb == x ==>
                l in db.listeners && db.listeners[l].lb == x)
          && (forall p :: p in new_.attached && p.0 == x ==> p in db.attached))
    && (HoldsTg(tx).Some? ==>
          var g := HoldsTg(tx).value;
          g in db.tgs ==> g in new_.tgs && new_.tgs[g] == db.tgs[g])
  }

  lemma UndisturbedOk(db: Db, new_: Db, tx: Tx)
    requires TxOk(db, tx) && Undisturbed(db, new_, tx)
    ensures TxOk(new_, tx)
  {}

  /** Every lock of tx was i's already, or was free. */
  predicate Acquires(s: State, i: TxId, tx: Tx) {
    && (HoldsLb(tx).Some? ==> (i in s.txs && HoldsLb(s.txs[i]) == HoldsLb(tx)) || FreeLb(s, HoldsLb(tx).value))
    && (HoldsTg(tx).Some? ==> (i in s.txs && HoldsTg(s.txs[i]) == HoldsTg(tx)) || FreeTg(s, HoldsTg(tx).value))
  }

  lemma AcquiredApart(s: State, i: TxId, tx: Tx, j: TxId)
    requires Exclusive(s) && Acquires(s, i, tx) && j in s.txs && j != i
    ensures Apart(tx, s.txs[j]) && Apart(s.txs[j], tx)
  {
    hide HoldsLb, HoldsTg;
    if i in s.txs { assert Apart(s.txs[i], s.txs[j]); }
  }

  /** A statement of transaction i: committed rows stay, i's new step is right by itself. */
  lemma StatementInv(s: State, i: TxId, tx: Tx)
    requires Inv(s) && TxOk(s.db, tx) && Acquires(s, i, tx)
    ensures Inv(Put(s, i, tx))
  {
    hide DbOk, TxOk, Acquires, Apart;
    forall j | j in s.txs && j != i ensures Apart(tx, s.txs[j]) && Apart(s.txs[j], tx) {
      AcquiredApart(s, i, tx, j);
    }
  }

  /** A change of committed rows, with the transactions that are left. */
  lemma CommitInv(s: State, t: State)
    requires Inv(s) && DbOk(t.db)
    requires forall j :: j in t.txs ==> j in s.txs && t.txs[j] == s.txs[j] && Undisturbed(s.db, t.db, t.txs[j])
    ensures Inv(t)
  {
    hide DbOk, TxOk, Undisturbed, Apart;
    forall j | j in t.txs ensures TxOk(t.db, t.txs[j]) {
      UndisturbedOk(s.db, t.db, t.txs[j]);
    }
  }

  lemma MarkedApplies(db: Db, tx: Tx)
    requires DbOk(db) && TxOk(db, tx) && tx.Marked? && CanCommit(db, tx)
    ensures DbOk(Apply(db, tx))
  {}

  lemma InsertedApplies(db: Db, tx: Tx)
    requires DbOk(db) && TxOk(db, tx) && tx.Inserted? && CanCommit(db, tx)
    ensures DbOk(Apply(db, tx))
  {}

  lemma AttachedApplies(db: Db, tx: Tx)
    requires DbOk(db) && TxOk(db, tx) && tx.Attached? && CanCommit(db, tx)
    ensures DbOk(Apply(db, tx))
  {}

  lemma CascadedApplies(db: Db, tx: Tx)
    requires DbOk(db) && TxOk(db, tx) && tx.Cascaded? && CanCommit(db, tx)
    ensures DbOk(Apply(db, tx))
  {}

  lemma MovedTgApplies(db: Db, tx: Tx)
    requires DbOk(db) && TxOk(db, tx) && tx.MovedTg? && CanCommit(db, tx)
    ensures DbOk(Apply(db, tx))
  {}

  lemma RemovedApplies(db: Db, tx: Tx)
    requires DbOk(db) && TxOk(db, tx) && tx.Removed? && CanCommit(db, tx)
    ensures DbOk(Apply(db, tx))
  {}

  lemma Applies(db: Db, tx: Tx)
    requires DbOk(db) && TxOk(db, tx) && CanCommit(db, tx)
    ensures DbOk(Apply(db, tx))
  {
    hide DbOk, TxOk, Apply;
    match tx
    case Marked(_) => MarkedApplies(db, tx);
    case Inserted(_, _, _, _) => InsertedApplies(db, tx);
    case Attached(_, _, _) => AttachedApplies(db, tx);
    case Cascaded(_, _, _) => CascadedApplies(db, tx);
    case MovedTg(_, _) => MovedTgApplies(db, tx);
    case Removed(_, _, _) => RemovedApplies(db, tx);
  }

  /** What a commit does to balancers and groups: none comes or goes, regions and protections stay,
      and project and status change only by the transaction meant to change them. */
  lemma CommitKeepsRows(db: Db, tx: Tx)
    requires CanCommit(db, tx) && TxOk(db, tx)
    ensures var after := Apply(db, tx);
      && after.lbs.Keys == db.lbs.Keys && after.tgs.Keys == db.tgs.Keys
      && (forall x :: x in db.lbs ==> LbChange(tx, x, db.lbs[x], after.lbs[x]))
      && (forall g :: g in db.tgs ==> TgChange(tx, g, db.tgs[g], after.tgs[g]))
  {}

  predicate LbChange(tx: Tx, x: LbId, was: LbRow, row: LbRow) {
    && row.protected == was.protected && row.region == was.region
    && (row.project != was.project ==> tx.Cascaded? && tx.lb == x)
    && (tx.Cascaded? && tx.lb == x ==> row.project == tx.project)
    && (row.status != was.status ==> HoldsLb(tx) == Some(x) && (row.status == Deleting ==> tx == Marked(x)))
    && (tx.Marked? && tx.lb == x ==> row.status == Deleting)
    && ((tx.Inserted? || tx.Attached?) && tx.lb == x ==> row.status == tx.status)
    && (tx.Removed? && tx.lb == x && tx.left.Some? ==> row.status == tx.left.value)
  }

  predicate TgChange(tx: Tx, g: TgId, was: TgRow, row: TgRow) {
    && row.region == was.region && (row.project != was.project ==> tx == MovedTg(g, row.project))
    && (tx.MovedTg? && tx.tg == g ==> row.project == tx.project)
  }

  /** And to listeners and pairs. */
  lemma CommitKeepsChildren(db: Db, tx: Tx)
    requires CanCommit(db, tx)
    ensures var was, after := db.listeners, Apply(db, tx).listeners;
      && (forall l :: l in was && l !in after ==> tx.Removed? && tx.child == AListener(l))
      && (forall l :: l in after && l !in was ==>
            tx.Inserted? && tx.id == l && after[l] == ListenerRow(tx.lb, tx.project))
      && (forall l :: l in after && l in was && after[l] != was[l] ==>
            tx.Cascaded? && l in tx.ids && was[l].lb == tx.lb && after[l] == ListenerRow(tx.lb, tx.project))
    ensures Apply(db, tx).attached ==
      if tx.Attached? then db.attached + {(tx.lb, tx.tg)}
      else if tx.Removed? && tx.child.APair? then db.attached - {(tx.child.lb, tx.child.tg)}
      else db.attached
  {}

  /** A commit touches only rows its own transaction holds. */
  lemma CommitUndisturbing(db: Db, tx: Tx, other: Tx)
    requires CanCommit(db, tx) && TxOk(db, tx) && Apart(tx, other)
    ensures Undisturbed(db, Apply(db, tx), other)
  {}

  lemma StepCommit(s: State, i: TxId)
    requires Inv(s) && Enabled(s, Commit(i))
    ensures Inv(Next(s, Commit(i)))
  {
    hide DbOk, TxOk, Apply, Undisturbed, Apart, CanCommit;
    Applies(s.db, s.txs[i]);
    forall j | j in s.txs && j != i ensures Undisturbed(s.db, Apply(s.db, s.txs[i]), s.txs[j]) {
      CommitUndisturbing(s.db, s.txs[i], s.txs[j]);
    }
    CommitInv(s, Next(s, Commit(i)));
  }

  predicate OfRow(e: Event) {
    e.SetStatus? || e.SetProtection? || e.CreateLb? || e.DeleteLb? || e.CreateTg? || e.DeleteTg?
  }

  lemma SetsRow(s: State, e: Event)
    requires DbOk(s.db) && Enabled(s, e) && (e.SetStatus? || e.SetProtection?)
    ensures Next(s, e).txs == s.txs && DbOk(Next(s, e).db)
    ensures forall j :: j in s.txs ==> Undisturbed(s.db, Next(s, e).db, s.txs[j])
  {}

  lemma CreatesLb(s: State, e: Event)
    requires DbOk(s.db) && Enabled(s, e) && e.CreateLb?
    ensures Next(s, e).txs == s.txs && DbOk(Next(s, e).db)
    ensures forall j :: j in s.txs ==> Undisturbed(s.db, Next(s, e).db, s.txs[j])
  {}

  lemma DeletesLb(s: State, e: Event)
    requires DbOk(s.db) && Enabled(s, e) && e.DeleteLb?
    ensures Next(s, e).txs == s.txs && DbOk(Next(s, e).db)
    ensures forall j :: j in s.txs ==> Undisturbed(s.db, Next(s, e).db, s.txs[j])
  {}

  lemma ChangesTg(s: State, e: Event)
    requires DbOk(s.db) && Enabled(s, e) && (e.CreateTg? || e.DeleteTg?)
    ensures Next(s, e).txs == s.txs && DbOk(Next(s, e).db)
    ensures forall j :: j in s.txs ==> Undisturbed(s.db, Next(s, e).db, s.txs[j])
  {}

  lemma StepRow(s: State, e: Event)
    requires Inv(s) && Enabled(s, e) && OfRow(e)
    ensures Inv(Next(s, e))
  {
    hide DbOk, TxsOk, Exclusive, Undisturbed, Next, Enabled;
    if e.CreateLb? {
      CreatesLb(s, e);
    } else if e.DeleteLb? {
      DeletesLb(s, e);
    } else if e.CreateTg? || e.DeleteTg? {
      ChangesTg(s, e);
    } else {
      SetsRow(s, e);
    }
    CommitInv(s, Next(s, e));
  }

  /** The statement moves its own transaction to `tx`, which is right by itself. */
  ghost predicate Statement(s: State, t: State, i: TxId, tx: Tx) {
    t == Put(s, i, tx) && TxOk(s.db, tx) && Acquires(s, i, tx)
  }

  lemma Begins(s: State, e: Event)
    requires Enabled(s, e)
    requires e.BeginMark? || e.BeginMarkOnce? || e.BeginInsert? || e.BeginAttach? || e.BeginMoveLb? || e.BeginMoveTg?
      || e.BeginRemove?
    ensures Statement(s, Next(s, e), e.i, Next(s, e).txs[e.i])
  {}

  lemma Locks(s: State, e: Event)
    requires TxsOk(s) && Enabled(s, e)
    requires e.LockMark? || e.LockInsert? || e.LockAttachLb? || e.LockAttachTg?
    ensures Statement(s, Next(s, e), e.i, Next(s, e).txs[e.i])
  {}

  lemma MoveLocks(s: State, e: Event)
    requires TxsOk(s) && Enabled(s, e)
    requires e.LockMoveLb? || e.LockMoveTg? || e.LockRemove? || e.SkipRemove?
    ensures Statement(s, Next(s, e), e.i, Next(s, e).txs[e.i])
  {}

  lemma Writes(s: State, e: Event)
    requires TxsOk(s) && Enabled(s, e) && (e.GuardMark? || e.WriteAttach? || e.Cascade?)
    ensures Statement(s, Next(s, e), e.i, Next(s, e).txs[e.i])
  {}

  lemma StepStatement(s: State, e: Event)
    requires Inv(s) && Enabled(s, e) && !e.LockMarkOnce? && !e.Commit? && !e.Abort? && !OfRow(e)
    ensures Inv(Next(s, e))
  {
    hide DbOk, TxsOk, Exclusive, TxOk, Acquires, Next, Enabled;
    if e.GuardMark? || e.WriteAttach? || e.Cascade? {
      Writes(s, e);
    } else if e.LockMark? || e.LockInsert? || e.LockAttachLb? || e.LockAttachTg? {
      Locks(s, e);
    } else if e.LockMoveLb? || e.LockMoveTg? || e.LockRemove? || e.SkipRemove? {
      MoveLocks(s, e);
    } else {
      Begins(s, e);
    }
    StatementInv(s, e.i, Next(s, e).txs[e.i]);
  }

  lemma StepAbort(s: State, i: TxId)
    requires Inv(s) && Enabled(s, Abort(i))
    ensures Inv(Next(s, Abort(i)))
  {}

  /** Every step of the repository's own statements (the two-statement MarkDeleting). */
  lemma StepInv(s: State, e: Event)
    requires Inv(s) && Enabled(s, e) && !e.LockMarkOnce?
    ensures Inv(Next(s, e))
  {
    hide Inv, Next, Enabled;
    if e.Commit? {
      StepCommit(s, e.i);
    } else if e.Abort? {
      StepAbort(s, e.i);
    } else if OfRow(e) {
      StepRow(s, e);
    } else {
      StepStatement(s, e);
    }
  }
}
