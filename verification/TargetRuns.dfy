/** One target group under concurrency: an adder's statements, one at a time under the group's
    row lock, between removals, drain passes, delay changes and the clock. */
module TargetRuns {
  import opened Domain
  import opened Targets

  /** The adder has handled wanted[..next]; `missed` when wanted[next] found no draining row to
      reactivate and its INSERT is still to come. `pending` holds the rows it wrote, which stay
      invisible and locked until it commits. */
  datatype Adder = Adder(wanted: seq<Target>, next: nat, missed: bool, pending: Rows)

  datatype State = State(rows: Rows, delay: nat, now: nat, adder: Option<Adder>)

  datatype Event =
    | Lock(wanted: seq<Target>)
    | TryReactivate
    | TryInsert(id: RowId)
    | CommitAdd
    | AbortAdd
    | Remove(named: set<RowId>)
    | Drain(expired: set<RowId>)   // the rows one pass deletes; locked rows are left
    | SetDelay(delay: nat)
    | Tick(seconds: nat)

  /** What the adder's statements see. */
  function View(s: State): Rows {
    match s.adder
    case Some(a) => s.rows + a.pending
    case None => s.rows
  }

  predicate Enabled(s: State, e: Event) {
    match e
    case Lock(wanted) => s.adder == None && wanted != [] && |s.rows| + |wanted| <= MAX_TARGETS_PER_GROUP
    case TryReactivate => s.adder.Some? && s.adder.value.next < |s.adder.value.wanted| && !s.adder.value.missed
    case TryInsert(id) => s.adder.Some? && s.adder.value.next < |s.adder.value.wanted| && s.adder.value.missed
                          && id !in View(s)
    case CommitAdd => s.adder.Some? && s.adder.value.next == |s.adder.value.wanted|
    case AbortAdd => s.adder.Some?
    case Remove(_) => true
    case Drain(expired) => forall r :: r in expired ==>
      r in s.rows && Expired(s.rows[r], s.delay, s.now) && (s.adder.Some? ==> r !in s.adder.value.pending)
    case SetDelay(_) => true
    case Tick(_) => true
  }

  /** A row the view has in a new form. */
  function Changed(before: Rows, after: Rows): Rows {
    map r | r in after && (r !in before || before[r] != after[r]) :: after[r]
  }

  function Next(s: State, e: Event): State
    requires Enabled(s, e)
  {
    match e
    case Lock(wanted) => s.(adder := Some(Adder(wanted, 0, false, map[])))
    case TryReactivate =>
      var a := s.adder.value;
      var t := a.wanted[a.next];
      if CanReactivate(View(s), t)
      then s.(adder := Some(a.(next := a.next + 1, pending := a.pending + Changed(View(s), Reactivate(View(s), t)))))
      else s.(adder := Some(a.(missed := true)))
    case TryInsert(id) =>
      var a := s.adder.value;
      s.(adder := Some(a.(next := a.next + 1, missed := false,
                          pending := a.pending + Changed(View(s), Insert(View(s), a.wanted[a.next], id)))))
    case CommitAdd => s.(rows := View(s), adder := None)
    case AbortAdd => s.(adder := None)
    // a row the adder reactivated is still DRAINING for everybody else, and its new rows unknown
    case Remove(named) => s.(rows := MarkDraining(s.rows, named, s.now))
    case Drain(expired) => s.(rows := s.rows - expired)
    case SetDelay(d) => s.(delay := d)
    case Tick(d) => s.(now := s.now + d)
  }

  predicate Run(s: State, es: seq<Event>)
    decreases |es|
  {
    es == [] || (Enabled(s, es[0]) && Run(Next(s, es[0]), es[1..]))
  }

  function After(s: State, es: seq<Event>): State
    requires Run(s, es)
    decreases |es|
  {
    if es == [] then s else After(Next(s, es[0]), es[1..])
  }

  // ---- the invariant ----

  ghost predicate RowsOk(s: State) {
    Valid(s.rows) && forall r :: r in s.rows && s.rows[r].drainStarted.Some? ==> s.rows[r].drainStarted.value <= s.now
  }

  ghost predicate ViewOk(s: State) {
    UniqueSlots(View(s)) && DrainConsistent(View(s))
  }

  /** The cap leaves room for what the adder still has to insert; what it wrote is in service,
      and was DRAINING or absent for everybody else. */
  ghost predicate AdderOk(s: State) {
    s.adder.Some? ==>
      var a := s.adder.value;
      && a.next <= |a.wanted| && (a.missed ==> a.next < |a.wanted|)
      && |View(s)| + (|a.wanted| - a.next) <= MAX_TARGETS_PER_GROUP
      && (forall r :: r in a.pending ==> !a.pending[r].draining)
      && (forall r :: r in a.pending && r in s.rows ==>
            s.rows[r].draining && s.rows[r].identity == a.pending[r].identity)
  }

  ghost predicate Inv(s: State) {
    RowsOk(s) && ViewOk(s) && AdderOk(s)
  }

  lemma SizeUpTo(a: Rows, b: Rows)
    requires a.Keys <= b.Keys
    ensures |a| <= |b|
  {
    SubsetSize(a.Keys, b.Keys);
    assert |a| == |a.Keys| && |b| == |b.Keys|;
  }

  lemma FewerSlots(a: Rows, b: Rows)
    requires UniqueSlots(a) && forall r :: r in b ==> r in a && b[r].identity == a[r].identity
    ensures UniqueSlots(b) && |b| <= |a|
  {
    assert b.Keys <= a.Keys;
    SizeUpTo(b, a);
  }

  lemma ChangesArePending(s: State, new_: Rows)
    requires s.adder.Some? && View(s).Keys <= new_.Keys
    ensures s.rows + (s.adder.value.pending + Changed(View(s), new_)) == new_
  {}

  lemma ReactivateKeeps(rows: Rows, t: Target)
    requires UniqueSlots(rows) && DrainConsistent(rows)
    ensures var after := Reactivate(rows, t);
      UniqueSlots(after) && DrainConsistent(after) && after.Keys == rows.Keys && |after| == |rows|
  {}

  lemma InsertKeeps(rows: Rows, t: Target, id: RowId)
    requires UniqueSlots(rows) && DrainConsistent(rows) && id !in rows
    ensures var after := Insert(rows, t, id);
      UniqueSlots(after) && DrainConsistent(after) && rows.Keys <= after.Keys && |after| <= |rows| + 1
  {}

  /** The rows a reactivation changes were draining in the committed table. */
  lemma ReactivatedPending(s: State, t: Target)
    requires AdderOk(s) && s.adder.Some?
    ensures var p := s.adder.value.pending + Changed(View(s), Reactivate(View(s), t));
      && (forall r :: r in p ==> !p[r].draining)
      && (forall r :: r in p && r in s.rows ==> s.rows[r].draining && s.rows[r].identity == p[r].identity)
  {}

  /** One more target handled: the committed rows stay, the view is `new_`. */
  lemma AdderWrote(s: State, t: State, new_: Rows)
    requires Inv(s) && s.adder.Some? && s.adder.value.next < |s.adder.value.wanted|
    requires t.adder.Some? && t == s.(adder := t.adder)
    requires var a := s.adder.value; var b := t.adder.value;
      && b.wanted == a.wanted && b.next == a.next + 1 && !b.missed
      && (forall r :: r in b.pending ==> !b.pending[r].draining)
      && (forall r :: r in b.pending && r in s.rows ==>
            s.rows[r].draining && s.rows[r].identity == b.pending[r].identity)
    requires View(t) == new_ && UniqueSlots(new_) && DrainConsistent(new_) && |new_| <= |View(s)| + 1
    ensures Inv(t)
  {
    hide UniqueSlots, DrainConsistent, View;
    assert RowsOk(t);
  }

  /** The adder after it wrote `new_`. */
  function Wrote(s: State, new_: Rows): State
    requires s.adder.Some?
  {
    var a := s.adder.value;
    s.(adder := Some(Adder(a.wanted, a.next + 1, false, a.pending + Changed(View(s), new_))))
  }

  lemma WroteView(s: State, new_: Rows)
    requires s.adder.Some? && View(s).Keys <= new_.Keys
    ensures View(Wrote(s, new_)) == new_
  {}

  lemma NextReactivate(s: State)
    requires Enabled(s, TryReactivate)
    ensures var a := s.adder.value; var t := a.wanted[a.next];
      Next(s, TryReactivate) ==
        if CanReactivate(View(s), t) then Wrote(s, Reactivate(View(s), t)) else s.(adder := Some(a.(missed := true)))
  {}

  lemma ReactivatedInv(s: State, t: Target)
    requires Inv(s) && s.adder.Some? && s.adder.value.next < |s.adder.value.wanted|
    ensures Inv(Wrote(s, Reactivate(View(s), t)))
  {
    var new_ := Reactivate(View(s), t);
    ReactivateKeeps(View(s), t);
    WroteView(s, new_);
    ReactivatedPending(s, t);
    hide Reactivate, Changed, UniqueSlots, DrainConsistent, RowsOk, ViewOk, AdderOk, Inv, View;
    AdderWrote(s, Wrote(s, new_), new_);
  }

  lemma StepReactivate(s: State)
    requires Inv(s) && Enabled(s, TryReactivate)
    ensures Inv(Next(s, TryReactivate))
  {
    var a := s.adder.value;
    NextReactivate(s);
    ReactivatedInv(s, a.wanted[a.next]);
  }

  lemma InsertedPending(s: State, t: Target, id: RowId)
    requires AdderOk(s) && s.adder.Some? && id !in View(s)
    ensures var p := s.adder.value.pending + Changed(View(s), Insert(View(s), t, id));
      && (forall r :: r in p ==> !p[r].draining)
      && (forall r :: r in p && r in s.rows ==> s.rows[r].draining && s.rows[r].identity == p[r].identity)
  {
    assert forall r :: r in Changed(View(s), Insert(View(s), t, id)) ==> r == id;
  }

  lemma StepInsert(s: State, id: RowId)
    requires Inv(s) && Enabled(s, TryInsert(id))
    ensures Inv(Next(s, TryInsert(id)))
  {
    var a := s.adder.value;
    var t := a.wanted[a.next];
    InsertKeeps(View(s), t, id);
    InsertedPending(s, t, id);
    var new_ := Insert(View(s), t, id);
    WroteView(s, new_);
    assert Next(s, TryInsert(id)) == Wrote(s, new_);
    hide Insert, Changed, UniqueSlots, DrainConsistent, RowsOk, ViewOk, AdderOk, Inv, View, Next;
    AdderWrote(s, Wrote(s, new_), new_);
  }

  lemma CommitView(s: State)
    requires Enabled(s, CommitAdd)
    ensures var t := Next(s, CommitAdd); t == s.(rows := View(s), adder := None) && View(t) == View(s) == t.rows
  {}

  lemma CommitDrainStarts(s: State)
    requires Inv(s) && Enabled(s, CommitAdd)
    ensures forall r :: r in View(s) && View(s)[r].drainStarted.Some? ==> View(s)[r].drainStarted.value <= s.now
  {
    hide UniqueSlots;
    forall r | r in View(s) && View(s)[r].drainStarted.Some? ensures View(s)[r].drainStarted.value <= s.now {
      assert View(s)[r].draining;
      assert View(s)[r] == s.rows[r];
    }
  }

  lemma StepCommit(s: State)
    requires Inv(s) && Enabled(s, CommitAdd)
    ensures Inv(Next(s, CommitAdd))
  {
    CommitView(s);
    CommitDrainStarts(s);
    hide View, Next, UniqueSlots, DrainConsistent;
  }

  lemma RemovedRows(s: State, named: set<RowId>)
    requires RowsOk(s)
    ensures RowsOk(Next(s, Remove(named)))
  {
    FewerSlots(s.rows, Next(s, Remove(named)).rows);
  }

  lemma RemovedView(s: State, named: set<RowId>)
    requires ViewOk(s)
    ensures var t := Next(s, Remove(named)); ViewOk(t) && |View(t)| <= |View(s)|
  {
    var t := Next(s, Remove(named));
    assert t.rows.Keys == s.rows.Keys;
    forall r | r in View(t)
      ensures r in View(s) && View(t)[r].identity == View(s)[r].identity
      ensures View(t)[r].draining <==> View(t)[r].drainStarted.Some?
    {
      if s.adder.Some? && r in s.adder.value.pending {
        assert View(t)[r] == View(s)[r];
      } else {
        assert View(s)[r] == s.rows[r];
      }
    }
    FewerSlots(View(s), View(t));
  }

  lemma StepRemove(s: State, named: set<RowId>)
    requires Inv(s)
    ensures Inv(Next(s, Remove(named)))
  {
    RemovedRows(s, named);
    RemovedView(s, named);
    hide RowsOk, ViewOk;
  }

  lemma DrainedRows(s: State, expired: set<RowId>)
    requires RowsOk(s) && Enabled(s, Drain(expired))
    ensures RowsOk(Next(s, Drain(expired)))
  {
    FewerSlots(s.rows, Next(s, Drain(expired)).rows);
  }

  lemma DrainedView(s: State, expired: set<RowId>)
    requires ViewOk(s) && Enabled(s, Drain(expired))
    ensures var t := Next(s, Drain(expired)); ViewOk(t) && |View(t)| <= |View(s)|
  {
    var t := Next(s, Drain(expired));
    forall r | r in View(t) ensures r in View(s) && View(t)[r] == View(s)[r] {
      if s.adder.Some? && r in s.adder.value.pending {
        assert View(t)[r] == View(s)[r];
      } else {
        assert View(s)[r] == s.rows[r];
      }
    }
    FewerSlots(View(s), View(t));
  }

  lemma StepDrain(s: State, expired: set<RowId>)
    requires Inv(s) && Enabled(s, Drain(expired))
    ensures Inv(Next(s, Drain(expired)))
  {
    DrainedRows(s, expired);
    DrainedView(s, expired);
    hide RowsOk, ViewOk;
  }

  lemma StepInv(s: State, e: Event)
    requires Inv(s) && Enabled(s, e)
    ensures Inv(Next(s, e))
  {
    match e
    case TryReactivate => StepReactivate(s);
    case TryInsert(id) => StepInsert(s, id);
    case CommitAdd => StepCommit(s);
    case Remove(named) => StepRemove(s, named);
    case Drain(expired) => StepDrain(s, expired);
    case Lock(wanted) => assert s.rows + map[] == s.rows;
    case _ =>
  }

  function Init(delay: nat): State {
    State(map[], delay, 0, None)
  }

  lemma {:induction false} RunInv(s: State, es: seq<Event>)
    requires Inv(s) && Run(s, es)
    ensures Inv(After(s, es))
    decreases |es|
  {
    if es != [] {
      StepInv(s, es[0]);
      RunInv(Next(s, es[0]), es[1..]);
    }
  }

  /** Under concurrent adders, removals and drain passes a group holds at most 100 rows, no two
      share an identity, and a row drains exactly when its drain start is set. */
  lemma GroupStaysValid(delay: nat, es: seq<Event>)
    requires Run(Init(delay), es)
    ensures Valid(After(Init(delay), es).rows)
  {
    RunInv(Init(delay), es);
  }

  // ---- a row is deleted only after its delay, and only when a removal named it ----

  /** Row r is in service, or has been draining since `start` or later. */
  predicate InServiceAt(s: State, r: RowId, start: nat) {
    && r in s.rows && start <= s.now
    && (s.rows[r].draining ==> s.rows[r].drainStarted.Some? && s.rows[r].drainStarted.value >= start)
  }

  predicate Deletes(e: Event, r: RowId) { e.Drain? && r in e.expired }

  predicate Names(e: Event, r: RowId) { e.Remove? && r in e.named }

  lemma RowStep(s: State, e: Event, r: RowId, start: nat)
    requires Inv(s) && Enabled(s, e) && InServiceAt(s, r, start) && !Deletes(e, r)
    ensures InServiceAt(Next(s, e), r, start)
    ensures !s.rows[r].draining && !Names(e, r) ==> !Next(s, e).rows[r].draining
  {}

  lemma {:induction false} DrainingSince(s: State, es: seq<Event>, r: RowId, start: nat)
    requires Inv(s) && Run(s, es) && InServiceAt(s, r, start)
    requires forall i :: 0 <= i < |es| ==> !Deletes(es[i], r)
    ensures InServiceAt(After(s, es), r, start)
    ensures !s.rows[r].draining && (forall i :: 0 <= i < |es| ==> !Names(es[i], r)) ==> !After(s, es).rows[r].draining
    decreases |es|
  {
    if es != [] {
      StepInv(s, es[0]);
      assert !Deletes(es[0], r);
      RowStep(s, es[0], r, start);
      forall i | 0 <= i < |es[1..]| ensures es[1..][i] == es[i + 1] {}
      DrainingSince(Next(s, es[0]), es[1..], r, start);
    }
  }

  /** A row that was in service can be deleted only after a removal named it, and only when more
      than the group's delay at that time has passed since it was in service. */
  lemma DeletedOnlyAfterDelay(s: State, es: seq<Event>, expired: set<RowId>, r: RowId)
    requires Inv(s) && Run(s, es) && r in s.rows && !s.rows[r].draining
    requires forall i :: 0 <= i < |es| ==> !Deletes(es[i], r)
    requires Enabled(After(s, es), Drain(expired)) && r in expired
    ensures exists i :: 0 <= i < |es| && Names(es[i], r)
    ensures s.now + After(s, es).delay < After(s, es).now
  {
    DrainingSince(s, es, r, s.now);
  }

  /** Nothing but a drain pass deletes a row, and a removal alone takes it out of service. */
  lemma ServedUntilNamed(s: State, es: seq<Event>, r: RowId)
    requires Inv(s) && Run(s, es) && r in s.rows && !s.rows[r].draining
    requires forall i :: 0 <= i < |es| ==> !Names(es[i], r)
    ensures r in After(s, es).rows && !After(s, es).rows[r].draining
    decreases |es|
  {
    if es != [] {
      StepInv(s, es[0]);
      forall i | 0 <= i < |es[1..]| ensures es[1..][i] == es[i + 1] {}
      assert !Names(es[0], r);
      assert !Deletes(es[0], r);
      RowStep(s, es[0], r, 0);
      ServedUntilNamed(Next(s, es[0]), es[1..], r);
    }
  }

  // ---- what an adder leaves, statement by statement ----

  // ---- what comes into service ----

  /** The row is in service as some requested target says. */
  ghost predicate AsWanted(a: Adder, row: Row) {
    exists k :: 0 <= k < |a.wanted| && row == Row(a.wanted[k].identity, a.wanted[k].weight, false, None)
  }

  ghost predicate PendingAsWanted(s: State) {
    s.adder.Some? ==> forall r :: r in s.adder.value.pending ==> AsWanted(s.adder.value, s.adder.value.pending[r])
  }

  lemma WantedStays(a: Adder, b: Adder, row: Row)
    requires a.wanted == b.wanted && AsWanted(a, row)
    ensures AsWanted(b, row)
  {}

  lemma PendingStep(s: State, e: Event)
    requires PendingAsWanted(s) && Enabled(s, e)
    ensures PendingAsWanted(Next(s, e))
  {
    hide AsWanted, CanReactivate;
    var t := Next(s, e);
    if t.adder.Some? && s.adder.Some? {
      var a, b := s.adder.value, t.adder.value;
      forall r | r in b.pending ensures AsWanted(b, b.pending[r]) {
        if r in a.pending && a.pending[r] == b.pending[r] {
          WantedStays(a, b, b.pending[r]);
        } else {
          NextIsWanted(b, a.next, b.pending[r]);
        }
      }
    }
  }

  lemma NextIsWanted(a: Adder, k: nat, row: Row)
    requires k < |a.wanted| && row == Row(a.wanted[k].identity, a.wanted[k].weight, false, None)
    ensures AsWanted(a, row)
  {}

  /** A row comes into service, or changes in service, only by the commit of an addition, and then
      as one of its targets says. */
  lemma ServesByCommit(s: State, e: Event, r: RowId)
    requires PendingAsWanted(s) && Enabled(s, e)
    ensures var t := Next(s, e);
      r in t.rows && !t.rows[r].draining ==>
        || (r in s.rows && s.rows[r] == t.rows[r])
        || (e.CommitAdd? && AsWanted(s.adder.value, t.rows[r]))
  {
    hide AsWanted;
  }

  /** Over whole runs: without a commit of an addition nothing comes into service, whatever was
      written and rolled back. */
  lemma {:induction false} OnlyCommitsServe(s: State, es: seq<Event>, r: RowId)
    requires PendingAsWanted(s) && Run(s, es) && CommitAdd !in es
    ensures var t := After(s, es);
      r in t.rows && !t.rows[r].draining ==> r in s.rows && s.rows[r] == t.rows[r]
    decreases |es|
  {
    hide PendingAsWanted, Enabled, Next;
    if es != [] {
      assert es[0] in es && forall e :: e in es[1..] ==> e in es;
      PendingStep(s, es[0]);
      ServesByCommit(s, es[0], r);
      OnlyCommitsServe(Next(s, es[0]), es[1..], r);
    }
  }

  /** Target j is still to be handled, and could still reactivate a row. */
  predicate Remaining(a: Adder, j: int) {
    a.next <= j < |a.wanted|
  }

  ghost predicate WillReactivate(a: Adder, identity: Identity) {
    exists j :: Remaining(a, j) && a.wanted[j].identity == identity && (j == a.next ==> !a.missed)
  }

  ghost predicate SlotRemains(a: Adder, slot: Identity) {
    exists j :: Remaining(a, j) && Slot(a.wanted[j].identity) == slot
  }

  /** No draining row will be in the way, and every handled target is served or comes again. */
  ghost predicate OnCourse(rows: Rows, a: Adder) {
    && (forall r :: r in rows && rows[r].draining && SlotAsked(a.wanted, Slot(rows[r].identity)) ==>
          WillReactivate(a, rows[r].identity))
    && (forall k :: 0 <= k < a.next && k < |a.wanted| ==>
          Serving(rows, Slot(a.wanted[k].identity)) || SlotRemains(a, Slot(a.wanted[k].identity)))
  }

  /** What CourseServed asks of a table in which t was added. */
  ghost predicate Served(v: Rows, new_: Rows, r: RowId, slot: Identity) {
    && UniqueSlots(new_)
    && (forall q :: q in v ==> q in new_ && (new_[q] == v[q] || !new_[q].draining) && new_[q].identity == v[q].identity)
    && (forall q :: q in new_ && new_[q].draining ==> q in v && v[q] == new_[q])
    && r in new_ && !new_[r].draining && Slot(new_[r].identity) == slot
  }

  lemma ReactivateServes(v: Rows, t: Target) returns (r: RowId)
    requires UniqueSlots(v) && DrainConsistent(v) && CanReactivate(v, t)
    ensures Served(v, Reactivate(v, t), r, Slot(t.identity))
  {
    ReactivateKeeps(v, t);
    r :| r in v && Matches(v[r], t.identity);
    assert Reactivate(v, t)[r] == Row(t.identity, t.weight, false, None);
  }

  /** Nothing matches the target at hand: its insert is next. */
  lemma CourseMisses(v: Rows, a: Adder, b: Adder)
    requires OnCourse(v, a) && a.next < |a.wanted| && !CanReactivate(v, a.wanted[a.next]) && b == a.(missed := true)
    ensures OnCourse(v, b)
  {}

  lemma CourseReactivate(s: State)
    requires Inv(s) && Enabled(s, TryReactivate) && OnCourse(View(s), s.adder.value)
    ensures OnCourse(View(Next(s, TryReactivate)), Next(s, TryReactivate).adder.value)
  {
    var a := s.adder.value;
    var t := a.wanted[a.next];
    var v := View(s);
    hide OnCourse, UniqueSlots, DrainConsistent, RowsOk;
    if CanReactivate(v, t) {
      var new_ := Reactivate(v, t);
      ReactivateKeeps(v, t);
      ChangesArePending(s, new_);
      var r := ReactivateServes(v, t);
      hide Reactivate, Changed, Served;
      CourseServed(v, new_, a, Next(s, TryReactivate).adder.value, r);
    } else {
      CourseMisses(v, a, Next(s, TryReactivate).adder.value);
    }
  }

  /** The target at hand is served by row r now; everything else is as it was. */
  lemma CourseServed(v: Rows, new_: Rows, a: Adder, b: Adder, r: RowId)
    requires OnCourse(v, a) && a.next < |a.wanted| && b.wanted == a.wanted && b.next == a.next + 1 && !b.missed
    requires Served(v, new_, r, Slot(a.wanted[a.next].identity))
    ensures OnCourse(new_, b)
  {}

  lemma CourseInserted(v: Rows, a: Adder, b: Adder, id: RowId)
    requires UniqueSlots(v) && DrainConsistent(v) && id !in v && OnCourse(v, a)
    requires a.next < |a.wanted| && a.missed && b.wanted == a.wanted && b.next == a.next + 1 && !b.missed
    ensures OnCourse(Insert(v, a.wanted[a.next], id), b)
  {
    var t := a.wanted[a.next];
    var new_ := Insert(v, t, id);
    var slot := Slot(t.identity);
    InsertKeeps(v, t, id);
    if Occupied(v, slot) {
      var r :| r in v && Slot(v[r].identity) == slot;
      if v[r].draining {
        assert SlotAsked(a.wanted, slot);
        CourseSkips(v, a, b, r);
      } else {
        CourseServed(v, new_, a, b, r);
      }
    } else {
      assert new_[id] == Row(t.identity, t.weight, false, None);
      CourseServed(v, new_, a, b, id);
    }
  }

  lemma CourseInsert(s: State, id: RowId)
    requires Inv(s) && Enabled(s, TryInsert(id)) && OnCourse(View(s), s.adder.value)
    ensures OnCourse(View(Next(s, TryInsert(id))), Next(s, TryInsert(id)).adder.value)
  {
    var a := s.adder.value;
    var t := a.wanted[a.next];
    InsertKeeps(View(s), t, id);
    ChangesArePending(s, Insert(View(s), t, id));
    hide OnCourse, UniqueSlots, DrainConsistent, RowsOk, Insert, Changed;
    CourseInserted(View(s), a, Next(s, TryInsert(id)).adder.value, id);
  }

  /** The insert is swallowed by a draining row that a later target will reactivate. */
  lemma CourseSkips(v: Rows, a: Adder, b: Adder, r: RowId)
    requires OnCourse(v, a) && a.next < |a.wanted| && a.missed
    requires b.wanted == a.wanted && b.next == a.next + 1 && !b.missed
    requires r in v && v[r].draining && Slot(v[r].identity) == Slot(a.wanted[a.next].identity)
    requires SlotAsked(a.wanted, Slot(v[r].identity))
    ensures OnCourse(v, b)
  {}

  /** Why an adder is off course: a draining row that nothing will reactivate ... */
  ghost predicate OffAt(v: Rows, a: Adder, r: RowId) {
    r in v && v[r].draining && SlotAsked(a.wanted, Slot(v[r].identity)) && !WillReactivate(a, v[r].identity)
  }

  /** What a removal may take out of service without harm to the adder: a row of a slot it was not
      asked for, one that drains anyway, or one that a target still to come reactivates. */
  ghost predicate KeepsCourse(s: State, e: Event) {
    s.adder.Some? && e.Remove? ==>
      var a := s.adder.value;
      forall r :: r in e.named && r in s.rows && TakesAsked(s.rows[r], a) ==> WillReactivate(a, s.rows[r].identity)
  }

  /** The row is in service in a slot the adder was asked for. */
  predicate TakesAsked(row: Row, a: Adder) {
    !row.draining && SlotAsked(a.wanted, Slot(row.identity))
  }

  /** The adder's own rows stay as they are under a removal, the others are marked. */
  lemma RemovedInView(s: State, named: set<RowId>)
    requires AdderOk(s) && s.adder.Some?
    ensures var v, w := View(s), View(Next(s, Remove(named)));
      && w.Keys == v.Keys
      && (forall r :: r in v ==>
            if r in s.rows && r in named && !s.rows[r].draining
            then w[r] == s.rows[r].(draining := true, drainStarted := Some(s.now)) && v[r] == s.rows[r]
            else w[r] == v[r])
  {}

  /** What changes in the view, when only rows that come back leave service. */
  lemma RemoveKeepsCourse(v: Rows, w: Rows, a: Adder)
    requires OnCourse(v, a) && w.Keys == v.Keys
    requires forall r :: r in v ==> w[r].identity == v[r].identity
    requires forall r :: r in v && w[r] != v[r] ==>
      w[r].draining && (SlotAsked(a.wanted, Slot(v[r].identity)) ==> WillReactivate(a, v[r].identity))
    ensures OnCourse(w, a)
  {
    forall k | 0 <= k < a.next && k < |a.wanted| && Serving(v, Slot(a.wanted[k].identity))
      ensures Serving(w, Slot(a.wanted[k].identity)) || SlotRemains(a, Slot(a.wanted[k].identity))
    {
      var r :| r in v && Slot(v[r].identity) == Slot(a.wanted[k].identity) && !v[r].draining;
      if w[r] != v[r] {
        assert SlotAsked(a.wanted, Slot(v[r].identity));
        var j :| Remaining(a, j) && a.wanted[j].identity == v[r].identity;
      }
    }
  }

  lemma TakenIsOff(s: State, named: set<RowId>, r: RowId)
    requires AdderOk(s) && s.adder.Some? && r in named && r in s.rows && TakesAsked(s.rows[r], s.adder.value)
    requires !WillReactivate(s.adder.value, s.rows[r].identity)
    ensures !OnCourse(View(Next(s, Remove(named))), s.adder.value)
  {
    RemovedInView(s, named);
    AdderRowInView(s, r);
    hide AdderOk, Next, View, WillReactivate, SlotAsked, SlotRemains, Serving, Slot;
    assert OffAt(View(Next(s, Remove(named))), s.adder.value, r);
  }

  lemma ComingBack(s: State, named: set<RowId>)
    requires AdderOk(s) && s.adder.Some? && OnCourse(View(s), s.adder.value) && KeepsCourse(s, Remove(named))
    ensures OnCourse(View(Next(s, Remove(named))), s.adder.value)
  {
    RemovedInView(s, named);
    hide AdderOk, Next, View, OnCourse, WillReactivate, SlotAsked, Slot;
    RemoveKeepsCourse(View(s), View(Next(s, Remove(named))), s.adder.value);
  }

  /** A removal leaves the adder on course exactly when it takes no asked row out of service that
      no target still to come will reactivate. */
  lemma RemoveExact(s: State, named: set<RowId>)
    requires Inv(s) && s.adder.Some? && OnCourse(View(s), s.adder.value)
    ensures OnCourse(View(Next(s, Remove(named))), s.adder.value) <==> KeepsCourse(s, Remove(named))
  {
    hide AdderOk, RowsOk, ViewOk, Next, View, OnCourse, WillReactivate, TakesAsked;
    if KeepsCourse(s, Remove(named)) {
      ComingBack(s, named);
    } else {
      var r :| r in named && r in s.rows && TakesAsked(s.rows[r], s.adder.value)
        && !WillReactivate(s.adder.value, s.rows[r].identity);
      TakenIsOff(s, named, r);
    }
  }

  lemma AdderRowInView(s: State, r: RowId)
    requires s.adder.Some? && r in s.rows
    ensures r in View(s)
  {}

  /** A drain pass deletes draining rows that the adder has not written. */
  lemma DrainKeepsCourse(s: State, expired: set<RowId>)
    requires Enabled(s, Drain(expired)) && s.adder.Some? && OnCourse(View(s), s.adder.value)
    ensures OnCourse(View(Next(s, Drain(expired))), s.adder.value)
  {
    var v, w := View(s), View(Next(s, Drain(expired)));
    assert forall r :: r in w ==> r in v && w[r] == v[r];
    assert forall r :: r in v && !v[r].draining ==> r in w;
    hide Next, View, WillReactivate, SlotRemains, SlotAsked;
  }

  lemma CourseStep(s: State, e: Event)
    requires Inv(s) && Enabled(s, e) && s.adder.Some? && !e.CommitAdd? && !e.AbortAdd? && KeepsCourse(s, e)
    requires OnCourse(View(s), s.adder.value)
    ensures OnCourse(View(Next(s, e)), Next(s, e).adder.value)
  {
    hide Inv, OnCourse, KeepsCourse;
    SameAdder(s, e);
    match e
    case TryReactivate => CourseReactivate(s);
    case TryInsert(id) => CourseInsert(s, id);
    case Remove(named) => RemoveExact(s, named);
    case Drain(expired) => DrainKeepsCourse(s, expired);
    case _ =>
  }

  /** Which steps move the adder, and what they leave. */
  lemma SameAdder(s: State, e: Event)
    requires Enabled(s, e) && s.adder.Some? && !e.CommitAdd? && !e.AbortAdd?
    ensures Next(s, e).adder.Some? && Next(s, e).adder.value.wanted == s.adder.value.wanted
    ensures !e.TryReactivate? && !e.TryInsert? ==> Next(s, e).adder == s.adder
    ensures e.SetDelay? || e.Tick? ==> View(Next(s, e)) == View(s)
  {}

  /** The drain pass takes no row of a slot the adder was asked for. */
  predicate Spares(s: State, e: Event) {
    s.adder.Some? && e.Drain? ==>
      forall r :: r in e.expired && r in s.rows ==> !SlotAsked(s.adder.value.wanted, Slot(s.rows[r].identity))
  }

  /** ... or a target it has left behind out of service. */
  ghost predicate LeftBehind(v: Rows, a: Adder, k: int) {
    && 0 <= k < a.next && k < |a.wanted|
    && !Serving(v, Slot(a.wanted[k].identity)) && !SlotRemains(a, Slot(a.wanted[k].identity))
  }

  lemma OffCourse(v: Rows, a: Adder)
    ensures !OnCourse(v, a) <==> (exists r :: OffAt(v, a, r)) || (exists k :: LeftBehind(v, a, k))
  {
    hide WillReactivate, SlotRemains, SlotAsked, Serving, Slot;
    if (forall r :: !OffAt(v, a, r)) && (forall k :: !LeftBehind(v, a, k)) {
      forall r | r in v && v[r].draining && SlotAsked(a.wanted, Slot(v[r].identity))
        ensures WillReactivate(a, v[r].identity)
      {
        assert !OffAt(v, a, r);
      }
      forall k | 0 <= k < a.next && k < |a.wanted|
        ensures Serving(v, Slot(a.wanted[k].identity)) || SlotRemains(a, Slot(a.wanted[k].identity))
      {
        assert !LeftBehind(v, a, k);
      }
    }
  }

  /** Once off course, always: rows of asked slots only drain, and what is handled is handled. */
  lemma StaysOff(v: Rows, a: Adder, w: Rows, b: Adder)
    requires !OnCourse(v, a) && b.wanted == a.wanted && a.next <= b.next
    requires forall i :: WillReactivate(b, i) ==> WillReactivate(a, i)
    requires forall r :: OffAt(v, a, r) ==> r in w && w[r].draining && w[r].identity == v[r].identity
    requires forall slot :: SlotAsked(a.wanted, slot) && Serving(w, slot) ==> Serving(v, slot) || SlotRemains(a, slot)
    ensures !OnCourse(w, b)
  {
    OffCourse(v, a);
    OffCourse(w, b);
    forall slot | SlotRemains(b, slot) ensures SlotRemains(a, slot) {
      var j :| Remaining(b, j) && Slot(a.wanted[j].identity) == slot;
      assert Remaining(a, j);
    }
    if r :| OffAt(v, a, r) {
      assert OffAt(w, b, r);
    } else {
      var k :| LeftBehind(v, a, k);
      assert SlotAsked(a.wanted, Slot(a.wanted[k].identity));
      assert LeftBehind(w, b, k);
    }
  }

  /** The table and the adder after a statement that leaves the table as `new_`. */
  lemma OffWritten(s: State, e: Event)
    requires Inv(s) && Enabled(s, e) && (e.TryReactivate? || e.TryInsert?)
    ensures var a, b := s.adder.value, Next(s, e).adder.value;
      && a.next <= b.next && (forall i :: WillReactivate(b, i) ==> WillReactivate(a, i))
  {
    var a, b := s.adder.value, Next(s, e).adder.value;
    forall i | WillReactivate(b, i) ensures WillReactivate(a, i) {
      var j :| Remaining(b, j) && b.wanted[j].identity == i && (j == b.next ==> !b.missed);
      assert Remaining(a, j);
    }
  }

  /** One statement serves no slot but that of its target, and leaves other draining rows alone. */
  lemma ReactivateServesOne(v: Rows, t: Target)
    ensures var w := Reactivate(v, t);
      && (forall slot :: Serving(w, slot) ==> Serving(v, slot) || slot == Slot(t.identity))
      && (forall r :: r in v && v[r].identity != t.identity ==> r in w && w[r] == v[r])
  {
    var w := Reactivate(v, t);
    forall slot | Serving(w, slot) && slot != Slot(t.identity) ensures Serving(v, slot) {
      var r :| r in w && Slot(w[r].identity) == slot && !w[r].draining;
      assert v[r] == w[r];
    }
  }

  lemma InsertServesOne(v: Rows, t: Target, id: RowId)
    requires id !in v
    ensures var w := Insert(v, t, id);
      && (forall slot :: Serving(w, slot) ==> Serving(v, slot) || slot == Slot(t.identity))
      && (forall r :: r in v ==> r in w && w[r] == v[r])
  {
    var w := Insert(v, t, id);
    forall slot | Serving(w, slot) && slot != Slot(t.identity) ensures Serving(v, slot) {
      var r :| r in w && Slot(w[r].identity) == slot && !w[r].draining;
      assert r in v;
    }
  }

  /** The target at hand will still be tried. */
  lemma AtHand(a: Adder)
    requires a.next < |a.wanted|
    ensures SlotRemains(a, Slot(a.wanted[a.next].identity))
    ensures !a.missed ==> WillReactivate(a, a.wanted[a.next].identity)
  {
    assert Remaining(a, a.next);
  }

  lemma ReactivateView(s: State)
    requires Enabled(s, TryReactivate)
    ensures var v, t := View(s), s.adder.value.wanted[s.adder.value.next];
      View(Next(s, TryReactivate)) == (if CanReactivate(v, t) then Reactivate(v, t) else v)
  {
    NextReactivate(s);
    WroteView(s, Reactivate(View(s), s.adder.value.wanted[s.adder.value.next]));
  }

  lemma InsertView(s: State, id: RowId)
    requires Enabled(s, TryInsert(id))
    ensures View(Next(s, TryInsert(id))) == Insert(View(s), s.adder.value.wanted[s.adder.value.next], id)
  {
    var new_ := Insert(View(s), s.adder.value.wanted[s.adder.value.next], id);
    WroteView(s, new_);
    assert Next(s, TryInsert(id)) == Wrote(s, new_);
  }

  /** A reactivation of the target at hand, seen on the tables alone. */
  lemma OffAfterReactivate(v: Rows, a: Adder, b: Adder)
    requires !OnCourse(v, a) && a.next < |a.wanted| && !a.missed && b.wanted == a.wanted && a.next <= b.next
    requires forall i :: WillReactivate(b, i) ==> WillReactivate(a, i)
    ensures !OnCourse(Reactivate(v, a.wanted[a.next]), b)
  {
    AtHand(a);
    ReactivateServesOne(v, a.wanted[a.next]);
    hide OnCourse, WillReactivate, SlotRemains, SlotAsked, Serving, Reactivate;
    StaysOff(v, a, Reactivate(v, a.wanted[a.next]), b);
  }

  lemma OffReactivate(s: State)
    requires Inv(s) && Enabled(s, TryReactivate) && !OnCourse(View(s), s.adder.value)
    ensures !OnCourse(View(Next(s, TryReactivate)), Next(s, TryReactivate).adder.value)
  {
    OffWritten(s, TryReactivate);
    ReactivateView(s);
    SameAdder(s, TryReactivate);
    var v, a, b := View(s), s.adder.value, Next(s, TryReactivate).adder.value;
    hide Inv, Next, View, OnCourse, WillReactivate, Reactivate, CanReactivate;
    if View(Next(s, TryReactivate)) == v {
      StaysOff(v, a, v, b);
    } else {
      OffAfterReactivate(v, a, b);
    }
  }

  lemma OffInsert(s: State, id: RowId)
    requires Inv(s) && Enabled(s, TryInsert(id)) && !OnCourse(View(s), s.adder.value)
    ensures !OnCourse(View(Next(s, TryInsert(id))), Next(s, TryInsert(id)).adder.value)
  {
    var a := s.adder.value;
    OffWritten(s, TryInsert(id));
    InsertView(s, id);
    InsertServesOne(View(s), a.wanted[a.next], id);
    AtHand(a);
    SameAdder(s, TryInsert(id));
    hide Inv, Next, View, OnCourse, WillReactivate, SlotRemains, SlotAsked, Serving, Insert;
    StaysOff(View(s), a, View(Next(s, TryInsert(id))), Next(s, TryInsert(id)).adder.value);
  }

  /** Marking rows serves nothing. */
  lemma MarkedServes(v: Rows, w: Rows)
    requires w.Keys == v.Keys && forall r :: r in v ==> w[r] == v[r] || w[r].draining
    ensures forall slot :: Serving(w, slot) ==> Serving(v, slot)
  {
    forall slot | Serving(w, slot) ensures Serving(v, slot) {
      var r :| r in w && Slot(w[r].identity) == slot && !w[r].draining;
      assert v[r] == w[r];
    }
  }

  lemma OffRemoved(s: State, named: set<RowId>)
    requires Inv(s) && s.adder.Some? && !OnCourse(View(s), s.adder.value)
    ensures !OnCourse(View(Next(s, Remove(named))), s.adder.value)
  {
    var a := s.adder.value;
    var v, w := View(s), View(Next(s, Remove(named)));
    RemovedInView(s, named);
    hide Inv, Next, View, OnCourse, MarkDraining, WillReactivate, SlotAsked, SlotRemains, Serving, Slot;
    MarkedServes(v, w);
    StaysOff(v, a, w, a);
  }

  lemma OffDrained(s: State, expired: set<RowId>)
    requires Enabled(s, Drain(expired)) && s.adder.Some? && Spares(s, Drain(expired))
    requires !OnCourse(View(s), s.adder.value)
    ensures !OnCourse(View(Next(s, Drain(expired))), s.adder.value)
  {
    var a := s.adder.value;
    var v, w := View(s), View(Next(s, Drain(expired)));
    assert forall r :: r in w ==> r in v && w[r] == v[r];
    assert forall r :: r in v && r !in w ==> r in s.rows && v[r] == s.rows[r] && r in expired;
    hide Next, View, OnCourse, WillReactivate, SlotAsked, SlotRemains;
    StaysOff(v, a, w, a);
  }

  lemma OffStep(s: State, e: Event)
    requires Inv(s) && Enabled(s, e) && s.adder.Some? && !e.CommitAdd? && !e.AbortAdd? && Spares(s, e)
    requires !OnCourse(View(s), s.adder.value)
    ensures !OnCourse(View(Next(s, e)), Next(s, e).adder.value)
  {
    hide Inv, OnCourse, Spares;
    SameAdder(s, e);
    match e
    case TryReactivate => OffReactivate(s);
    case TryInsert(id) => OffInsert(s, id);
    case Remove(named) => OffRemoved(s, named);
    case Drain(expired) => OffDrained(s, expired);
    case _ =>
  }

  /** The run does not end the adder. */
  predicate KeepsAdding(es: seq<Event>) {
    forall i :: 0 <= i < |es| ==> !es[i].CommitAdd? && !es[i].AbortAdd?
  }

  /** No removal of the run takes the adder off course. */
  ghost predicate Undisturbed(s: State, es: seq<Event>)
    requires Run(s, es)
    decreases |es|
  {
    es == [] || (KeepsCourse(s, es[0]) && Undisturbed(Next(s, es[0]), es[1..]))
  }

  /** No drain pass of the run deletes a row of an asked slot. */
  ghost predicate Sparing(s: State, es: seq<Event>)
    requires Run(s, es)
    decreases |es|
  {
    es == [] || (Spares(s, es[0]) && Sparing(Next(s, es[0]), es[1..]))
  }

  lemma {:induction false} CourseRun(s: State, es: seq<Event>)
    requires Inv(s) && s.adder.Some? && Run(s, es) && KeepsAdding(es)
    ensures var t := After(s, es);
      && Inv(t) && t.adder.Some? && t.adder.value.wanted == s.adder.value.wanted
      && (OnCourse(View(s), s.adder.value) && Undisturbed(s, es) ==> OnCourse(View(t), t.adder.value))
      && (Sparing(s, es) && OnCourse(View(t), t.adder.value) ==> OnCourse(View(s), s.adder.value) && Undisturbed(s, es))
    decreases |es|
  {
    hide Inv, OnCourse, KeepsCourse, Spares, Enabled, Next, View;
    if es != [] {
      var e := es[0];
      StepInv(s, e);
      SameAdder(s, e);
      if OnCourse(View(s), s.adder.value) && KeepsCourse(s, e) { CourseStep(s, e); }
      if OnCourse(View(s), s.adder.value) && !KeepsCourse(s, e) { RemovedOff(s, e); }
      if !OnCourse(View(s), s.adder.value) && Spares(s, e) { OffStep(s, e); }
      CourseRun(Next(s, e), es[1..]);
    }
  }

  lemma RemovedOff(s: State, e: Event)
    requires Inv(s) && Enabled(s, e) && s.adder.Some? && OnCourse(View(s), s.adder.value) && !KeepsCourse(s, e)
    ensures Next(s, e).adder.Some? && !OnCourse(View(Next(s, e)), Next(s, e).adder.value)
  {
    RemoveExact(s, e.named);
    hide OnCourse, Inv;
  }

  /** When the adder gets the lock it is on course exactly when no draining row with an identity
      nobody asks for (another zone's) holds a requested slot. */
  lemma StartExact(rows: Rows, wanted: seq<Target>)
    ensures OnCourse(rows, Adder(wanted, 0, false, map[])) <==>
      forall slot :: SlotAsked(wanted, slot) ==> !Blocked(rows, slot, wanted)
  {
    var a := Adder(wanted, 0, false, map[]);
    forall i ensures WillReactivate(a, i) <==> Asked(wanted, i) {
      if Asked(wanted, i) {
        var j :| 0 <= j < |wanted| && wanted[j].identity == i;
        assert Remaining(a, j);
      }
    }
  }

  /** When it commits it is on course exactly when every requested identity is in service. */
  lemma CommitExact(s: State)
    requires Inv(s) && Enabled(s, CommitAdd)
    ensures OnCourse(View(s), s.adder.value) <==> AllServed(Next(s, CommitAdd).rows, s.adder.value.wanted)
  {
    var a := s.adder.value;
    var v := View(s);
    assert UniqueSlots(v);
    hide Inv, View, Next;
    if AllServed(v, a.wanted) {
      forall r | r in v && SlotAsked(a.wanted, Slot(v[r].identity)) ensures !v[r].draining {
        var i :| 0 <= i < |a.wanted| && Slot(a.wanted[i].identity) == Slot(v[r].identity);
        var q :| q in v && Slot(v[q].identity) == Slot(a.wanted[i].identity) && !v[q].draining;
        assert q == r;
      }
    }
    CommittedIsView(s);
  }

  lemma CommittedIsView(s: State)
    requires Enabled(s, CommitAdd)
    ensures Next(s, CommitAdd).rows == View(s)
  {}

  /** Every requested identity is in service. */
  ghost predicate AllServed(rows: Rows, wanted: seq<Target>) {
    forall k :: 0 <= k < |wanted| ==> Serving(rows, Slot(wanted[k].identity))
  }

  lemma LockView(s: State, wanted: seq<Target>)
    requires Enabled(s, Lock(wanted))
    ensures var t := Next(s, Lock(wanted)); t.adder == Some(Adder(wanted, 0, false, map[])) && View(t) == s.rows
  {}

  /** After AddTargets commits, every requested identity is in service when no draining row of
      another zone held a requested slot at the lock and no removal under the lock took a requested
      row out of service that nothing reactivated. */
  lemma AddedIsServed(s: State, wanted: seq<Target>, es: seq<Event>)
    requires Inv(s) && Enabled(s, Lock(wanted))
    requires forall slot :: SlotAsked(wanted, slot) ==> !Blocked(s.rows, slot, wanted)
    requires Run(Next(s, Lock(wanted)), es) && KeepsAdding(es) && Undisturbed(Next(s, Lock(wanted)), es)
    requires Enabled(After(Next(s, Lock(wanted)), es), CommitAdd)
    ensures AllServed(Next(After(Next(s, Lock(wanted)), es), CommitAdd).rows, wanted)
  {
    var t := Next(s, Lock(wanted));
    LockView(s, wanted);
    StepInv(s, Lock(wanted));
    StartExact(s.rows, wanted);
    hide Inv, OnCourse, Next, View, Undisturbed, Sparing, AllServed, Blocked, SlotAsked;
    CourseRun(t, es);
    CommitExact(After(t, es));
  }

  /** And only then, as long as no drain pass under the lock deletes the row in the way. */
  lemma AddedExact(s: State, wanted: seq<Target>, es: seq<Event>)
    requires Inv(s) && Enabled(s, Lock(wanted))
    requires Run(Next(s, Lock(wanted)), es) && KeepsAdding(es) && Sparing(Next(s, Lock(wanted)), es)
    requires Enabled(After(Next(s, Lock(wanted)), es), CommitAdd)
    ensures AllServed(Next(After(Next(s, Lock(wanted)), es), CommitAdd).rows, wanted) <==>
      && (forall slot :: SlotAsked(wanted, slot) ==> !Blocked(s.rows, slot, wanted))
      && Undisturbed(Next(s, Lock(wanted)), es)
  {
    var t := Next(s, Lock(wanted));
    LockView(s, wanted);
    StepInv(s, Lock(wanted));
    StartExact(s.rows, wanted);
    hide Inv, OnCourse, Next, View, Undisturbed, Sparing, AllServed, Blocked, SlotAsked;
    CourseRun(t, es);
    CommitExact(After(t, es));
  }

  /** A committed addition that asked for the identity and left it out of service. */
  ghost predicate AddedButNotServed(s: State, es: seq<Event>, identity: Identity) {
    && Inv(s) && s.adder == None && Run(s, es)
    && es != [] && es[0].Lock? && Asked(es[0].wanted, identity) && es[|es| - 1] == CommitAdd
    && !Serving(After(s, es).rows, Slot(identity))
  }

  ghost predicate Reaches(s: State, es: seq<Event>, t: State) {
    Run(s, es) && After(s, es) == t
  }

  lemma {:induction false} Then(s: State, es: seq<Event>, t: State, e: Event, u: State)
    requires Reaches(s, es, t) && Enabled(t, e) && Next(t, e) == u
    ensures Reaches(s, es + [e], u)
    decreases |es|
  {
    if es == [] {
      assert ([] + [e])[1..] == [];
    } else {
      assert (es + [e])[1..] == es[1..] + [e];
      Then(Next(s, es[0]), es[1..], t, e, u);
    }
  }

  const NIC := Target(NicTarget("n"), 1)
  const SERVED: Rows := map[0 := Row(NIC.identity, 1, false, None)]
  const GONE: Rows := map[0 := Row(NIC.identity, 1, true, Some(0))]

  /** A removal that lands between the two statements for a target undoes its re-addition: the
      first saw the row still in service, the second is swallowed by the row now draining. */
  lemma RemovalBetweenStatementsWins()
    ensures exists s: State, es: seq<Event> :: AddedButNotServed(s, es, NicTarget("n"))
  {
    var s := State(SERVED, 5, 0, None);
    var s1 := State(SERVED, 5, 0, Some(Adder([NIC], 0, false, map[])));
    assert Reaches(s, [], s);
    Then(s, [], s, Lock([NIC]), s1);
    var s2 := State(SERVED, 5, 0, Some(Adder([NIC], 0, true, map[])));
    assert View(s1) == SERVED && !CanReactivate(SERVED, NIC);
    Then(s, [] + [Lock([NIC])], s1, TryReactivate, s2);
    var s3 := State(GONE, 5, 0, Some(Adder([NIC], 0, true, map[])));
    assert MarkDraining(SERVED, {0}, 0) == GONE;
    Then(s, [] + [Lock([NIC])] + [TryReactivate], s2, Remove({0}), s3);
    SwallowedInsert(s, [] + [Lock([NIC])] + [TryReactivate] + [Remove({0})], s3);
  }

  lemma SwallowedInsert(s: State, es: seq<Event>, s3: State)
    requires s == State(SERVED, 5, 0, None) && s3 == State(GONE, 5, 0, Some(Adder([NIC], 0, true, map[])))
    requires Reaches(s, es, s3) && es != [] && es[0] == Lock([NIC])
    ensures exists s: State, es: seq<Event> :: AddedButNotServed(s, es, NicTarget("n"))
  {
    var s4 := State(GONE, 5, 0, Some(Adder([NIC], 1, false, map[])));
    var s5 := State(GONE, 5, 0, None);
    Swallowed(s3, s4);
    Then(s, es, s3, TryInsert(1), s4);
    assert View(s4) == GONE;
    Then(s, es + [TryInsert(1)], s4, CommitAdd, s5);
    assert Asked([NIC], NicTarget("n")) by { assert [NIC][0].identity == NicTarget("n"); }
    assert Inv(s) by { assert |SERVED| == 1; }
    hide Inv, Run, After, Asked;
    assert AddedButNotServed(s, es + [TryInsert(1)] + [CommitAdd], NicTarget("n"));
  }

  /** The conflict with the row that drains now swallows the insert. */
  lemma Swallowed(s3: State, s4: State)
    requires s3 == State(GONE, 5, 0, Some(Adder([NIC], 0, true, map[])))
    requires s4 == State(GONE, 5, 0, Some(Adder([NIC], 1, false, map[])))
    ensures Enabled(s3, TryInsert(1)) && Next(s3, TryInsert(1)) == s4 && !Serving(GONE, Slot(NIC.identity))
  {
    assert GONE[0].draining && Slot(GONE[0].identity) == Slot(NIC.identity);
    assert Occupied(GONE, Slot(NIC.identity));
    assert View(s3) == GONE && Insert(GONE, NIC, 1) == GONE;
    assert map[] + Changed(GONE, GONE) == map[];
  }
}
