/** The order in which runner replicas claim stuck load balancers: `ORDER BY updated_at LIMIT 1
    FOR UPDATE SKIP LOCKED` over rows older than the age threshold. */
module FreeIpQueue {
  import opened Domain

  type Replica = nat

  /** `begin` is the claiming transaction's now(), which both the age test and the poison bump
      use, however long the release in between takes. */
  datatype Claimed = Claimed(row: LbId, begin: nat)

  /** `rows`: updated_at of every CREATING or DELETING row. */
  datatype Queue = Queue(rows: map<LbId, nat>, claims: map<Replica, Claimed>, now: nat, age: nat)

  datatype Event =
    | Claim(replica: Replica, row: LbId)
    | Reconciled(replica: Replica)          // released and removed
    | Poisoned(replica: Replica)            // permanent error: updated_at is bumped
    | RolledBack(replica: Replica)          // transient error, children, or a crash
    | Touched(row: LbId, at: nat)           // another writer inserts or updates the row
    | Left(row: LbId)                       // another worker finalizes or removes it
    | Tick(seconds: nat)

  predicate Stuck(q: Queue, row: LbId) {
    row in q.rows && q.rows[row] + q.age < q.now
  }

  predicate Free(q: Queue, row: LbId) {
    forall i :: i in q.claims ==> q.claims[i].row != row
  }

  predicate Claimable(q: Queue, row: LbId) {
    Stuck(q, row) && Free(q, row)
  }

  predicate Oldest(q: Queue, row: LbId) {
    && Claimable(q, row)
    && forall other :: other in q.rows && Claimable(q, other) ==> q.rows[row] <= q.rows[other]
  }

  predicate Enabled(q: Queue, e: Event) {
    match e
    case Claim(i, row) => i !in q.claims && Oldest(q, row)
    case Reconciled(i) => i in q.claims
    case Poisoned(i) => i in q.claims
    case RolledBack(i) => i in q.claims
    // a writer's own transaction is shorter than the age threshold
    case Touched(row, at) => Free(q, row) && at <= q.now <= at + q.age
    case Left(row) => Free(q, row) && row in q.rows
    case Tick(_) => true
  }

  function Next(q: Queue, e: Event): Queue
    requires Enabled(q, e)
  {
    match e
    case Claim(i, row) => q.(claims := q.claims[i := Claimed(row, q.now)])
    case Reconciled(i) => q.(rows := q.rows - {q.claims[i].row}, claims := q.claims - {i})
    case Poisoned(i) =>
      q.(rows := if q.claims[i].row in q.rows then q.rows[q.claims[i].row := q.claims[i].begin] else q.rows,
         claims := q.claims - {i})
    case RolledBack(i) => q.(claims := q.claims - {i})
    case Touched(row, at) => q.(rows := q.rows[row := at])
    case Left(row) => q.(rows := q.rows - {row})
    case Tick(d) => q.(now := q.now + d)
  }

  predicate Run(q: Queue, es: seq<Event>)
    decreases |es|
  {
    es == [] || (Enabled(q, es[0]) && Run(Next(q, es[0]), es[1..]))
  }

  function After(q: Queue, es: seq<Event>): Queue
    requires Run(q, es)
    decreases |es|
  {
    if es == [] then q else After(Next(q, es[0]), es[1..])
  }

  // ---- claims never look into the future, and hold distinct rows ----

  ghost predicate Inv(q: Queue) {
    && (forall i :: i in q.claims ==>
          && q.claims[i].row in q.rows && q.claims[i].begin <= q.now
          && q.rows[q.claims[i].row] + q.age < q.claims[i].begin)
    && (forall i, j :: i in q.claims && j in q.claims && i != j ==> q.claims[i].row != q.claims[j].row)
  }

  lemma StepInv(q: Queue, e: Event)
    requires Inv(q) && Enabled(q, e)
    ensures Inv(Next(q, e))
  {}

  /** Claiming is possible whenever some row is claimable. */
  lemma OldestExists(q: Queue, row: LbId)
    requires Claimable(q, row)
    ensures exists r :: r in q.rows && Oldest(q, r)
  {
    Minimum(q, (set r | r in q.rows && Claimable(q, r)), row);
  }

  lemma {:induction false} Minimum(q: Queue, some: set<LbId>, row: LbId)
    requires row in some && some <= q.rows.Keys
    ensures exists r :: r in some && forall other :: other in some ==> q.rows[r] <= q.rows[other]
    decreases some
  {
    var rest := some - {row};
    assert forall o :: o in some ==> o == row || o in rest;
    if rest != {} {
      var other :| other in rest;
      Minimum(q, rest, other);
      var m :| m in rest && forall o :: o in rest ==> q.rows[m] <= q.rows[o];
      var best := if q.rows[row] <= q.rows[m] then row else m;
      assert best in some && forall o :: o in some ==> q.rows[best] <= q.rows[o];
    }
  }

  // ---- no head-of-line blocking ----

  /** Rows a claim may still prefer to `row`. */
  function Ahead(q: Queue, row: LbId): set<LbId>
    requires row in q.rows
  {
    set r | r in q.rows && r != row && q.rows[r] <= q.rows[row] && Free(q, r)
  }

  /** Nobody but the runner writes `row`, and no claim ends without a result. */
  predicate Fair(e: Event, row: LbId) {
    !e.RolledBack? && !(e.Touched? && e.row == row) && !(e.Left? && e.row == row)
  }

  /** While `row` waits, every other claim shortens the line and nothing lengthens it. */
  lemma LineShortens(q: Queue, e: Event, row: LbId)
    requires Inv(q) && Enabled(q, e) && Fair(e, row) && Claimable(q, row) && !(e.Claim? && e.row == row)
    requires forall i :: i in q.claims ==> q.rows[row] < q.claims[i].begin
    ensures var t := Next(q, e);
      && Claimable(t, row) && t.rows[row] == q.rows[row]
      && (forall i :: i in t.claims ==> t.rows[row] < t.claims[i].begin)
      && Ahead(t, row) <= Ahead(q, row)
      && (e.Claim? ==> e.row in Ahead(q, row) && e.row !in Ahead(t, row))
  {
    var t := Next(q, e);
    if e.Claim? {
      assert t.claims[e.replica].row == e.row;
      assert !Free(t, e.row);
    }
    forall r | r in Ahead(t, row) ensures r in Ahead(q, row) {
      if e.Reconciled? || e.Poisoned? {
        assert r != q.claims[e.replica].row;
        assert Free(q, r) by {
          forall i | i in q.claims ensures q.claims[i].row != r {
            if i != e.replica { assert i in t.claims; }
          }
        }
      } else if e.Claim? {
        assert forall i :: i in q.claims ==> i in t.claims && t.claims[i] == q.claims[i];
      }
    }
  }

  function Claims(es: seq<Event>): nat {
    if es == [] then 0 else (if es[0].Claim? then 1 else 0) + Claims(es[1..])
  }

  predicate NeverClaimed(es: seq<Event>, row: LbId) {
    forall i :: 0 <= i < |es| ==> !(es[i].Claim? && es[i].row == row)
  }

  /** No release under way has taken longer than the age threshold. */
  predicate Prompt(q: Queue) {
    forall i :: i in q.claims ==> q.now <= q.claims[i].begin + q.age
  }

  /** A claimable row with k rows ahead is claimed after at most k other claims, whatever the
      other replicas and writers do, as long as no claim ends without a result. */
  lemma NoHeadOfLineBlocking(q: Queue, es: seq<Event>, row: LbId)
    requires Inv(q) && Run(q, es) && Claimable(q, row) && Prompt(q)
    requires forall i :: 0 <= i < |es| ==> Fair(es[i], row)
    requires NeverClaimed(es, row)
    ensures Claims(es) <= |Ahead(q, row)|
  {
    ClaimsBounded(q, es, row);
  }

  lemma {:induction false} ClaimsBounded(q: Queue, es: seq<Event>, row: LbId)
    requires Inv(q) && Run(q, es) && Claimable(q, row)
    requires forall i :: i in q.claims ==> q.rows[row] < q.claims[i].begin
    requires forall i :: 0 <= i < |es| ==> Fair(es[i], row)
    requires NeverClaimed(es, row)
    ensures Claims(es) <= |Ahead(q, row)|
    decreases |es|
  {
    if es != [] {
      var t := Next(q, es[0]);
      assert Fair(es[0], row) && !(es[0].Claim? && es[0].row == row);
      StepInv(q, es[0]);
      LineShortens(q, es[0], row);
      forall i | 0 <= i < |es[1..]|
        ensures Fair(es[1..][i], row) && !(es[1..][i].Claim? && es[1..][i].row == row)
      {
        assert es[1..][i] == es[i + 1];
      }
      ClaimsBounded(t, es[1..], row);
      if es[0].Claim? {
        Smaller(Ahead(t, row), Ahead(q, row), es[0].row);
      } else {
        Subset(Ahead(t, row), Ahead(q, row));
      }
    }
  }

  lemma Subset(a: set<LbId>, b: set<LbId>)
    requires a <= b
    ensures |a| <= |b|
  {
    assert b == a + (b - a);
  }

  lemma Smaller(a: set<LbId>, b: set<LbId>, x: LbId)
    requires a <= b && x in b && x !in a
    ensures |a| < |b|
  {
    Subset(a, b - {x});
  }

  /** A poisoned row goes behind every stuck row, itself out of reach, exactly when its release
      took no longer than the age threshold. */
  lemma PoisonGoesLast(q: Queue, i: Replica)
    requires Inv(q) && i in q.claims
    ensures var t := Next(q, Poisoned(i));
      var row := q.claims[i].row;
      && (q.now <= q.claims[i].begin + q.age <==> !Stuck(t, row))
      && (!Stuck(t, row) ==> forall r :: r in t.rows && Stuck(t, r) ==> t.rows[r] < t.rows[row])
  {}

  // ---- the same row again ----

  /** `row` was written at `begin` or later, or is held by a claim that began then. */
  ghost predicate BackedOff(q: Queue, row: LbId, begin: nat) {
    begin <= q.now && (row in q.rows && q.rows[row] < begin ==> HeldSince(q, row, begin))
  }

  ghost predicate HeldSince(q: Queue, row: LbId, begin: nat) {
    exists i :: i in q.claims && q.claims[i].row == row && q.claims[i].begin >= begin
  }

  predicate OnlyRunners(e: Event, row: LbId) {
    !e.RolledBack? && !(e.Touched? && e.row == row)
  }

  lemma StaysBackedOff(q: Queue, e: Event, row: LbId, begin: nat)
    requires Inv(q) && Enabled(q, e) && OnlyRunners(e, row) && BackedOff(q, row, begin)
    ensures BackedOff(Next(q, e), row, begin)
  {
    var t := Next(q, e);
    if row in t.rows && t.rows[row] < begin && row in q.rows && q.rows[row] < begin {
      var i :| i in q.claims && q.claims[i].row == row && q.claims[i].begin >= begin;
      if (e.Poisoned? || e.Reconciled?) && e.replica != i {
        assert q.claims[e.replica].row != row;
      }
      assert i in t.claims && t.claims[i] == q.claims[i];
    }
  }

  lemma {:induction false} BackedOffRun(q: Queue, es: seq<Event>, row: LbId, begin: nat)
    requires Inv(q) && Run(q, es) && BackedOff(q, row, begin)
    requires forall i :: 0 <= i < |es| ==> OnlyRunners(es[i], row)
    ensures Inv(After(q, es)) && BackedOff(After(q, es), row, begin)
    decreases |es|
  {
    hide Enabled, Next, BackedOff, Inv;
    if es != [] {
      assert OnlyRunners(es[0], row);
      StepInv(q, es[0]);
      StaysBackedOff(q, es[0], row, begin);
      forall i | 0 <= i < |es[1..]| ensures OnlyRunners(es[1..][i], row) { assert es[1..][i] == es[i + 1]; }
      BackedOffRun(Next(q, es[0]), es[1..], row, begin);
    }
  }

  /** Two claims of one row begin more than the age threshold apart, over all replicas, when
      claims end with a result and no other writer touches the row in between. So a tick whose
      claims all begin within the threshold never claims a row twice. */
  lemma ClaimsAreSpaced(q: Queue, i: Replica, row: LbId, es: seq<Event>, j: Replica)
    requires Inv(q) && Enabled(q, Claim(i, row))
    requires Run(Next(q, Claim(i, row)), es) && (forall k :: 0 <= k < |es| ==> OnlyRunners(es[k], row))
    requires Enabled(After(Next(q, Claim(i, row)), es), Claim(j, row))
    ensures q.now + q.age < After(Next(q, Claim(i, row)), es).now
  {
    var t := Next(q, Claim(i, row));
    StepInv(q, Claim(i, row));
    assert t.claims[i] == Claimed(row, q.now);
    assert BackedOff(t, row, q.now);
    BackedOffRun(t, es, row, q.now);
    AgeFixed(t, es);
    var u := After(t, es);
    assert Free(u, row);
  }

  lemma {:induction false} AgeFixed(q: Queue, es: seq<Event>)
    requires Run(q, es)
    ensures After(q, es).age == q.age
    decreases |es|
  {
    if es != [] { AgeFixed(Next(q, es[0]), es[1..]); }
  }

  /** Replica i claimed the row at `begin`: it holds it still, or the row was written since, and
      nobody else has it. */
  ghost predicate Settled(q: Queue, row: LbId, i: Replica, begin: nat) {
    && begin <= q.now
    && (forall j :: j in q.claims && q.claims[j].row == row ==> j == i && q.claims[j].begin >= begin)
    && (row in q.rows && q.rows[row] < begin ==> i in q.claims && q.claims[i].row == row)
  }

  lemma SettledIsNotClaimable(q: Queue, row: LbId, i: Replica, begin: nat)
    requires Settled(q, row, i, begin) && q.now <= begin + q.age
    ensures !Claimable(q, row)
  {
    if Stuck(q, row) { assert q.claims[i].row == row; }
  }

  /** An old value of the row was there before: a poisoned claim of the row is i's, and writes
      its own beginning. */
  lemma OldValue(q: Queue, e: Event, row: LbId, i: Replica, begin: nat)
    requires Inv(q) && Enabled(q, e) && Settled(q, row, i, begin) && !(e.Touched? && e.row == row)
    requires row in Next(q, e).rows && Next(q, e).rows[row] < begin
    ensures row in q.rows && q.rows[row] < begin
  {}

  lemma StillHeld(q: Queue, e: Event, row: LbId, i: Replica, begin: nat)
    requires Inv(q) && Enabled(q, e) && e != RolledBack(i) && i in q.claims && q.claims[i].row == row
    requires q.claims[i].begin >= begin && row in Next(q, e).rows && Next(q, e).rows[row] < begin
    ensures i in Next(q, e).claims && Next(q, e).claims[i].row == row
  {}

  lemma NobodyElse(q: Queue, e: Event, row: LbId, j: Replica)
    requires Enabled(q, e) && !Claimable(q, row) && j in Next(q, e).claims && Next(q, e).claims[j].row == row
    ensures j in q.claims && q.claims[j] == Next(q, e).claims[j]
  {}

  lemma StaysSettled(q: Queue, e: Event, row: LbId, i: Replica, begin: nat)
    requires Inv(q) && Enabled(q, e) && Settled(q, row, i, begin) && q.now <= begin + q.age
    requires e != RolledBack(i) && !(e.Touched? && e.row == row)
    ensures Settled(Next(q, e), row, i, begin) && !(e.Claim? && e.row == row)
  {
    SettledIsNotClaimable(q, row, i, begin);
    if e.Claim? { OldestIsClaimable(q, e); }
    TimeOf(q, e);
    hide Next, Inv, Claimable, Oldest, Enabled;
    var t := Next(q, e);
    forall j | j in t.claims && t.claims[j].row == row ensures j == i && t.claims[j].begin >= begin {
      NobodyElse(q, e, row, j);
    }
    if row in t.rows && t.rows[row] < begin {
      OldValue(q, e, row, i, begin);
      StillHeld(q, e, row, i, begin);
    }
  }

  lemma OldestIsClaimable(q: Queue, e: Event)
    requires Enabled(q, e) && e.Claim?
    ensures Claimable(q, e.row)
  {}

  lemma TimeOf(q: Queue, e: Event)
    requires Enabled(q, e)
    ensures q.now <= Next(q, e).now
  {}

  lemma {:induction false} TimePasses(q: Queue, es: seq<Event>)
    requires Run(q, es)
    ensures q.now <= After(q, es).now
    decreases |es|
  {
    if es != [] { TimePasses(Next(q, es[0]), es[1..]); }
  }

  lemma {:induction false} SettledRun(q: Queue, es: seq<Event>, row: LbId, i: Replica, begin: nat)
    requires Inv(q) && Run(q, es) && Settled(q, row, i, begin) && After(q, es).now <= begin + q.age
    requires forall k :: 0 <= k < |es| ==> es[k] != RolledBack(i) && !(es[k].Touched? && es[k].row == row)
    ensures NeverClaimed(es, row)
    decreases |es|
  {
    hide Enabled, Next, Settled, Inv;
    if es != [] {
      TimePasses(q, es);
      assert es[0] != RolledBack(i) && !(es[0].Touched? && es[0].row == row);
      StepInv(q, es[0]);
      StaysSettled(q, es[0], row, i, begin);
      AgeOf(q, es[0]);
      forall k | 0 <= k < |es[1..]|
        ensures es[1..][k] != RolledBack(i) && !(es[1..][k].Touched? && es[1..][k].row == row)
      {
        assert es[1..][k] == es[k + 1];
      }
      SettledRun(Next(q, es[0]), es[1..], row, i, begin);
      forall k | 0 <= k < |es| ensures !(es[k].Claim? && es[k].row == row) {
        assert k > 0 ==> es[k] == es[1..][k - 1];
      }
    }
  }

  lemma AgeOf(q: Queue, e: Event)
    requires Enabled(q, e)
    ensures Next(q, e).age == q.age
  {}

  /** Within the age threshold of a claim no replica claims the row again, unless the claim was
      rolled back or another writer wrote the row. */
  lemma NotClaimedAgain(q: Queue, i: Replica, row: LbId, es: seq<Event>)
    requires Inv(q) && Enabled(q, Claim(i, row)) && Run(Next(q, Claim(i, row)), es)
    requires forall k :: 0 <= k < |es| ==> es[k] != RolledBack(i) && !(es[k].Touched? && es[k].row == row)
    requires After(Next(q, Claim(i, row)), es).now <= q.now + q.age
    ensures NeverClaimed(es, row)
  {
    var t := Next(q, Claim(i, row));
    StepInv(q, Claim(i, row));
    assert t.claims[i] == Claimed(row, q.now);
    SettledRun(t, es, row, i, q.now);
  }

  /** The spacing is what keeps a tick from repeating itself: when a release takes longer than
      the threshold, the row it poisons is claimable again at once. */
  lemma LongReleaseReclaims(q: Queue, i: Replica, row: LbId, seconds: nat)
    requires Inv(q) && Enabled(q, Claim(i, row)) && q.age < seconds
    requires q.rows.Keys == {row}
    ensures Run(q, [Claim(i, row), Tick(seconds), Poisoned(i), Claim(i, row)])
  {
    var s1 := Next(q, Claim(i, row));
    var s2 := Next(s1, Tick(seconds));
    assert s2.claims[i] == Claimed(row, q.now);
    var s3 := Next(s2, Poisoned(i));
    assert forall j :: j !in q.claims;
    assert Enabled(s3, Claim(i, row));
    var es := [Claim(i, row), Tick(seconds), Poisoned(i), Claim(i, row)];
    assert es[1..] == [Tick(seconds), Poisoned(i), Claim(i, row)];
    assert es[1..][1..] == [Poisoned(i), Claim(i, row)];
    assert es[1..][1..][1..] == [Claim(i, row)];
    assert es[1..][1..][1..][1..] == [];
    assert Run(s3, [Claim(i, row)]);
    assert Run(s2, [Poisoned(i), Claim(i, row)]);
    assert Run(s1, es[1..]);
  }
}
