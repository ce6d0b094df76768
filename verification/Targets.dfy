/** Rows of one target group: adding with reactivation, two-phase drain, and the identity that
    the unique indexes see. */
module Targets {
  import opened Domain

  type RowId = nat
  type Text = string

  const MAX_TARGETS_PER_GROUP := 100

  /** Exactly one of the four forms, by the table's CHECK. */
  datatype Identity =
    | InstanceTarget(instance: Text)
    | NicTarget(nic: Text)
    | IpRefTarget(subnet: Text, ip: Text)
    | ExternalTarget(address: Text, zone: Option<Text>)

  datatype Target = Target(identity: Identity, weight: int)

  datatype Row = Row(identity: Identity, weight: int, draining: bool, drainStarted: Option<nat>)

  type Rows = map<RowId, Row>

  /** The key of the partial unique indexes: the external one leaves the zone out. */
  function Slot(identity: Identity): Identity {
    if identity.ExternalTarget? then identity.(zone := None) else identity
  }

  predicate Occupied(rows: Rows, slot: Identity) {
    exists r :: r in rows && Slot(rows[r].identity) == slot
  }

  /** Some row in service holds the slot. */
  predicate Serving(rows: Rows, slot: Identity) {
    exists r :: r in rows && Slot(rows[r].identity) == slot && !rows[r].draining
  }

  ghost predicate UniqueSlots(rows: Rows) {
    forall r, q :: r in rows && q in rows && Slot(rows[r].identity) == Slot(rows[q].identity) ==> r == q
  }

  ghost predicate DrainConsistent(rows: Rows) {
    forall r :: r in rows ==> (rows[r].draining <==> rows[r].drainStarted.Some?)
  }

  ghost predicate Valid(rows: Rows) {
    UniqueSlots(rows) && DrainConsistent(rows) && |rows| <= MAX_TARGETS_PER_GROUP
  }

  // ---- the statements ----

  /** `WHERE status = 'DRAINING' AND` all six identity columns match. */
  predicate Matches(row: Row, identity: Identity) {
    row.draining && row.identity == identity
  }

  predicate CanReactivate(rows: Rows, t: Target) {
    exists r :: r in rows && Matches(rows[r], t.identity)
  }

  function Reactivate(rows: Rows, t: Target): Rows {
    map r | r in rows ::
      if Matches(rows[r], t.identity) then Row(t.identity, t.weight, false, None) else rows[r]
  }

  /** `INSERT ... ON CONFLICT DO NOTHING`. */
  function Insert(rows: Rows, t: Target, id: RowId): Rows {
    if Occupied(rows, Slot(t.identity)) then rows else rows[id := Row(t.identity, t.weight, false, None)]
  }

  function AddOne(rows: Rows, t: Target, id: RowId): Rows {
    if CanReactivate(rows, t) then Reactivate(rows, t) else Insert(rows, t, id)
  }

  predicate Counts(rows: Rows, t: Target) {
    CanReactivate(rows, t) || !Occupied(rows, Slot(t.identity))
  }

  function AddAll(rows: Rows, ts: seq<Target>, ids: seq<RowId>): Rows
    requires |ids| == |ts|
  {
    if ts == [] then rows else AddOne(AddAll(rows, ts[..|ts| - 1], ids[..|ts| - 1]), ts[|ts| - 1], ids[|ts| - 1])
  }

  function InsertedCount(rows: Rows, ts: seq<Target>, ids: seq<RowId>): nat
    requires |ids| == |ts|
  {
    if ts == [] then 0
    else
      var n := |ts| - 1;
      InsertedCount(rows, ts[..n], ids[..n]) + (if Counts(AddAll(rows, ts[..n], ids[..n]), ts[n]) then 1 else 0)
  }

  function MarkDraining(rows: Rows, named: set<RowId>, now: nat): Rows {
    map r | r in rows ::
      if r in named && !rows[r].draining then rows[r].(draining := true, drainStarted := Some(now)) else rows[r]
  }

  predicate Expired(row: Row, delay: nat, now: nat) {
    row.draining && row.drainStarted.Some? && row.drainStarted.value + delay < now
  }

  function Drained(rows: Rows, delay: nat, now: nat): Rows {
    map r | r in rows && !Expired(rows[r], delay, now) :: rows[r]
  }

  /** Newly generated row ids. */
  predicate FreshIds(rows: Rows, ids: seq<RowId>) {
    && (forall i :: 0 <= i < |ids| ==> ids[i] !in rows)
    && (forall i, j :: 0 <= i < j < |ids| ==> ids[i] != ids[j])
  }

  // ---- one target ----

  lemma ReactivateSame(rows: Rows, t: Target)
    ensures Reactivate(rows, t).Keys == rows.Keys
    ensures forall r :: r in rows ==> Reactivate(rows, t)[r].identity == rows[r].identity
  {}

  lemma AddOneKeeps(rows: Rows, t: Target, id: RowId)
    requires UniqueSlots(rows) && DrainConsistent(rows) && id !in rows
    ensures var after := AddOne(rows, t, id);
      && UniqueSlots(after) && DrainConsistent(after)
      && rows.Keys <= after.Keys <= rows.Keys + {id}
      && Occupied(after, Slot(t.identity))
      && (forall r :: r in rows ==> after[r].identity == rows[r].identity)
  {
    var after := AddOne(rows, t, id);
    ReactivateSame(rows, t);
    if CanReactivate(rows, t) {
      var r :| r in rows && Matches(rows[r], t.identity);
      assert r in after && Slot(after[r].identity) == Slot(t.identity);
    } else if !Occupied(rows, Slot(t.identity)) {
      assert after[id].identity == t.identity;
    }
  }

  /** Which slots one addition puts in service. */
  lemma AddOneServes(rows: Rows, t: Target, id: RowId, slot: Identity)
    requires UniqueSlots(rows) && id !in rows
    ensures Serving(AddOne(rows, t, id), slot) <==>
      || Serving(rows, slot)
      || (slot == Slot(t.identity) && (CanReactivate(rows, t) || !Occupied(rows, slot)))
  {
    var after := AddOne(rows, t, id);
    ReactivateSame(rows, t);
    if Serving(rows, slot) {
      var r :| r in rows && Slot(rows[r].identity) == slot && !rows[r].draining;
      assert r in after && after[r] == rows[r];
    }
    if CanReactivate(rows, t) && slot == Slot(t.identity) {
      var r :| r in rows && Matches(rows[r], t.identity);
      assert !after[r].draining && after[r].identity == t.identity;
    }
    if !CanReactivate(rows, t) && !Occupied(rows, Slot(t.identity)) {
      assert after[id] == Row(t.identity, t.weight, false, None);
    }
    if Serving(after, slot) && !Serving(rows, slot) {
      var r :| r in after && Slot(after[r].identity) == slot && !after[r].draining;
      assert r in rows ==> rows[r].draining && after[r] != rows[r];
    }
  }

  // ---- the whole call ----

  /** The draining row that holds the slot, if any, has an identity nobody asks for. */
  ghost predicate Blocked(rows: Rows, slot: Identity, ts: seq<Target>) {
    exists r :: r in rows && rows[r].draining && Slot(rows[r].identity) == slot && !Asked(ts, rows[r].identity)
  }

  predicate Asked(ts: seq<Target>, identity: Identity) {
    exists i :: 0 <= i < |ts| && ts[i].identity == identity
  }

  predicate SlotAsked(ts: seq<Target>, slot: Identity) {
    exists i :: 0 <= i < |ts| && Slot(ts[i].identity) == slot
  }

  lemma AskedLast(ts: seq<Target>, identity: Identity)
    requires ts != []
    ensures Asked(ts, identity) <==> Asked(ts[..|ts| - 1], identity) || ts[|ts| - 1].identity == identity
  {}

  lemma SlotAskedLast(ts: seq<Target>, slot: Identity)
    requires ts != []
    ensures SlotAsked(ts, slot) <==> SlotAsked(ts[..|ts| - 1], slot) || Slot(ts[|ts| - 1].identity) == slot
  {}

  lemma KeysGrow(a: Rows, b: Rows, id: RowId)
    requires b.Keys <= a.Keys + {id}
    ensures |b| <= |a| + 1
  {
    SubsetSize(b.Keys, a.Keys + {id});
    assert |a.Keys + {id}| <= |a.Keys| + 1;
    assert |b| == |b.Keys| && |a| == |a.Keys|;
  }

  lemma SubsetSize(a: set<RowId>, b: set<RowId>)
    requires a <= b
    ensures |a| <= |b|
  {
    assert b == a + (b - a);
  }

  /** Rows keep their identity; new ones have the given ids. */
  ghost predicate Grown(rows: Rows, after: Rows, ids: seq<RowId>) {
    && (forall r :: r in rows ==> r in after && after[r].identity == rows[r].identity)
    && (forall r :: r in after ==> r in rows || r in ids)
    && |after| <= |rows| + |ids|
  }

  lemma {:induction false} AddAllKeeps(rows: Rows, ts: seq<Target>, ids: seq<RowId>)
    requires UniqueSlots(rows) && DrainConsistent(rows) && |ids| == |ts| && FreshIds(rows, ids)
    ensures var after := AddAll(rows, ts, ids);
      UniqueSlots(after) && DrainConsistent(after) && Grown(rows, after, ids)
  {
    if ts != [] {
      var n := |ts| - 1;
      var before := AddAll(rows, ts[..n], ids[..n]);
      AddAllKeeps(rows, ts[..n], ids[..n]);
      NextIdFresh(rows, before, ids);
      AddOneKeeps(before, ts[n], ids[n]);
      KeysGrow(before, AddAll(rows, ts, ids), ids[n]);
    }
  }

  lemma NextIdFresh(rows: Rows, before: Rows, ids: seq<RowId>)
    requires ids != [] && FreshIds(rows, ids) && Grown(rows, before, ids[..|ids| - 1])
    ensures ids[|ids| - 1] !in before
  {}

  /** One more addition, from a table whose rows outside the served slots are untouched. */
  lemma {:induction false} UnservedUntouched(rows: Rows, ts: seq<Target>, ids: seq<RowId>, r: RowId)
    requires UniqueSlots(rows) && DrainConsistent(rows) && |ids| == |ts| && FreshIds(rows, ids)
    requires r in AddAll(rows, ts, ids) && AddAll(rows, ts, ids)[r].draining
    ensures r in rows && AddAll(rows, ts, ids)[r] == rows[r]
  {
    if ts != [] {
      var n := |ts| - 1;
      var before := AddAll(rows, ts[..n], ids[..n]);
      assert r in before && before[r] == AddOne(before, ts[n], ids[n])[r];
      UnservedUntouched(rows, ts[..n], ids[..n], r);
    }
  }

  /** Rows of the table are still there, and those that drain are as they were. */
  ghost predicate DrainingUntouched(rows: Rows, after: Rows) {
    && (forall r :: r in rows ==> r in after && after[r].identity == rows[r].identity)
    && (forall r :: r in after && after[r].draining ==> r in rows && after[r] == rows[r])
  }

  lemma AddAllLeavesDraining(rows: Rows, ts: seq<Target>, ids: seq<RowId>)
    requires UniqueSlots(rows) && DrainConsistent(rows) && |ids| == |ts| && FreshIds(rows, ids)
    ensures UniqueSlots(AddAll(rows, ts, ids)) && DrainingUntouched(rows, AddAll(rows, ts, ids))
  {
    AddAllKeeps(rows, ts, ids);
    forall r | r in AddAll(rows, ts, ids) && AddAll(rows, ts, ids)[r].draining
      ensures r in rows && AddAll(rows, ts, ids)[r] == rows[r]
    {
      UnservedUntouched(rows, ts, ids, r);
    }
  }

  /** Exactly when a slot is in service after the call: it was before, or a requested target has
      it and no draining row of another identity (the same address in another zone) blocks it. */
  lemma {:induction false} AddAllServes(rows: Rows, ts: seq<Target>, ids: seq<RowId>, slot: Identity)
    requires UniqueSlots(rows) && DrainConsistent(rows) && |ids| == |ts| && FreshIds(rows, ids)
    ensures Serving(AddAll(rows, ts, ids), slot) <==>
      Serving(rows, slot) || (SlotAsked(ts, slot) && !Blocked(rows, slot, ts))
  {
    if ts != [] {
      var n := |ts| - 1;
      var before := AddAll(rows, ts[..n], ids[..n]);
      AddAllKeeps(rows, ts[..n], ids[..n]);
      AddAllServes(rows, ts[..n], ids[..n], slot);
      AddAllLeavesDraining(rows, ts[..n], ids[..n]);
      NextIdFresh(rows, before, ids);
      NextServes(rows, before, ts, ids[n], slot);
    }
  }

  /** One more target, on a table that has the property for those before it. */
  lemma NextServes(rows: Rows, before: Rows, ts: seq<Target>, id: RowId, slot: Identity)
    requires UniqueSlots(rows) && UniqueSlots(before) && DrainingUntouched(rows, before) && ts != [] && id !in before
    requires var some := ts[..|ts| - 1];
      Serving(before, slot) <==> Serving(rows, slot) || (SlotAsked(some, slot) && !Blocked(rows, slot, some))
    ensures Serving(AddOne(before, ts[|ts| - 1], id), slot) <==>
      Serving(rows, slot) || (SlotAsked(ts, slot) && !Blocked(rows, slot, ts))
  {
    hide AddOne, CanReactivate, Occupied, UniqueSlots, DrainingUntouched, Serving, SlotAsked, Asked;
    var t := ts[|ts| - 1];
    AddOneServes(before, t, id, slot);
    SlotAskedLast(ts, slot);
    BlockedLast(rows, ts, slot);
    if !Serving(before, slot) && slot == Slot(t.identity) {
      LastServes(rows, before, ts, slot);
    }
  }

  /** Asking for more never blocks, and asking for another slot changes nothing. */
  lemma BlockedLast(rows: Rows, ts: seq<Target>, slot: Identity)
    requires ts != []
    ensures Blocked(rows, slot, ts) ==> Blocked(rows, slot, ts[..|ts| - 1])
    ensures slot != Slot(ts[|ts| - 1].identity) ==> (Blocked(rows, slot, ts) <==> Blocked(rows, slot, ts[..|ts| - 1]))
  {
    forall identity
      ensures Asked(ts, identity) <==> Asked(ts[..|ts| - 1], identity) || ts[|ts| - 1].identity == identity
    {
      AskedLast(ts, identity);
    }
  }

  /** The last target decides a slot that is not in service yet. */
  lemma LastServes(rows: Rows, before: Rows, ts: seq<Target>, slot: Identity)
    requires UniqueSlots(rows) && UniqueSlots(before) && DrainingUntouched(rows, before) && ts != []
    requires !Serving(before, slot) && slot == Slot(ts[|ts| - 1].identity)
    requires !(SlotAsked(ts[..|ts| - 1], slot) && !Blocked(rows, slot, ts[..|ts| - 1]))
    ensures CanReactivate(before, ts[|ts| - 1]) || !Occupied(before, slot) <==> !Blocked(rows, slot, ts)
  {
    if Occupied(before, slot) {
      var r :| r in before && Slot(before[r].identity) == slot;
      assert before[r].draining;
      LastMatches(rows, before, ts, slot, r);
    } else {
      assert forall r :: r in rows ==> r in before && Slot(before[r].identity) == Slot(rows[r].identity);
    }
  }

  /** A draining row holds the slot: the last target reactivates it exactly when it is the row's. */
  lemma LastMatches(rows: Rows, before: Rows, ts: seq<Target>, slot: Identity, r: RowId)
    requires UniqueSlots(rows) && UniqueSlots(before) && ts != [] && slot == Slot(ts[|ts| - 1].identity)
    requires r in rows && r in before && before[r] == rows[r] && rows[r].draining && Slot(rows[r].identity) == slot
    requires !(SlotAsked(ts[..|ts| - 1], slot) && !Blocked(rows, slot, ts[..|ts| - 1]))
    ensures CanReactivate(before, ts[|ts| - 1]) <==> !Blocked(rows, slot, ts)
  {
    var t := ts[|ts| - 1];
    AskedLast(ts, rows[r].identity);
    NobodyAsks(rows, ts[..|ts| - 1], slot, r);
    if t.identity == rows[r].identity {
      assert Matches(before[r], t.identity);
    }
  }

  /** The draining row that holds an unserved slot is asked for by none of the targets so far. */
  lemma NobodyAsks(rows: Rows, ts: seq<Target>, slot: Identity, r: RowId)
    requires UniqueSlots(rows) && r in rows && rows[r].draining && Slot(rows[r].identity) == slot
    requires !(SlotAsked(ts, slot) && !Blocked(rows, slot, ts))
    ensures !Asked(ts, rows[r].identity)
  {
    assert forall i :: 0 <= i < |ts| && Slot(ts[i].identity) == slot ==> SlotAsked(ts, slot);
  }

  // ---- what the call writes ----

  /** The rows that are new or changed. */
  function Written(rows: Rows, after: Rows): set<RowId> {
    set r | r in after && (r !in rows || after[r] != rows[r])
  }

  /** Target k is the first one requested with its identity. */
  predicate FirstAsked(ts: seq<Target>, k: nat) {
    k < |ts| && forall j :: 0 <= j < k ==> ts[j].identity != ts[k].identity
  }

  /** A written row is new or was draining, and is in service as the first target requested with its
      identity says. */
  ghost predicate WrittenAsAsked(rows: Rows, after: Rows, ts: seq<Target>, r: RowId)
    requires r in after
  {
    && (r in rows ==> rows[r].draining && rows[r].identity == after[r].identity)
    && exists k: nat :: FirstAsked(ts, k) && after[r] == Row(ts[k].identity, ts[k].weight, false, None)
  }

  /** One target writes one row, or none: its draining row, or a new one when its slot is free. */
  lemma AddOneWrites(rows: Rows, t: Target, id: RowId) returns (r: RowId)
    requires UniqueSlots(rows) && id !in rows
    ensures Counts(rows, t) ==>
      && AddOne(rows, t, id) == rows[r := Row(t.identity, t.weight, false, None)]
      && (if r in rows then Matches(rows[r], t.identity) else r == id && !Occupied(rows, Slot(t.identity)))
    ensures !Counts(rows, t) ==> AddOne(rows, t, id) == rows
  {
    r := id;
    if CanReactivate(rows, t) {
      r :| r in rows && Matches(rows[r], t.identity);
      var after := rows[r := Row(t.identity, t.weight, false, None)];
      forall q | q in rows ensures Reactivate(rows, t)[q] == after[q] {
        assert Matches(rows[q], t.identity) ==> Slot(rows[q].identity) == Slot(rows[r].identity);
      }
      assert Reactivate(rows, t) == after;
    }
  }

  /** The slot is taken, and no row of the identity drains. */
  ghost predicate Settled(rows: Rows, identity: Identity) {
    Occupied(rows, Slot(identity)) && forall r :: r in rows ==> !Matches(rows[r], identity)
  }

  lemma SettledStays(rows: Rows, t: Target, id: RowId, identity: Identity)
    requires UniqueSlots(rows) && id !in rows
    ensures Settled(rows, identity) ==> Settled(AddOne(rows, t, id), identity)
    ensures Settled(AddOne(rows, t, id), t.identity)
  {
    var r := AddOneWrites(rows, t, id);
    hide AddOne, CanReactivate, UniqueSlots;
    var after := AddOne(rows, t, id);
    if Counts(rows, t) {
      assert after[r].identity == t.identity;
    }
    if Settled(rows, identity) {
      var q :| q in rows && Slot(rows[q].identity) == Slot(identity);
      assert q in after && after[q].identity == rows[q].identity;
    }
  }

  lemma AddAllStep(rows: Rows, ts: seq<Target>, ids: seq<RowId>)
    requires UniqueSlots(rows) && DrainConsistent(rows) && |ids| == |ts| && FreshIds(rows, ids) && ts != []
    ensures var n := |ts| - 1; var before := AddAll(rows, ts[..n], ids[..n]);
      && FreshIds(rows, ids[..n]) && UniqueSlots(before) && DrainConsistent(before) && ids[n] !in before
      && AddAll(rows, ts, ids) == AddOne(before, ts[n], ids[n])
  {
    hide AddOne, UniqueSlots, DrainConsistent;
    var n := |ts| - 1;
    AddAllKeeps(rows, ts[..n], ids[..n]);
    NextIdFresh(rows, AddAll(rows, ts[..n], ids[..n]), ids);
  }

  /** Once an identity was requested, it is settled. */
  lemma {:induction false} AskedIsSettled(rows: Rows, ts: seq<Target>, ids: seq<RowId>, k: nat)
    requires UniqueSlots(rows) && DrainConsistent(rows) && |ids| == |ts| && FreshIds(rows, ids) && k < |ts|
    ensures Settled(AddAll(rows, ts, ids), ts[k].identity)
  {
    hide AddOne, AddAll, Settled, UniqueSlots, DrainConsistent, FreshIds;
    var n := |ts| - 1;
    AddAllStep(rows, ts, ids);
    SettledStays(AddAll(rows, ts[..n], ids[..n]), ts[n], ids[n], ts[k].identity);
    if k < n { AskedIsSettled(rows, ts[..n], ids[..n], k); }
  }

  /** Every written row is as the first target with its identity asks, every other row is untouched,
      and the call's result counts the written rows. */
  lemma {:induction false} AddAllWrites(rows: Rows, ts: seq<Target>, ids: seq<RowId>)
    requires UniqueSlots(rows) && DrainConsistent(rows) && |ids| == |ts| && FreshIds(rows, ids)
    ensures var after := AddAll(rows, ts, ids);
      && rows.Keys <= after.Keys
      && (forall r :: r in Written(rows, after) ==> WrittenAsAsked(rows, after, ts, r))
      && InsertedCount(rows, ts, ids) == |Written(rows, after)|
  {
    AddAllKeeps(rows, ts, ids);
    if ts == [] {
      assert Written(rows, rows) == {};
    } else {
      var n := |ts| - 1;
      var before := AddAll(rows, ts[..n], ids[..n]);
      AddAllKeeps(rows, ts[..n], ids[..n]);
      AddAllWrites(rows, ts[..n], ids[..n]);
      NextIdFresh(rows, before, ids);
      var r := AddOneWrites(before, ts[n], ids[n]);
      if Counts(before, ts[n]) {
        FirstOfItsIdentity(rows, ts, ids);
        AddAllLeavesDraining(rows, ts[..n], ids[..n]);
        WrittenNext(rows, before, ts, ids[n], r);
      } else {
        WrittenEarlier(rows, before, ts);
      }
    }
  }

  /** A target that writes is the first with its identity. */
  lemma FirstOfItsIdentity(rows: Rows, ts: seq<Target>, ids: seq<RowId>)
    requires UniqueSlots(rows) && DrainConsistent(rows) && |ids| == |ts| && FreshIds(rows, ids) && ts != []
    requires Counts(AddAll(rows, ts[..|ts| - 1], ids[..|ts| - 1]), ts[|ts| - 1])
    ensures FirstAsked(ts, |ts| - 1)
  {
    var n := |ts| - 1;
    forall j | 0 <= j < n ensures ts[j].identity != ts[n].identity {
      AskedIsSettled(rows, ts[..n], ids[..n], j);
    }
  }

  lemma WrittenEarlier(rows: Rows, before: Rows, ts: seq<Target>)
    requires ts != [] && forall r :: r in Written(rows, before) ==> WrittenAsAsked(rows, before, ts[..|ts| - 1], r)
    ensures forall r :: r in Written(rows, before) ==> WrittenAsAsked(rows, before, ts, r)
  {
    var some := ts[..|ts| - 1];
    forall r | r in Written(rows, before) ensures WrittenAsAsked(rows, before, ts, r) {
      assert WrittenAsAsked(rows, before, some, r);
      var k: nat :| FirstAsked(some, k) && before[r] == Row(some[k].identity, some[k].weight, false, None);
      assert FirstAsked(ts, k) && ts[k] == some[k];
    }
  }

  lemma NotYetWritten(rows: Rows, before: Rows, ts: seq<Target>, r: RowId)
    requires DrainingUntouched(rows, before) && ts != []
    requires r in before ==> Matches(before[r], ts[|ts| - 1].identity)
    ensures r !in Written(rows, before)
    ensures r in rows ==> rows[r].draining && r in before && rows[r].identity == ts[|ts| - 1].identity
  {}

  lemma WrittenNow(rows: Rows, after: Rows, ts: seq<Target>, k: nat, r: RowId)
    requires FirstAsked(ts, k) && r in after && after[r] == Row(ts[k].identity, ts[k].weight, false, None)
    requires r in rows ==> rows[r].draining && rows[r].identity == after[r].identity
    ensures WrittenAsAsked(rows, after, ts, r)
  {}

  lemma WrittenSame(rows: Rows, before: Rows, after: Rows, ts: seq<Target>, q: RowId)
    requires q in before && q in after && after[q] == before[q] && WrittenAsAsked(rows, before, ts, q)
    ensures WrittenAsAsked(rows, after, ts, q)
  {}

  /** The last target adds one row to the written ones. */
  lemma WrittenNext(rows: Rows, before: Rows, ts: seq<Target>, id: RowId, r: RowId)
    requires ts != [] && DrainingUntouched(rows, before) && id !in before && FirstAsked(ts, |ts| - 1)
    requires forall q :: q in Written(rows, before) ==> WrittenAsAsked(rows, before, ts[..|ts| - 1], q)
    requires if r in before then Matches(before[r], ts[|ts| - 1].identity) else r == id
    ensures var t := ts[|ts| - 1]; var after := before[r := Row(t.identity, t.weight, false, None)];
      && (forall q :: q in Written(rows, after) ==> WrittenAsAsked(rows, after, ts, q))
      && |Written(rows, after)| == |Written(rows, before)| + 1
  {
    hide WrittenAsAsked, Slot;
    var n := |ts| - 1;
    var t := ts[n];
    var after := before[r := Row(t.identity, t.weight, false, None)];
    WrittenEarlier(rows, before, ts);
    NotYetWritten(rows, before, ts, r);
    assert Written(rows, after) == Written(rows, before) + {r};
    forall q | q in Written(rows, after) ensures WrittenAsAsked(rows, after, ts, q) {
      if q == r {
        WrittenNow(rows, after, ts, n, r);
      } else {
        WrittenSame(rows, before, after, ts, q);
      }
    }
  }

  /** The identities other than external addresses, and external ones re-added in their old
      zone, are in service after every call that asks for them. */
  lemma ReAddedIsServed(rows: Rows, ts: seq<Target>, ids: seq<RowId>, k: nat)
    requires UniqueSlots(rows) && DrainConsistent(rows) && |ids| == |ts| && FreshIds(rows, ids) && k < |ts|
    requires forall r :: r in rows && rows[r].draining && Slot(rows[r].identity) == Slot(ts[k].identity) ==>
      rows[r].identity == ts[k].identity
    ensures Serving(AddAll(rows, ts, ids), Slot(ts[k].identity))
  {
    assert forall r :: r in rows && rows[r].identity == ts[k].identity ==> Asked(ts, rows[r].identity);
    AddAllServes(rows, ts, ids, Slot(ts[k].identity));
  }

  /** Re-adding an external address in another zone while its old row drains is lost: the row
      stays DRAINING, and the drain deletes it. */
  lemma OtherZoneIsLost(rows: Rows, t: Target, id: RowId, r: RowId)
    requires UniqueSlots(rows) && DrainConsistent(rows) && id !in rows
    requires r in rows && rows[r].draining && Slot(rows[r].identity) == Slot(t.identity)
    requires rows[r].identity != t.identity
    ensures AddAll(rows, [t], [id]) == rows && !Serving(AddAll(rows, [t], [id]), Slot(t.identity))
  {}
}
