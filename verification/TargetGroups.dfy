/** The target-group writer and the calls built on it, over all groups. */
module TargetGroups {
  import opened Domain
  import opened Targets

  type TgId = nat

  datatype Error = NotFound | FailedPrecondition

  datatype Group = Group(rows: Rows, delay: nat)

  // ---- identities, as the remove call compares them ----

  /** `targetIdentityEqual`: by form, without the external zone. */
  predicate TargetIdentityEqual(a: Identity, b: Identity) {
    match a
    case InstanceTarget(i) => b.InstanceTarget? && i == b.instance
    case NicTarget(n) => b.NicTarget? && n == b.nic
    case IpRefTarget(s, ip) => b.IpRefTarget? && s == b.subnet && ip == b.ip
    case ExternalTarget(addr, _) => b.ExternalTarget? && addr == b.address
  }

  /** The remove call compares what the unique indexes compare. */
  lemma EqualIsSameSlot(a: Identity, b: Identity)
    ensures TargetIdentityEqual(a, b) <==> Slot(a) == Slot(b)
  {}

  // ---- listing ----

  datatype Listed = Listed(id: RowId, identity: Identity)

  /** Every row once, in some order. */
  ghost predicate Enumerates(rows: Rows, listing: seq<Listed>) {
    && (forall i :: 0 <= i < |listing| ==>
          listing[i].id in rows && listing[i].identity == rows[listing[i].id].identity)
    && (forall i, j :: 0 <= i < j < |listing| ==> listing[i].id != listing[j].id)
    && (forall r :: r in rows ==> exists i :: 0 <= i < |listing| && listing[i].id == r)
  }

  /** `ListTargets ... LIMIT 100`. */
  function Limited(listing: seq<Listed>): seq<Listed> {
    if |listing| > MAX_TARGETS_PER_GROUP then listing[..MAX_TARGETS_PER_GROUP] else listing
  }

  /** The limit never hides a row of a group under the cap. */
  lemma LimitHidesNothing(rows: Rows, listing: seq<Listed>)
    requires Valid(rows) && Enumerates(rows, listing)
    ensures Limited(listing) == listing
  {
    var ids := set i | 0 <= i < |listing| :: listing[i].id;
    DistinctCount(listing);
    assert ids <= rows.Keys;
    SubsetSize(ids, rows.Keys);
    assert |rows.Keys| == |rows|;
  }

  lemma {:induction false} DistinctCount(listing: seq<Listed>)
    requires forall i, j :: 0 <= i < j < |listing| ==> listing[i].id != listing[j].id
    ensures |set i | 0 <= i < |listing| :: listing[i].id| == |listing|
  {
    if listing != [] {
      var n := |listing| - 1;
      DistinctCount(listing[..n]);
      assert (set i | 0 <= i < |listing| :: listing[i].id)
          == (set i | 0 <= i < n :: listing[..n][i].id) + {listing[n].id};
    }
  }

  // ---- resolving ----

  /** Index of the first existing row with the wanted identity, or the length. */
  function FirstMatch(existing: seq<Listed>, identity: Identity): (i: nat)
    ensures i <= |existing|
    ensures i < |existing| ==> TargetIdentityEqual(identity, existing[i].identity)
    ensures forall j :: 0 <= j < i ==> !TargetIdentityEqual(identity, existing[j].identity)
  {
    if existing == [] || TargetIdentityEqual(identity, existing[0].identity) then 0
    else 1 + FirstMatch(existing[1..], identity)
  }

  function Resolve(existing: seq<Listed>, wanted: seq<Target>): seq<RowId> {
    if wanted == [] then []
    else
      var rest := Resolve(existing, wanted[..|wanted| - 1]);
      var i := FirstMatch(existing, wanted[|wanted| - 1].identity);
      if i < |existing| then rest + [existing[i].id] else rest
  }

  /** For each wanted target, the first existing row that has its identity; a target without
      one is skipped. */
  method ResolveTargetIdentities(existing: seq<Listed>, wanted: seq<Target>) returns (ids: seq<RowId>)
    ensures ids == Resolve(existing, wanted)
  {
    ids := [];
    if |existing| == 0 || |wanted| == 0 {
      ResolveNothing(existing, wanted);
      return;
    }
    var k := 0;
    while k < |wanted|
      invariant k <= |wanted| && ids == Resolve(existing, wanted[..k])
    {
      ghost var before := ids;
      ghost var match_ := FirstMatch(existing, wanted[k].identity);
      assert wanted[..k + 1][..k] == wanted[..k];
      var i := 0;
      while i < |existing|
        invariant i <= match_ && ids == before
      {
        if TargetIdentityEqual(wanted[k].identity, existing[i].identity) {
          ids := ids + [existing[i].id];
          break;
        }
        i := i + 1;
      }
      k := k + 1;
    }
    assert wanted[..k] == wanted;
  }

  lemma {:induction false} ResolveNothing(existing: seq<Listed>, wanted: seq<Target>)
    requires existing == [] || wanted == []
    ensures Resolve(existing, wanted) == []
  {
    if wanted != [] { ResolveNothing(existing, wanted[..|wanted| - 1]); }
  }

  lemma {:induction false} ResolveHas(existing: seq<Listed>, wanted: seq<Target>, id: RowId)
    ensures id in Resolve(existing, wanted) <==>
      exists k :: 0 <= k < |wanted| && FirstIs(existing, wanted[k].identity, id)
  {
    if wanted != [] {
      var n := |wanted| - 1;
      ResolveHas(existing, wanted[..n], id);
      if k :| 0 <= k < n && FirstIs(existing, wanted[..n][k].identity, id) {
        assert FirstIs(existing, wanted[k].identity, id);
      }
      if k :| 0 <= k < |wanted| && FirstIs(existing, wanted[k].identity, id) {
        assert k < n ==> FirstIs(existing, wanted[..n][k].identity, id);
      }
    }
  }

  predicate FirstIs(existing: seq<Listed>, identity: Identity, id: RowId) {
    FirstMatch(existing, identity) < |existing| && existing[FirstMatch(existing, identity)].id == id
  }

  /** With unique slots the first match is the only one: exactly the rows whose identity is
      wanted are resolved. */
  lemma ResolvedExactly(rows: Rows, listing: seq<Listed>, wanted: seq<Target>)
    requires UniqueSlots(rows) && Enumerates(rows, listing)
    ensures forall r :: r in rows ==> (r in Resolve(listing, wanted) <==> SlotAsked(wanted, Slot(rows[r].identity)))
  {
    forall r | r in rows ensures r in Resolve(listing, wanted) <==> SlotAsked(wanted, Slot(rows[r].identity)) {
      ResolveHas(listing, wanted, r);
      forall k | 0 <= k < |wanted|
        ensures FirstIs(listing, wanted[k].identity, r) <==> Slot(wanted[k].identity) == Slot(rows[r].identity)
      {
        FirstIsRow(rows, listing, wanted[k].identity, r);
      }
    }
  }

  lemma FirstIsRow(rows: Rows, listing: seq<Listed>, identity: Identity, r: RowId)
    requires UniqueSlots(rows) && Enumerates(rows, listing) && r in rows
    ensures FirstIs(listing, identity, r) <==> Slot(identity) == Slot(rows[r].identity)
  {}

  lemma {:induction false} ResolvedAreListed(rows: Rows, listing: seq<Listed>, wanted: seq<Target>)
    requires Enumerates(rows, listing)
    ensures forall r :: r in Resolve(listing, wanted) ==> r in rows
  {
    if wanted != [] { ResolvedAreListed(rows, listing, wanted[..|wanted| - 1]); }
  }

  /** Rows keep their identity as long as they live, and a row id is generated once. */
  ghost predicate SameIdentities(before: Rows, after: Rows) {
    forall r :: r in before && r in after ==> before[r].identity == after[r].identity
  }

  /** The rows that marking the given ids changes. */
  function Affected(rows: Rows, ids: seq<RowId>): set<RowId> {
    set r | r in rows && r in ids && !rows[r].draining
  }

  function Marked(group: Group, ids: seq<RowId>, now: nat): Group {
    group.(rows := MarkDraining(group.rows, (set r | r in ids), now))
  }

  function Marking(groups: map<TgId, Group>, g: TgId, ids: seq<RowId>, now: nat): map<TgId, Group> {
    if g in groups then groups[g := Marked(groups[g], ids, now)] else groups
  }

  lemma MarkNone(groups: map<TgId, Group>, g: TgId, now: nat)
    requires g in groups
    ensures Marking(groups, g, [], now) == groups && |Affected(groups[g].rows, [])| == 0
  {
    assert MarkDraining(groups[g].rows, (set r | r in []), now) == groups[g].rows;
    assert Affected(groups[g].rows, []) == {};
  }

  /** Marking changes the groups exactly when it affects a row. */
  lemma MarkingChanges(groups: map<TgId, Group>, g: TgId, ids: seq<RowId>, now: nat)
    ensures var after := Marking(groups, g, ids, now);
      && after.Keys == groups.Keys && (forall h :: h in groups && h != g ==> after[h] == groups[h])
      && (g in groups ==> after[g] == Marked(groups[g], ids, now))
      && (after != groups <==> g in groups && |Affected(groups[g].rows, ids)| > 0)
  {
    if g in groups {
      MarkedIffAffected(groups[g], ids, now);
      if Marked(groups[g], ids, now) == groups[g] {
        assert Marking(groups, g, ids, now) == groups;
      } else {
        assert Marking(groups, g, ids, now)[g] != groups[g];
      }
    }
  }

  lemma MarkedIffAffected(group: Group, ids: seq<RowId>, now: nat)
    ensures Marked(group, ids, now) != group <==> |Affected(group.rows, ids)| > 0
  {
    var after := Marked(group, ids, now).rows;
    if |Affected(group.rows, ids)| > 0 {
      var r :| r in Affected(group.rows, ids);
      assert after[r].draining && !group.rows[r].draining;
    } else {
      forall r | r in group.rows ensures after[r] == group.rows[r] {
        assert r !in Affected(group.rows, ids);
      }
      assert after == group.rows;
    }
  }

  /** From `rows` to `after`, exactly the rows that were listed, have a requested identity and are
      in service start to drain. */
  ghost predicate RemovedExactly(rows: Rows, after: Rows, listed: set<RowId>, wanted: seq<Target>, now: nat) {
    after.Keys == rows.Keys && forall r :: r in rows ==>
      after[r] == if r in listed && !rows[r].draining && SlotAsked(wanted, Slot(rows[r].identity))
                  then rows[r].(draining := true, drainStarted := Some(now)) else rows[r]
  }

  /** What was resolved from an older listing marks the right rows now. */
  lemma RemovedRows(listed: Rows, listing: seq<Listed>, wanted: seq<Target>, rows: Rows, now: nat)
    requires UniqueSlots(listed) && Enumerates(listed, listing) && SameIdentities(listed, rows)
    ensures var ids := Resolve(listing, wanted);
      RemovedExactly(rows, MarkDraining(rows, (set r | r in ids), now), listed.Keys, wanted, now)
  {
    ResolvedExactly(listed, listing, wanted);
    ResolvedAreListed(listed, listing, wanted);
  }

  lemma CappedLists(rows: Rows, listing: seq<Listed>, wanted: seq<Target>)
    requires Valid(rows) && Enumerates(rows, listing)
    ensures UniqueSlots(rows) && Resolve(Limited(listing), wanted) == Resolve(listing, wanted)
  {
    LimitHidesNothing(rows, listing);
  }

  lemma AddNone(rows: Rows, ts: seq<Target>, ids: seq<RowId>)
    requires |ids| == |ts|
    ensures AddAll(rows, ts[..0], ids[..0]) == rows && InsertedCount(rows, ts[..0], ids[..0]) == 0
  {}

  lemma AddNext(rows: Rows, ts: seq<Target>, ids: seq<RowId>, i: nat)
    requires |ids| == |ts| && i < |ts|
    ensures var before := AddAll(rows, ts[..i], ids[..i]);
      && AddAll(rows, ts[..i + 1], ids[..i + 1]) == AddOne(before, ts[i], ids[i])
      && InsertedCount(rows, ts[..i + 1], ids[..i + 1])
         == InsertedCount(rows, ts[..i], ids[..i]) + (if Counts(before, ts[i]) then 1 else 0)
  {
    assert ts[..i + 1][..i] == ts[..i] && ids[..i + 1][..i] == ids[..i];
  }

  lemma AddedIsValid(rows: Rows, ts: seq<Target>, ids: seq<RowId>)
    requires Valid(rows) && |ids| == |ts| && FreshIds(rows, ids) && |rows| + |ts| <= MAX_TARGETS_PER_GROUP
    ensures Valid(AddAll(rows, ts, ids))
  {
    AddAllKeeps(rows, ts, ids);
  }

  /** No row goes, and what is written is as the first target requested with its identity says. */
  ghost predicate WrittenExactly(rows: Rows, after: Rows, ts: seq<Target>) {
    rows.Keys <= after.Keys && forall r :: r in Written(rows, after) ==> WrittenAsAsked(rows, after, ts, r)
  }

  predicate AnyExpired(rows: Rows, delay: nat, now: nat) {
    exists r :: r in rows && Expired(rows[r], delay, now)
  }

  class Store {
    var groups: map<TgId, Group>
    var now: nat

    ghost predicate Capped()
      reads this
    {
      forall g :: g in groups ==> Valid(groups[g].rows)
    }

    constructor ()
      ensures Capped() && groups == map[] && now == 0
    {
      groups, now := map[], 0;
    }

    /** The two statements for each target: reactivate, or insert unless the slot is taken. */
    static method AddRows(rows: Rows, targets: seq<Target>, ids: seq<RowId>) returns (after: Rows, inserted: nat)
      requires |ids| == |targets|
      ensures after == AddAll(rows, targets, ids) && inserted == InsertedCount(rows, targets, ids)
    {
      hide AddAll, InsertedCount, CanReactivate, Occupied, Reactivate, Slot;
      after, inserted := rows, 0;
      AddNone(rows, targets, ids);
      var i := 0;
      while i < |targets|
        invariant i <= |targets|
        invariant after == AddAll(rows, targets[..i], ids[..i])
        invariant inserted == InsertedCount(rows, targets[..i], ids[..i])
      {
        var t := targets[i];
        AddNext(rows, targets, ids, i);
        if CanReactivate(after, t) {
          after := Reactivate(after, t);
          inserted := inserted + 1;
        } else if !Occupied(after, Slot(t.identity)) {
          after := after[ids[i] := Row(t.identity, t.weight, false, None)];
          inserted := inserted + 1;
        }
        i := i + 1;
      }
      assert targets[..i] == targets && ids[..i] == ids;
    }

    /** The cap is checked against rows in any status, with the group's row locked. */
    method AddTargets(g: TgId, targets: seq<Target>, ids: seq<RowId>) returns (r: Result<nat, Error>)
      requires Capped() && |ids| == |targets| && (g in groups ==> FreshIds(groups[g].rows, ids))
      modifies this`groups
      ensures Capped()
      ensures r == if targets == [] then Ok(0)
                   else if g !in old(groups) then Err(NotFound)
                   else if |old(groups)[g].rows| + |targets| > 100 then Err(FailedPrecondition)
                   else Ok(InsertedCount(old(groups)[g].rows, targets, ids))
      ensures groups == if r.Err? || targets == [] then old(groups)
                        else old(groups)[g := old(groups)[g].(rows := AddAll(old(groups)[g].rows, targets, ids))]
      ensures r.Ok? && targets != [] ==>
        && g in old(groups) && WrittenExactly(old(groups)[g].rows, groups[g].rows, targets)
        && r.value == |Written(old(groups)[g].rows, groups[g].rows)|
    {
      if |targets| == 0 { return Ok(0); }
      if g !in groups { return Err(NotFound); }
      var rows := groups[g].rows;
      if |rows| + |targets| > MAX_TARGETS_PER_GROUP { return Err(FailedPrecondition); }
      AddedIsValid(rows, targets, ids);
      AddAllWrites(rows, targets, ids);
      var after, inserted := AddRows(rows, targets, ids);
      groups := groups[g := groups[g].(rows := after)];
      return Ok(inserted);
    }

    /** `UPDATE ... WHERE id = ANY (ids) AND status = 'ACTIVE'`, and the number of rows it affected. */
    method RemoveTargetsMarkDraining(g: TgId, ids: seq<RowId>) returns (affected: nat)
      requires Capped()
      modifies this`groups
      ensures Capped()
      ensures groups == Marking(old(groups), g, ids, now)
      ensures affected == if g in old(groups) then |Affected(old(groups)[g].rows, ids)| else 0
    {
      hide Valid, MarkDraining, Affected, Marked;
      if g !in groups { return 0; }
      if |ids| == 0 {
        MarkNone(groups, g, now);
        return 0;
      }
      MarkKeeps(groups[g], ids, now);
      affected := |Affected(groups[g].rows, ids)|;
      groups := groups[g := Marked(groups[g], ids, now)];
    }

    /** The remove call. It lists the group's rows in one transaction (`listing`, in the order the
        query returned them) and marks them in another; in between other calls bring the groups to
        `between`. Exactly the rows listed with a requested identity that are still in service
        then start to drain, and an event says so exactly when there is one. */
    method DoRemove(g: TgId, wanted: seq<Target>, listing: seq<Listed>, between: map<TgId, Group>, later: nat)
      returns (r: Result<(), Error>, emitted: bool)
      requires Capped() && (g in groups ==> Enumerates(groups[g].rows, listing))
      requires (forall h :: h in between ==> Valid(between[h].rows)) && now <= later
      requires g in groups && g in between ==> SameIdentities(groups[g].rows, between[g].rows)
      modifies this`groups, this`now
      ensures Capped()
      ensures g !in old(groups) ==> r == Err(NotFound) && !emitted && groups == old(groups)
      ensures g in old(groups) ==>
        && now == later && groups.Keys == between.Keys
        && r == (if g in between then Ok(()) else Err(NotFound))
        && (forall h :: h in groups && h != g ==> groups[h] == between[h])
        && (emitted <==> groups != between)
      ensures r.Ok? ==>
        && groups[g].delay == between[g].delay
        && RemovedExactly(between[g].rows, groups[g].rows, old(groups)[g].rows.Keys, wanted, later)
    {
      hide Valid, Marking, Affected, Enumerates, Resolve, SlotAsked, UniqueSlots;
      if g !in groups { return Err(NotFound), false; }
      ghost var listed := groups[g].rows;
      CappedLists(listed, listing, wanted);
      var ids := ResolveTargetIdentities(Limited(listing), wanted);
      groups, now := between, later;
      var affected := RemoveTargetsMarkDraining(g, ids);
      MarkingChanges(between, g, ids, later);
      if g !in groups { return Err(NotFound), affected > 0; }
      RemovedRows(listed, listing, wanted, between[g].rows, later);
      return Ok(()), affected > 0;
    }

    /** One statement: every expired row of every group goes, and each group that lost one gets
        exactly one event. */
    method DrainOnce() returns (emitted: set<TgId>)
      requires Capped()
      modifies this`groups
      ensures Capped() && groups.Keys == old(groups).Keys
      ensures forall g :: g in groups ==>
        groups[g] == old(groups)[g].(rows := Drained(old(groups)[g].rows, old(groups)[g].delay, now))
      ensures forall g, r :: g in groups && r in old(groups)[g].rows ==>
        var row := old(groups)[g].rows[r];
        && (r !in groups[g].rows <==> row.draining && row.drainStarted.value + old(groups)[g].delay < now)
        && (r in groups[g].rows ==> groups[g].rows[r] == row)
      ensures forall g :: g in groups ==> groups[g].rows.Keys <= old(groups)[g].rows.Keys
      ensures forall g :: g in emitted <==> g in groups && |groups[g].rows| < |old(groups)[g].rows|
    {
      emitted := set g | g in groups && AnyExpired(groups[g].rows, groups[g].delay, now);
      forall g | g in groups
        ensures Valid(Drained(groups[g].rows, groups[g].delay, now))
        ensures g in emitted <==> |Drained(groups[g].rows, groups[g].delay, now)| < |groups[g].rows|
      {
        DrainKeeps(groups[g].rows, groups[g].delay, now);
        assert Valid(groups[g].rows);
      }
      groups := map g | g in groups :: groups[g].(rows := Drained(groups[g].rows, groups[g].delay, now));
    }
  }

  lemma MarkKeeps(group: Group, ids: seq<RowId>, now: nat)
    requires Valid(group.rows)
    ensures Valid(Marked(group, ids, now).rows)
  {
    var after := Marked(group, ids, now).rows;
    assert after.Keys == group.rows.Keys;
    assert |group.rows| == |group.rows.Keys| && |after| == |after.Keys|;
  }

  lemma DrainKeeps(rows: Rows, delay: nat, now: nat)
    requires Valid(rows)
    ensures Valid(Drained(rows, delay, now))
    ensures |Drained(rows, delay, now)| < |rows| <==> AnyExpired(rows, delay, now)
  {
    var after := Drained(rows, delay, now);
    assert after.Keys <= rows.Keys;
    SubsetSize(after.Keys, rows.Keys);
    assert |rows| == |rows.Keys| && |after| == |after.Keys|;
    if r :| r in rows && Expired(rows[r], delay, now) {
      SubsetSize(after.Keys, rows.Keys - {r});
    } else {
      assert after.Keys == rows.Keys;
    }
  }
}
