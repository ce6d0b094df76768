/** The workers of the virtual-IP saga as the program runs them: sequential code with local
    variables, loops and a deferred compensation. Between any two of their commits and remote
    calls everybody else may act; every path through them is a run of the saga's state machine,
    and a crash is a path that stops. */
module SagaWorkers {
  import opened Domain
  import opened Vpc
  import opened VipSaga
  import opened VipSagaInvariant
  import opened SagaReasons

  lemma {:induction false} RunExtend(s: State, es: seq<Event>, e: Event)
    requires Run(s, es) && Enabled(After(s, es), e)
    ensures Run(s, es + [e]) && After(s, es + [e]) == Next(After(s, es), e)
    decreases |es|
  {
    hide Next, Enabled;
    if es == [] {
      assert [e][1..] == [];
    } else {
      assert (es + [e])[1..] == es[1..] + [e];
      RunExtend(Next(s, es[0]), es[1..], e);
    }
  }

  lemma {:induction false} RunSplit(s: State, es: seq<Event>, n: nat)
    requires Run(s, es) && n <= |es|
    ensures Run(s, es[..n]) && Run(After(s, es[..n]), es[n..])
    ensures After(After(s, es[..n]), es[n..]) == After(s, es)
    decreases n
  {
    hide Next, Enabled;
    if n == 0 {
      assert es[..0] == [] && es[0..] == es;
    } else {
      RunSplit(Next(s, es[0]), es[1..], n - 1);
      assert es[..n][0] == es[0] && es[..n][1..] == es[1..][..n - 1] && es[1..][n - 1..] == es[n..];
    }
  }

  lemma LeftIsHeld(s: State, x: LbId)
    requires Inv(s) && x in s.creators && s.creators[x].pc.Compensate?
    ensures s.creators[x].pc.left <= s.creators[x].held.Keys
  {
    hide VipsOk, Progress;
    assert CreatorOk(s, x);
  }

  // ---- a worker's own answered steps ----

  /** A step taken on an answer: event `at` of the run, taken in state `before`. */
  datatype Own = Own(at: nat, before: State, event: Event, answer: nat)

  ghost predicate Visited(start: State, trace: seq<Event>, n: nat, s: State) {
    n <= |trace| && Run(start, trace[..n]) && After(start, trace[..n]) == s
  }

  lemma VisitedLater(start: State, trace: seq<Event>, longer: seq<Event>, n: nat, s: State)
    requires Visited(start, trace, n, s) && trace <= longer
    ensures Visited(start, longer, n, s)
  {
    hide Run, After;
    assert longer[..n] == trace[..n];
  }

  /** It is in the run, and it succeeded exactly when its answer and the state let it. */
  ghost predicate OwnOk(start: State, trace: seq<Event>, o: Own, answers: nat -> Answer) {
    && o.at < |trace| && trace[o.at] == o.event && Visited(start, trace, o.at, o.before)
    && Inv(o.before) && Enabled(o.before, o.event) && Honest(o.before, o.event, answers(o.answer))
  }

  lemma OwnOkGrows(start: State, trace: seq<Event>, longer: seq<Event>, o: Own, answers: nat -> Answer)
    requires OwnOk(start, trace, o, answers) && trace <= longer
    ensures OwnOk(start, longer, o, answers)
  {
    hide Inv, Enabled, Honest, Run, After;
    assert longer[..o.at] == trace[..o.at];
  }

  /** From event `since` on, some step of x's creation failed. */
  ghost predicate GaveUp(own: seq<Own>, answers: nat -> Answer, since: nat, x: LbId) {
    exists i :: 0 <= i < |own| && since <= own[i].at && Creates(own[i].event, x)
      && Fails(own[i].event, answers(own[i].answer))
  }

  /** A remote call of a release that was not answered with success, or that frees an address still
      referenced. */
  ghost predicate CallRejected(o: Own, a: Answer) {
    CallOf(o.before, o.event).Some? && (!a.done || Refused(o.before.vpc, CallOf(o.before, o.event).value))
  }

  ghost predicate CallFailed(own: seq<Own>, answers: nat -> Answer, since: nat) {
    exists i :: 0 <= i < |own| && since <= own[i].at && CallRejected(own[i], answers(own[i].answer))
  }

  lemma FailuresStay(own: seq<Own>, longer: seq<Own>, answers: nat -> Answer, since: nat, later: nat, x: LbId)
    requires own <= longer && since <= later
    ensures GaveUp(own, answers, later, x) ==> GaveUp(longer, answers, since, x)
    ensures CallFailed(own, answers, later) ==> CallFailed(longer, answers, since)
  {
    hide CallRejected, Creates, Fails;
    if GaveUp(own, answers, later, x) {
      var i :| 0 <= i < |own| && later <= own[i].at && Creates(own[i].event, x)
        && Fails(own[i].event, answers(own[i].answer));
      assert longer[i] == own[i];
    }
    if CallFailed(own, answers, later) {
      var i :| 0 <= i < |own| && later <= own[i].at && CallRejected(own[i], answers(own[i].answer));
      assert longer[i] == own[i];
    }
  }

  lemma CallFailedLast(own: seq<Own>, answers: nat -> Answer, since: nat)
    requires own != []
    ensures var last := own[|own| - 1];
      since <= last.at && CallRejected(last, answers(last.answer)) ==> CallFailed(own, answers, since)
  {
    hide CallRejected;
  }

  /** Why the creation of x, inserted by event `from`, stopped in its step o: the answer; an order
      answered with an address issued before; an address that is gone or referenced by somebody
      else; or a Delete or a runner that took the row since the insertion. */
  ghost predicate Hindered(trace: seq<Event>, from: nat, o: Own, a: Answer, x: LbId) {
    || !a.done
    || (o.event.AllocRefused? && a.addr in o.before.used)
    || ReferenceTaken(o.before, x)
    || exists i :: from < i < o.at && i < |trace| && TakesRow(trace[i], x)
  }

  lemma InsertIsFree(s: State, x: LbId, specs: seq<Spec>)
    requires Inv(s) && Enabled(s, Insert(x, specs))
    ensures !RowTaken(Next(s, Insert(x, specs)), x) && x in Next(s, Insert(x, specs)).born
  {
    NotBorn(s, x);
    hide Inv;
  }

  lemma Started(s: State, x: LbId, specs: seq<Spec>)
    requires Enabled(s, Insert(x, specs))
    ensures var t := Next(s, Insert(x, specs));
      x in t.creators && t.creators[x] == Creator(specs, map[], {}, Acquire)
    ensures forall i, j :: 0 <= i < j < |specs| ==> specs[i].family != specs[j].family
  {}

  /** The run from the insertion to a state of x's creator. */
  lemma HinderedBy(start: State, trace: seq<Event>, from: nat, s0: State, o: Own, answers: nat -> Answer, x: LbId)
    requires Inv(s0) && OwnOk(start, trace, o, answers) && Run(start, trace)
    requires Visited(start, trace, from + 1, s0) && from < o.at && x in s0.born && !RowTaken(s0, x)
    requires Creates(o.event, x) && Fails(o.event, answers(o.answer))
    ensures Hindered(trace, from, o, answers(o.answer), x)
  {
    CreatorsAct(o.before, o.event, x);
    CreatorIsOk(o.before, x);
    hide Inv, CreatorOk, Run, After, Enabled, Fails, Honest, Creates, RowTaken, ReferenceTaken, TakesRow;
    CreationStops(o.before, o.event, answers(o.answer), x);
    if RowTaken(o.before, x) {
      RowWasTaken(start, trace, from, s0, o.at, o.before, x);
    }
  }

  lemma CreatorIsOk(s: State, x: LbId)
    requires Inv(s) && x in s.creators
    ensures CreatorOk(s, x)
  {
    hide CreatorOk;
  }

  lemma CreatorsAct(s: State, e: Event, x: LbId)
    requires Enabled(s, e) && Creates(e, x)
    ensures x in s.creators
  {}

  lemma RowWasTaken(start: State, trace: seq<Event>, from: nat, s0: State, at: nat, s: State, x: LbId)
    requires Inv(s0) && from < at <= |trace| && Visited(start, trace, from + 1, s0) && Visited(start, trace, at, s)
    requires x in s0.born && !RowTaken(s0, x) && RowTaken(s, x) && x in s.creators
    ensures exists i :: from < i < at && TakesRow(trace[i], x)
  {
    hide Inv, RowTaken, TakesRow, Run, After;
    var head := trace[..at];
    RunSplit(start, head, from + 1);
    assert head[..from + 1] == trace[..from + 1];
    var es := head[from + 1..];
    RowTakenBySomebody(s0, es, x);
    var i :| 0 <= i < |es| && TakesRow(es[i], x);
    assert trace[from + 1 + i] == es[i];
  }

  // ---- what the bindings of a row come to ----

  ghost predicate AllReleased(s: State, x: LbId, vips: map<Family, Vip>) {
    forall f :: f in vips ==> Released(s, x, vips[f])
  }

  /** One binding for each requested family: a new address, or the one it names. */
  ghost predicate AsAsked(specs: seq<Spec>, vips: map<Family, Vip>) {
    && vips.Keys == Families(specs)
    && forall i :: 0 <= i < |specs| ==> specs[i].family in vips && Fits(specs[i], vips[specs[i].family])
  }

  predicate Fits(spec: Spec, vip: Vip) {
    match spec.link
    case None => vip.origin == Auto
    case Some(a) => vip == Vip(a, Linked)
  }

  lemma AskedNone(specs: seq<Spec>)
    ensures AsAsked(specs[..0], map[])
  {
    hide Fits;
  }

  lemma AskedNext(specs: seq<Spec>, i: nat, held: map<Family, Vip>, vip: Vip)
    requires i < |specs| && AsAsked(specs[..i], held) && Fits(specs[i], vip)
    requires forall i, j :: 0 <= i < j < |specs| ==> specs[i].family != specs[j].family
    ensures AsAsked(specs[..i + 1], held[specs[i].family := vip])
  {
    var more := specs[..i + 1];
    assert more == specs[..i] + [specs[i]];
    forall j | 0 <= j < i ensures more[j].family in held && Fits(more[j], held[more[j].family]) {
      assert more[j] == specs[..i][j];
    }
    assert Families(more) == Families(specs[..i]) + {specs[i].family};
  }

  /** The row of a creator that has acquired every family holds what it acquired. */
  lemma AcquiredRow(s: State, x: LbId)
    requires Inv(s) && At(s, x, Acquire) && s.creators[x].specs == [] && x in s.rows
    ensures s.rows[x].vips == s.creators[x].held && s.rows[x].families == s.creators[x].held.Keys
  {
    hide VipsOk, VpcOk, RowsOk, WorkersOk, SpecsOk, Released;
    assert CreatorOk(s, x);
  }

  /** A compensation without a failure has released everything. */
  lemma CompensatedAll(s: State, x: LbId)
    requires Inv(s) && x in s.creators && s.creators[x].pc.Compensate?
    requires s.creators[x].pc.left == {} == s.creators[x].pc.failed && s.creators[x].pc.calls == []
    ensures AllReleased(s, x, s.creators[x].held)
  {
    hide VipsOk, VpcOk, RowsOk, WorkersOk, Released;
    assert CreatorOk(s, x);
  }

  /** A worker whose calls all succeeded has released everything. */
  lemma WorkedOff(s: State, w: WorkerId)
    requires Inv(s) && w in s.workers && s.workers[w].calls == []
    ensures AllReleased(s, s.workers[w].lb, s.workers[w].vips)
  {
    hide VipsOk, VpcOk, RowsOk, CreatorsOk, Released;
    assert WorkerOk(s, w);
  }

  /** While its Delete runs, a row stays DELETING; a runner's row is there. */
  lemma WorkersRow(s: State, w: WorkerId)
    requires Inv(s) && w in s.workers
    ensures var k := s.workers[w];
      && (k.kind == Deleter && k.lb in s.rows ==> s.rows[k.lb].status == Deleting)
      && (k.kind == Runner ==> k.lb in s.rows && s.rows[k.lb].vips == k.vips)
  {
    hide VipsOk, VpcOk, RowsOk, CreatorsOk, Released, CallsFor, Pending;
    assert WorkerOk(s, w);
  }

  class World {
    var st: State
    const answers: nat -> Answer
    var asked: nat
    ghost const start: State
    ghost var trace: seq<Event>
    ghost var own: seq<Own>

    ghost predicate Valid()
      reads this
    {
      && Inv(st) && Run(start, trace) && After(start, trace) == st
      && forall i :: 0 <= i < |own| ==> OwnOk(start, trace, own[i], answers)
    }

    constructor (age: nat, answers: nat -> Answer)
      ensures st == Init(age) && trace == [] && own == [] && this.answers == answers
      ensures Valid()
    {
      st, start, trace, own, asked := Init(age), Init(age), [], [], 0;
      this.answers := answers;
      InitInv(age);
    }

    method Ask() returns (a: Answer)
      modifies this`asked
      ensures asked == old(asked) + 1 && a == answers(old(asked))
    {
      a := answers(asked);
      asked := asked + 1;
    }

    /** Any steps of others: of every creator but x's, every worker but w, tenants and the clock.
        The caller relies on the contract only. */
    method Yield(x: Option<LbId>, w: Option<WorkerId>)
      requires Valid()
      modifies this`st, this`trace
      ensures Valid() && old(trace) <= trace
      ensures x.Some? && x.value in old(st).creators ==>
        x.value in st.creators && st.creators[x.value] == old(st).creators[x.value]
      ensures w.Some? && w.value in old(st).workers ==>
        w.value in st.workers && st.workers[w.value] == old(st).workers[w.value]
    {
    }

    /** A step that depends on no answer. */
    method Do(e: Event)
      requires Valid() && Enabled(st, e)
      modifies this`st, this`trace
      ensures Valid() && st == Next(old(st), e) && trace == old(trace) + [e]
    {
      hide Inv, Enabled, Next, Run, After, OwnOk;
      RunExtend(start, trace, e);
      StepInv(st, e);
      forall i | 0 <= i < |own| ensures OwnOk(start, trace + [e], own[i], answers) {
        OwnOkGrows(start, trace, trace + [e], own[i], answers);
      }
      st := Next(st, e);
      trace := trace + [e];
    }

    /** A step that reports the last answer, as far as the state allows it. */
    method Act(e: Event)
      requires Valid() && Enabled(st, e) && asked > 0 && Honest(st, e, answers(asked - 1))
      modifies this`st, this`trace, this`own
      ensures Valid() && st == Next(old(st), e) && trace == old(trace) + [e]
      ensures own == old(own) + [Own(|old(trace)|, old(st), e, asked - 1)]
    {
      hide Inv, Enabled, Next, Run, After, Honest;
      ghost var o := Own(|trace|, st, e, asked - 1);
      assert trace[..|trace|] == trace;
      Do(e);
      assert trace[..o.at] == old(trace);
      own := own + [o];
    }

    /** The last answered step. */
    ghost function Last(): Own
      requires own != []
      reads this
    {
      own[|own| - 1]
    }

    // ---- create ----

    /** Orders a new address. An attempt whose reply is lost may have been accepted. */
    method CreateAddressAndWait(x: LbId) returns (addr: Option<AddressId>)
      requires Valid() && Acquiring(st, x) && st.creators[x].specs[0].link == None
      modifies this`st, this`trace, this`asked, this`own
      ensures Valid() && old(trace) <= trace && old(own) <= own && x in st.creators
      ensures addr.Some? ==>
        && st.creators[x] == old(st).creators[x].(pc := SetRef(addr.value))
        && addr.value in st.vpc && st.vpc[addr.value] == Address(Some(x), None)
      ensures addr == None ==>
        st.creators[x] == Failing(old(st).creators[x]) && GaveUp(own, answers, |old(trace)|, x)
    {
      hide Inv, Run, After, OwnOk, GaveUp;
      Yield(Some(x), None);
      var a := Ask();
      if a.lost.Some? && a.lost.value !in st.used {
        Act(AllocOrphaned(x, a.lost.value, true));
      }
      ghost var since := |trace|;
      addr := LastAttempt(x, a);
      FailuresStay(own, own, answers, |old(trace)|, since, x);
    }

    /** The attempt whose reply arrived. */
    method LastAttempt(x: LbId, a: Answer) returns (addr: Option<AddressId>)
      requires Valid() && Acquiring(st, x) && st.creators[x].specs[0].link == None
      requires asked > 0 && a == answers(asked - 1)
      modifies this`st, this`trace, this`own
      ensures Valid() && old(trace) <= trace && old(own) <= own && x in st.creators
      ensures addr.Some? ==>
        && st.creators[x] == old(st).creators[x].(pc := SetRef(addr.value))
        && addr.value in st.vpc && st.vpc[addr.value] == Address(Some(x), None)
      ensures addr == None ==>
        st.creators[x] == Failing(old(st).creators[x]) && GaveUp(own, answers, |old(trace)|, x)
    {
      hide Inv, Run, After, OwnOk;
      if a.addr in st.used || !(a.done || a.applied) {
        Act(AllocRefused(x));
        assert Last().event == AllocRefused(x);
        return None;
      }
      if !a.done {
        Act(AllocOrphaned(x, a.addr, false));
        assert Last().event == AllocOrphaned(x, a.addr, false);
        return None;
      }
      Act(AllocCreated(x, a.addr));
      return Some(a.addr);
    }

    /** A new address: ordered, then referenced; when the reference fails, given back. */
    method Allocate(x: LbId) returns (vip: Option<Vip>)
      requires Valid() && Acquiring(st, x) && st.creators[x].specs[0].link == None
      modifies this`st, this`trace, this`asked, this`own
      ensures Valid() && old(trace) <= trace && old(own) <= own && x in st.creators
      ensures vip.Some? ==> st.creators[x] == Acquired(old(st).creators[x], vip.value) && vip.value.origin == Auto
      ensures vip.Some? ==> vip.value.addr in st.vpc && st.vpc[vip.value.addr].referrer == Some(ByLb(x))
      ensures vip == None ==>
        st.creators[x] == Failing(old(st).creators[x]) && GaveUp(own, answers, |old(trace)|, x)
    {
      hide Inv, Run, After, OwnOk, Enabled, Next, GaveUp;
      var addr := CreateAddressAndWait(x);
      if addr == None { return None; }
      ghost var since := |trace|;
      vip := Reference(x, addr.value);
      FailuresStay(own, own, answers, |old(trace)|, since, x);
    }

    /** The reference of a new address, and the undo when it fails. */
    method Reference(x: LbId, addr: AddressId) returns (vip: Option<Vip>)
      requires Valid() && At(st, x, SetRef(addr)) && st.creators[x].specs != []
      modifies this`st, this`trace, this`asked, this`own
      ensures Valid() && old(trace) <= trace && old(own) <= own && x in st.creators
      ensures vip.Some? ==> st.creators[x] == Acquired(old(st).creators[x], vip.value) && vip.value == Vip(addr, Auto)
      ensures vip.Some? ==> addr in st.vpc && st.vpc[addr].referrer == Some(ByLb(x))
      ensures vip == None ==>
        st.creators[x] == Failing(old(st).creators[x]) && GaveUp(own, answers, |old(trace)|, x)
      ensures vip == None && addr in st.vpc ==> CallFailed(own, answers, |old(trace)|)
    {
      hide Inv, Run, After, OwnOk, CallFailed;
      Yield(Some(x), None);
      var b := Ask();
      var reply := if b.done && CanReference(st.vpc, addr, x) then Done else Failed(b.applied);
      Act(RefReply(x, reply));
      if reply.Done? { return Some(Vip(addr, Auto)); }
      ghost var mine := own;
      assert GaveUp(mine, answers, |old(trace)|, x) by { assert mine[|mine| - 1].event == RefReply(x, reply); }
      hide GaveUp;
      ghost var since := |trace|;
      Undo(x, addr);
      FailuresStay(mine, own, answers, |old(trace)|, |old(trace)|, x);
      FailuresStay(own, own, answers, |old(trace)|, since, x);
      return None;
    }

    /** FreeIP of an address whose reference failed; whatever it answers, the family has failed. */
    method Undo(x: LbId, addr: AddressId)
      requires Valid() && At(st, x, UndoAlloc(addr))
      modifies this`st, this`trace, this`asked, this`own
      ensures Valid() && old(trace) <= trace && old(own) <= own && x in st.creators
      ensures st.creators[x] == Failing(old(st).creators[x])
      ensures addr in st.vpc ==> CallFailed(own, answers, |old(trace)|)
    {
      hide Inv, Run, After, OwnOk;
      Yield(Some(x), None);
      var c := Ask();
      Act(UndoReply(x, if c.done && !Refused(st.vpc, FreeIP(addr)) then Done else Failed(c.applied)));
      assert CallOf(Last().before, Last().event) == Some(FreeIP(addr));
      if addr in st.vpc { assert CallRejected(Last(), answers(Last().answer)); }
    }

    /** An existing address: its reference is set, then its value read. */
    method AttachExisting(x: LbId) returns (vip: Option<Vip>)
      requires Valid() && Acquiring(st, x) && st.creators[x].specs[0].link.Some?
      modifies this`st, this`trace, this`asked, this`own
      ensures Valid() && old(trace) <= trace && old(own) <= own && x in st.creators
      ensures vip.Some? ==>
        && st.creators[x] == Acquired(old(st).creators[x], vip.value)
        && vip.value == Vip(old(st).creators[x].specs[0].link.value, Linked)
      ensures vip == None ==>
        st.creators[x] == Failing(old(st).creators[x]) && GaveUp(own, answers, |old(trace)|, x)
    {
      hide Inv, Run, After, OwnOk;
      Yield(Some(x), None);
      var addr := st.creators[x].specs[0].link.value;
      var a := Ask();
      var reply := if a.done && CanReference(st.vpc, addr, x) then Done else Failed(a.applied);
      Act(LinkReply(x, reply));
      if reply.Failed? {
        assert Last().event == LinkReply(x, reply);
        return None;
      }
      ghost var since := |trace|;
      var ok := Resolve(x, addr);
      FailuresStay(own, own, answers, |old(trace)|, since, x);
      return if ok then Some(Vip(addr, Linked)) else None;
    }

    /** The Get of a linked address. */
    method Resolve(x: LbId, addr: AddressId) returns (ok: bool)
      requires Valid() && At(st, x, ResolveLink(addr)) && st.creators[x].specs != []
      modifies this`st, this`trace, this`asked, this`own
      ensures Valid() && old(trace) <= trace && old(own) <= own && x in st.creators
      ensures var c := old(st).creators[x];
        st.creators[x] == if ok then Acquired(c, Vip(addr, Linked)) else Failing(c)
      ensures !ok ==> GaveUp(own, answers, |old(trace)|, x)
    {
      hide Inv, Run, After, OwnOk;
      Yield(Some(x), None);
      var b := Ask();
      Act(GetReply(x, b.done));
      assert Last().event == GetReply(x, b.done);
      return b.done;
    }

    method AcquireFamilyVIP(x: LbId) returns (vip: Option<Vip>)
      requires Valid() && Acquiring(st, x)
      modifies this`st, this`trace, this`asked, this`own
      ensures Valid() && old(trace) <= trace && old(own) <= own && x in st.creators
      ensures vip.Some? ==>
        && st.creators[x] == Acquired(old(st).creators[x], vip.value)
        && Fits(old(st).creators[x].specs[0], vip.value)
      ensures vip == None ==>
        st.creators[x] == Failing(old(st).creators[x]) && GaveUp(own, answers, |old(trace)|, x)
    {
      hide GaveUp, Inv, Run, After, OwnOk;
      if st.creators[x].specs[0].link == None {
        vip := Allocate(x);
      } else {
        vip := AttachExisting(x);
      }
    }

    /** AttachVIP: the row gets the binding of the first family. */
    method PersistVIP(x: LbId) returns (ok: bool)
      requires Valid() && At(st, x, Persist) && st.creators[x].specs != []
      modifies this`st, this`trace, this`asked, this`own
      ensures Valid() && old(trace) <= trace && old(own) < own && x in st.creators
      ensures Last().event == Attach(x, ok) && Last().at == |trace| - 1 >= |old(trace)|
      ensures var c := old(st).creators[x];
        st.creators[x] == if ok then c.(specs := c.specs[1..], saved := c.saved + {c.specs[0].family}, pc := Acquire)
                          else Failing(c)
      ensures var c, before := old(st).creators[x], Last().before;
        ok ==>
          && x in before.rows && c.specs[0].family in c.held
          && st.rows == before.rows[x := before.rows[x].(
               vips := before.rows[x].vips[c.specs[0].family := c.held[c.specs[0].family]], updatedAt := before.now)]
      ensures !ok ==> !answers(Last().answer).done || !Writable(Last().before, x)
      ensures !ok ==> GaveUp(own, answers, |old(trace)|, x)
    {
      hide Inv, Run, After, OwnOk, Locked, CreatorOk;
      Yield(Some(x), None);
      var a := Ask();
      ok := a.done && CanAttach(st, x);
      CreatorIsOk(st, x);
      if a.done && !ok { AttachNeedsRow(st, x); }
      Act(Attach(x, ok));
      assert Last().event == Attach(x, ok);
    }

    /** The deferred compensation: each allocated family is released, errors are passed over, and
        the handle is deleted whatever happened. */
    method CompensateCreate(x: LbId)
      requires Valid() && x in st.creators && st.creators[x] == Failing(st.creators[x])
      modifies this`st, this`trace, this`asked, this`own
      ensures Valid() && old(trace) < trace && old(own) < own && x !in st.creators
      ensures DropsHandle(x)
      ensures CallFailed(own, answers, |old(trace)|) || AllReleased(Last().before, x, old(st).creators[x].held)
    {
      hide Inv, Run, After, OwnOk, Released, CallFailed, GaveUp;
      while st.creators[x].pc.left != {}
        invariant Valid() && old(trace) <= trace && old(own) <= own && x in st.creators
        invariant st.creators[x].pc.Compensate? && st.creators[x].pc.calls == []
        invariant st.creators[x].held == old(st).creators[x].held
        invariant st.creators[x].pc.failed == {} || CallFailed(own, answers, |old(trace)|)
        decreases st.creators[x].pc.left
      {
        ghost var mine := own;
        var family :| family in st.creators[x].pc.left;
        LeftIsHeld(st, x);
        Do(CompensatePick(x, family));
        ghost var since := |trace|;
        ReleaseAddress(x);
        FailuresStay(own, own, answers, |old(trace)|, since, x);
        FailuresStay(mine, own, answers, |old(trace)|, |old(trace)|, x);
      }
      ghost var mine := own;
      DropHandleOf(x);
      FailuresStay(mine, own, answers, |old(trace)|, |old(trace)|, x);
      OwnInv(Last());
      if Last().before.creators[x].pc.failed == {} { CompensatedAll(Last().before, x); }
    }

    lemma OwnInv(o: Own)
      requires Valid() && o in own
      ensures Inv(o.before)
    {
      hide Inv, Run, After;
    }

    /** The last step dropped x's creator, and its row unless the answer was an error or a runner
        held the row. */
    ghost predicate DropsHandle(x: LbId)
      requires own != []
      reads this
    {
      var ok := answers(Last().answer).done && !Locked(Last().before, x);
      && Last().at == |trace| - 1 && Last().event == DropHandle(x, ok)
      && st.rows == if ok then Last().before.rows - {x} else Last().before.rows
    }

    method DropHandleOf(x: LbId)
      requires Valid() && x in st.creators && st.creators[x].pc.Compensate?
      requires st.creators[x].pc.left == {} && st.creators[x].pc.calls == []
      modifies this`st, this`trace, this`asked, this`own
      ensures Valid() && old(trace) < trace && old(own) < own && x !in st.creators
      ensures DropsHandle(x)
      ensures x in Last().before.creators && Last().before.creators[x] == old(st).creators[x]
    {
      hide Inv, Run, After, OwnOk;
      Yield(Some(x), None);
      var a := Ask();
      Act(DropHandle(x, a.done && !Locked(st, x)));
    }

    /** The calls of one family; the first error skips the rest. */
    method ReleaseAddress(x: LbId)
      requires Valid() && x in st.creators && st.creators[x].pc.Compensate?
      modifies this`st, this`trace, this`asked, this`own
      ensures Valid() && old(trace) <= trace && old(own) <= own && x in st.creators && st.creators[x].pc.Compensate?
      ensures st.creators[x].held == old(st).creators[x].held
      ensures st.creators[x].pc.calls == [] && st.creators[x].pc.left == old(st).creators[x].pc.left
      ensures st.creators[x].pc.failed == old(st).creators[x].pc.failed || CallFailed(own, answers, |old(trace)|)
    {
      hide Inv, Run, After, OwnOk, CallFailed;
      while st.creators[x].pc.calls != []
        invariant Valid() && old(trace) <= trace && old(own) <= own && x in st.creators
        invariant st.creators[x].pc.Compensate? && st.creators[x].held == old(st).creators[x].held
        invariant st.creators[x].pc.left == old(st).creators[x].pc.left
        invariant st.creators[x].pc.failed == old(st).creators[x].pc.failed || CallFailed(own, answers, |old(trace)|)
        decreases |st.creators[x].pc.calls|
      {
        ghost var mine := own;
        ReleaseCall(x);
        FailuresStay(mine, own, answers, |old(trace)|, |old(trace)|, x);
        CallFailedLast(own, answers, |old(trace)|);
      }
    }

    method ReleaseCall(x: LbId)
      requires Valid() && x in st.creators && st.creators[x].pc.Compensate? && st.creators[x].pc.calls != []
      modifies this`st, this`trace, this`asked, this`own
      ensures Valid() && old(trace) < trace && old(own) < own && x in st.creators
      ensures Last().at >= |old(trace)|
      ensures var c := old(st).creators[x];
        || st.creators[x] == c.(pc := c.pc.(calls := c.pc.calls[1..]))
        || (CallRejected(Last(), answers(Last().answer))
            && st.creators[x] == c.(pc := c.pc.(calls := [], failed := c.pc.failed + {c.pc.cur})))
    {
      hide Inv, Run, After, OwnOk;
      Yield(Some(x), None);
      var a := Ask();
      var reply := if a.done && !Refused(st.vpc, st.creators[x].pc.calls[0]) then Done else Failed(a.applied);
      Act(CompensateCall(x, reply));
    }

    /** The create operation: insert the handle, acquire and persist each family, finalize; on any
        error, compensate. A finalized row is INACTIVE with the requested bindings; a creation that
        is not finalized was hindered. */
    method DoCreate(x: LbId, specs: seq<Spec>) returns (finalized: bool)
      requires Valid() && Enabled(st, Insert(x, specs))
      modifies this`st, this`trace, this`asked, this`own
      ensures Valid() && old(trace) < trace && old(own) < own && x !in st.creators
      ensures trace[|old(trace)|] == Insert(x, specs)
      ensures finalized ==> Finalizes(x) && x in st.rows && st.rows[x].families == Families(specs)
      ensures finalized ==> AsAsked(specs, st.rows[x].vips)
      ensures !finalized ==> DropsHandle(x)
      ensures !finalized ==> exists i ::
        && 0 <= i < |own| && |old(trace)| < own[i].at
        && Creates(own[i].event, x) && Fails(own[i].event, answers(own[i].answer))
        && Hindered(trace, |old(trace)|, own[i], answers(own[i].answer), x)
    {
      hide *;
      NowVisited();
      InsertIsFree(st, x, specs);
      Started(st, x, specs);
      Do(Insert(x, specs));
      ghost var s0, from, inserted := st, |trace| - 1, trace;
      NowVisited();
      finalized := AcquireAndFinalize(x, specs);
      assert trace[from] == inserted[from];
      if !finalized {
        ghost var mine := own;
        CompensateCreate(x);
        FailuresStay(mine, own, answers, |inserted|, |inserted|, x);
        VisitedLater(start, inserted, trace, |inserted|, s0);
        assert trace[from] == inserted[from];
        WhyItStopped(s0, from, x);
      }
    }

    lemma NowVisited()
      requires Valid()
      ensures Visited(start, trace, |trace|, st) && Inv(st)
    {
      hide Inv, Run, After, OwnOk;
      assert trace[..|trace|] == trace;
    }

    /** The body of the create operation up to the point where it succeeds or fails. */
    method AcquireAndFinalize(x: LbId, specs: seq<Spec>) returns (ok: bool)
      requires Valid() && x in st.creators && st.creators[x] == Creator(specs, map[], {}, Acquire)
      requires forall i, j :: 0 <= i < j < |specs| ==> specs[i].family != specs[j].family
      modifies this`st, this`trace, this`asked, this`own
      ensures Valid() && old(trace) <= trace && old(own) <= own
      ensures ok ==> old(own) < own && x !in st.creators && Finalizes(x) && x in st.rows
      ensures ok ==> st.rows[x].families == Families(specs) && AsAsked(specs, st.rows[x].vips)
      ensures !ok ==>
        x in st.creators && st.creators[x] == Failing(st.creators[x]) && GaveUp(own, answers, |old(trace)|, x)
    {
      hide Run, After, Inv, OwnOk, GaveUp, Finalizes, CallFailed, Fits, RowTaken;
      var acquired := AcquireAll(x, specs);
      if !acquired { return false; }
      ghost var since := |trace|;
      ok := FinalizeCreate(x);
      FailuresStay(own, own, answers, |old(trace)|, since, x);
    }

    lemma WhyItStopped(s0: State, from: nat, x: LbId)
      requires Valid() && Visited(start, trace, from + 1, s0) && Inv(s0) && x in s0.born && !RowTaken(s0, x)
      requires GaveUp(own, answers, from + 1, x)
      ensures exists i ::
        && 0 <= i < |own| && from < own[i].at
        && Creates(own[i].event, x) && Fails(own[i].event, answers(own[i].answer))
        && Hindered(trace, from, own[i], answers(own[i].answer), x)
    {
      hide Inv, OwnOk, Run, After, Hindered, RowTaken, Creates, Fails;
      var i :| 0 <= i < |own| && from + 1 <= own[i].at && Creates(own[i].event, x)
        && Fails(own[i].event, answers(own[i].answer));
      HinderedBy(start, trace, from, s0, own[i], answers, x);
    }

    /** The loop over the families; `held` is the worker's local map. */
    method AcquireAll(x: LbId, specs: seq<Spec>) returns (ok: bool)
      requires Valid() && x in st.creators && st.creators[x] == Creator(specs, map[], {}, Acquire)
      requires forall i, j :: 0 <= i < j < |specs| ==> specs[i].family != specs[j].family
      modifies this`st, this`trace, this`asked, this`own
      ensures Valid() && old(trace) <= trace && old(own) <= own && x in st.creators
      ensures ok ==> At(st, x, Acquire) && st.creators[x].specs == [] && AsAsked(specs, st.creators[x].held)
      ensures !ok ==> st.creators[x] == Failing(st.creators[x]) && GaveUp(own, answers, |old(trace)|, x)
    {
      hide Inv, Run, After, OwnOk, GaveUp, AsAsked, Fits;
      var held: map<Family, Vip> := map[];
      var i := 0;
      AskedNone(specs);
      while i < |specs|
        invariant i <= |specs| && Valid() && old(trace) <= trace && old(own) <= own && x in st.creators
        invariant st.creators[x].specs == specs[i..] && st.creators[x].held == held && st.creators[x].pc == Acquire
        invariant AsAsked(specs[..i], held)
      {
        ghost var since := |trace|;
        var vip := AcquireAndPersist(x);
        FailuresStay(own, own, answers, |old(trace)|, since, x);
        if vip == None { return false; }
        AskedNext(specs, i, held, vip.value);
        held := held[specs[i].family := vip.value];
        i := i + 1;
      }
      assert specs[..i] == specs;
      return true;
    }

    /** One pass of the loop: the first family is acquired, then persisted. */
    method AcquireAndPersist(x: LbId) returns (vip: Option<Vip>)
      requires Valid() && Acquiring(st, x)
      modifies this`st, this`trace, this`asked, this`own
      ensures Valid() && old(trace) <= trace && old(own) <= own && x in st.creators
      ensures var c := old(st).creators[x];
        vip.Some? ==>
          && Fits(c.specs[0], vip.value)
          && st.creators[x] == Creator(c.specs[1..], c.held[c.specs[0].family := vip.value],
                                       c.saved + {c.specs[0].family}, Acquire)
      ensures vip == None ==>
        st.creators[x] == Failing(st.creators[x]) && GaveUp(own, answers, |old(trace)|, x)
    {
      hide Inv, Run, After, OwnOk, GaveUp, CallFailed, Fits, RowTaken, CanAttach;
      vip := AcquireFamilyVIP(x);
      if vip == None { return; }
      ghost var since := |trace|;
      var saved := PersistVIP(x);
      FailuresStay(own, own, answers, |old(trace)|, since, x);
      if !saved { return None; }
    }

    /** The last step made x's row INACTIVE and emitted its two entries. */
    ghost predicate Finalizes(x: LbId)
      requires own != []
      reads this
    {
      var before := Last().before;
      && Last().at == |trace| - 1 && Last().event == Finalize(x, true) && x in before.rows
      && st.rows == before.rows[x := before.rows[x].(status := Inactive, updatedAt := before.now)]
      && st.log == before.log + [Created(x), Registered(x)]
    }

    /** The compare-and-swap from CREATING to INACTIVE. */
    method FinalizeCreate(x: LbId) returns (ok: bool)
      requires Valid() && At(st, x, Acquire) && st.creators[x].specs == []
      modifies this`st, this`trace, this`asked, this`own
      ensures Valid() && old(trace) < trace && old(own) < own
      ensures ok ==> x !in st.creators && Finalizes(x)
      ensures ok ==>
        && x in st.rows && st.rows[x].vips == old(st).creators[x].held
        && st.rows[x].families == old(st).creators[x].held.Keys
      ensures !ok ==>
        && Last().event == Finalize(x, false) && |old(trace)| <= Last().at == |trace| - 1
        && (!answers(Last().answer).done || RowTaken(Last().before, x))
      ensures !ok ==>
        && x in st.creators && st.creators[x] == Failing(old(st).creators[x])
        && GaveUp(own, answers, |old(trace)|, x)
    {
      hide Inv, Run, After, OwnOk, Locked;
      Yield(Some(x), None);
      var a := Ask();
      ok := a.done && Writable(st, x) && st.rows[x].status == Creating;
      if ok { AcquiredRow(st, x); }
      Act(Finalize(x, ok));
      assert Last().event == Finalize(x, ok);
    }

    // ---- delete and reconcile ----

    /** A releasing worker's remote calls, family by family. The first that fails ends the worker;
        a permanent error of the runner touches its row. */
    method ReleaseAllVips(w: WorkerId, permanent: bool) returns (ok: bool)
      requires Valid() && w in st.workers
      modifies this`st, this`trace, this`asked, this`own
      ensures Valid() && old(trace) <= trace && old(own) <= own
      ensures ok ==> w in st.workers && st.workers[w] == old(st).workers[w].(calls := [])
      ensures !ok ==>
        && w !in st.workers && old(own) < own && |old(trace)| <= Last().at == |trace| - 1
        && CallRejected(Last(), answers(Last().answer))
        && GivesUpRow(old(st).workers[w].kind, old(st).workers[w].lb, permanent)
    {
      hide Inv, Run, After, OwnOk, CallRejected, GivesUpRow;
      while st.workers[w].calls != []
        invariant Valid() && old(trace) <= trace && old(own) <= own && w in st.workers
        invariant st.workers[w] == old(st).workers[w].(calls := st.workers[w].calls)
        decreases |st.workers[w].calls|
      {
        var done := ReleaseWorkerCall(w, permanent);
        if !done { return false; }
      }
      return true;
    }

    /** The last step left the row as it was, except that a runner's permanent error touched it. */
    ghost predicate GivesUpRow(kind: Kind, x: LbId, permanent: bool)
      requires own != []
      reads this
    {
      var rows := Last().before.rows;
      && (kind == Deleter ==> st.rows == rows && (x in rows ==> rows[x].status == Deleting))
      && (kind == Runner ==>
            && x in rows
            && st.rows == if permanent then rows[x := rows[x].(updatedAt := Last().before.now)] else rows)
    }

    method ReleaseWorkerCall(w: WorkerId, permanent: bool) returns (ok: bool)
      requires Valid() && w in st.workers && st.workers[w].calls != []
      modifies this`st, this`trace, this`asked, this`own
      ensures Valid() && old(trace) < trace && old(own) < own && |old(trace)| <= Last().at == |trace| - 1
      ensures ok ==>
        && w in st.workers
        && st.workers[w] == old(st).workers[w].(calls := old(st).workers[w].calls[1..])
      ensures !ok ==>
        && w !in st.workers && CallRejected(Last(), answers(Last().answer))
        && GivesUpRow(old(st).workers[w].kind, old(st).workers[w].lb, permanent)
    {
      hide Inv, Run, After, OwnOk;
      Yield(None, Some(w));
      var a := Ask();
      var reply := if a.done && !Refused(st.vpc, st.workers[w].calls[0]) then Done else Failed(a.applied);
      WorkersRow(st, w);
      Act(WorkerCall(w, reply, permanent));
      return reply.Done?;
    }

    /** The delete operation: mark, release, then remove the row with its event and intent. It fails
        on a row it cannot write, a release call, or the last transaction; the row then stays
        DELETING. */
    method DoDelete(w: WorkerId, x: LbId) returns (ok: bool)
      requires Valid() && w !in st.workers
      modifies this`st, this`trace, this`asked, this`own
      ensures Valid() && old(trace) <= trace && old(own) <= own && w !in st.workers
      ensures !Writable(old(st), x) ==> !ok && st == old(st)
      ensures Writable(old(st), x) ==>
        && old(own) < own && |old(trace)| < Last().at == |trace| - 1
        && trace[|old(trace)|] == Mark(w, x)
      ensures ok ==>
        && Last().event == WorkerFinish(w, true) && st.rows == Last().before.rows - {x}
        && AllReleased(Last().before, x, old(st).rows[x].vips)
        && st.log == Last().before.log + [Deleted(x), Unregistered(x)]
      ensures !ok && Writable(old(st), x) ==>
        && (|| CallRejected(Last(), answers(Last().answer))
            || (Last().event == WorkerFinish(w, false)
                && (!answers(Last().answer).done || x !in Last().before.rows || Locked(Last().before, x))))
        && st.rows == Last().before.rows && (x in st.rows ==> st.rows[x].status == Deleting)
    {
      hide Inv, Run, After, OwnOk, CallRejected, AllReleased, Locked;
      if !Writable(st, x) { return false; }
      Do(Mark(w, x));
      ghost var marked := trace;
      var released := ReleaseAllVips(w, false);
      assert trace[|marked| - 1] == marked[|marked| - 1];
      if !released { return false; }
      ok := Finish(w, x);
      assert trace[|marked| - 1] == marked[|marked| - 1];
    }

    /** The last transaction of a worker that has released everything. */
    method Finish(w: WorkerId, x: LbId) returns (ok: bool)
      requires Valid() && w in st.workers && st.workers[w].calls == [] && st.workers[w].lb == x
      modifies this`st, this`trace, this`asked, this`own
      ensures Valid() && old(trace) < trace && old(own) < own && w !in st.workers
      ensures Last().event == WorkerFinish(w, ok) && |old(trace)| <= Last().at == |trace| - 1
      ensures var k, before := old(st).workers[w], Last().before;
        && AllReleased(before, x, k.vips)
        && (k.kind == Deleter && x in before.rows ==> before.rows[x].status == Deleting)
        && (ok ==>
              && x in before.rows && st.rows == before.rows - {x}
              && st.log == before.log + if before.rows[x].status == Deleting then [Deleted(x), Unregistered(x)] else [])
        && (!ok ==>
              && st.rows == before.rows && st.log == before.log
              && (!answers(Last().answer).done || (k.kind == Deleter && (x !in before.rows || Locked(before, x)))))
    {
      hide Inv, Run, After, OwnOk, AllReleased, Locked;
      Yield(None, Some(w));
      WorkedOff(st, w);
      WorkersRow(st, w);
      var a := Ask();
      ok := a.done && x in st.rows && (st.workers[w].kind == Deleter ==> !Locked(st, x));
      Act(WorkerFinish(w, ok));
    }

    /** One claimed row of the runner: release, then delete the handle, in the claim's transaction.
        A permanent error bumps the row, any other leaves it as it was. */
    method ReconcileOne(w: WorkerId, x: LbId, permanent: bool) returns (ok: bool)
      requires Valid() && Enabled(st, Claim(w, x))
      modifies this`st, this`trace, this`asked, this`own
      ensures Valid() && old(trace) < trace && old(own) < own && w !in st.workers
      ensures trace[|old(trace)|] == Claim(w, x) && |old(trace)| < Last().at == |trace| - 1
      ensures ok ==>
        && Last().event == WorkerFinish(w, true) && st.rows == Last().before.rows - {x}
        && x in Last().before.rows && AllReleased(Last().before, x, old(st).rows[x].vips)
        && st.log == Last().before.log
             + if Last().before.rows[x].status == Deleting then [Deleted(x), Unregistered(x)] else []
      ensures !ok ==>
        || (CallRejected(Last(), answers(Last().answer))
            && GivesUpRow(Runner, x, permanent))
        || (Last().event == WorkerFinish(w, false) && !answers(Last().answer).done && st.rows == Last().before.rows)
    {
      hide Inv, Run, After, OwnOk, CallRejected, AllReleased, Locked;
      Do(Claim(w, x));
      ghost var claimed := trace;
      var released := ReleaseAllVips(w, permanent);
      assert trace[|claimed| - 1] == claimed[|claimed| - 1];
      if !released { return false; }
      ok := Finish(w, x);
      assert trace[|claimed| - 1] == claimed[|claimed| - 1];
    }
  }
}
