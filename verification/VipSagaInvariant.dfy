/** What every reachable state of the saga satisfies, with no assumption on scheduling. */
module VipSagaInvariant {
  import opened Domain
  import opened Vpc
  import opened VipSaga

  // ---- one binding of load balancer x ----

  /** A binding made by Create is auto or linked; an auto address was ordered for x itself, a
      linked one was not. */
  ghost predicate VipOk(s: State, x: LbId, vip: Vip) {
    && vip.origin in {Auto, Linked}
    && vip.addr in s.used
    && (vip.addr in s.vpc ==> (vip.origin == Auto <==> s.vpc[vip.addr].maker == Some(x)))
  }

  ghost predicate VipsOk(s: State, x: LbId, vips: map<Family, Vip>) {
    forall f :: f in vips ==> VipOk(s, x, vips[f])
  }

  /** x has nothing left to give back for this binding. */
  ghost predicate Released(s: State, x: LbId, vip: Vip) {
    vip.addr in s.vpc ==> vip.origin == Linked && s.vpc[vip.addr].referrer != Some(ByLb(x))
  }

  /** The call that completes the release is still to be made. */
  ghost predicate Pending(vip: Vip, calls: seq<Call>) {
    (if vip.origin == Auto then FreeIP(vip.addr) else ClearReference(vip.addr)) in calls
  }

  /** Calls only touch the given bindings, and FreeIP only auto ones. */
  ghost predicate CallsFor(vips: map<Family, Vip>, calls: seq<Call>) {
    forall c :: c in calls ==> exists f :: f in vips && CallFor(vips[f], c)
  }

  ghost predicate CallFor(vip: Vip, call: Call) {
    vip.addr == call.addr && (call.FreeIP? ==> vip.origin == Auto)
  }

  ghost predicate Within(part: map<Family, Vip>, whole: map<Family, Vip>) {
    forall f :: f in part ==> f in whole && part[f] == whole[f]
  }

  // ---- the parts of the invariant ----

  ghost predicate VpcOk(s: State) {
    forall a :: a in s.vpc ==>
      && a in s.used
      && (s.vpc[a].maker.Some? ==> s.vpc[a].maker.value in s.born)
      && (s.vpc[a].referrer.Some? && s.vpc[a].referrer.value.ByLb? ==> s.vpc[a].referrer.value.lb in s.born)
  }

  ghost predicate RowOk(s: State, x: LbId)
    requires x in s.rows
  {
    var row := s.rows[x];
    && x in s.born
    && VipsOk(s, x, row.vips)
    && (row.status == Deleting ==> x in s.marked)
    && (row.status !in {Creating, Deleting} ==> x !in s.creators && row.vips.Keys == row.families)
  }

  /** The links still to be set name no address of x. */
  ghost predicate SpecsOk(s: State, x: LbId, c: Creator, specs: seq<Spec>) {
    && (specs != [] ==> ValidSpecs(s.used, specs))
    && (forall i :: 0 <= i < |specs| && specs[i].link.Some? ==>
          && specs[i].link.value !in Addrs(c.held)
          && (specs[i].link.value in s.vpc ==> s.vpc[specs[i].link.value].maker != Some(x)))
    && (forall i :: 0 <= i < |specs| ==> specs[i].family !in c.held)
  }

  ghost predicate Unset(s: State, x: LbId, specs: seq<Spec>) {
    forall i :: 0 <= i < |specs| && specs[i].link.Some? && specs[i].link.value in s.vpc ==>
      s.vpc[specs[i].link.value].referrer != Some(ByLb(x))
  }

  /** What the program counter says about the creator's local variables. */
  ghost predicate PcOk(s: State, x: LbId, c: Creator) {
    match c.pc
    case Acquire => c.held.Keys == c.saved && SpecsOk(s, x, c, c.specs) && Unset(s, x, c.specs)
    case SetRef(a) => FreshOk(s, x, c, a)
    case UndoAlloc(a) => FreshOk(s, x, c, a)
    case ResolveLink(a) =>
      && c.held.Keys == c.saved && SpecsOk(s, x, c, c.specs)
      && c.specs != [] && c.specs[0].link == Some(a) && Unset(s, x, c.specs[1..])
    case Persist =>
      && c.specs != [] && c.held.Keys == c.saved + {c.specs[0].family} && c.specs[0].family !in c.saved
      && c.specs[0].link in {None, Some(c.held[c.specs[0].family].addr)}
      && SpecsOk(s, x, c, c.specs[1..]) && Unset(s, x, c.specs[1..])
    case Compensate(left, cur, calls, failed) =>
      && left <= c.held.Keys && failed <= c.held.Keys
      && (calls != [] ==> cur in c.held && forall call :: call in calls ==> CallFor(c.held[cur], call))
      && Progress(s, x, c.held, left + failed, cur, calls)
  }

  /** Every family is still to be handled, has failed, is in hand, or is released. */
  ghost predicate Progress(s: State, x: LbId, held: map<Family, Vip>, open: set<Family>, cur: Family,
                           calls: seq<Call>) {
    forall f :: f in held ==>
      f in open || (calls != [] && f == cur && Pending(held[f], calls)) || Released(s, x, held[f])
  }

  /** A new address whose reference is not confirmed yet. */
  ghost predicate FreshOk(s: State, x: LbId, c: Creator, a: AddressId) {
    && c.held.Keys == c.saved && SpecsOk(s, x, c, c.specs) && Unset(s, x, c.specs)
    && c.specs != [] && c.specs[0].link == None
    && a in s.used && a !in Addrs(c.held) && (a in s.vpc ==> s.vpc[a].maker == Some(x))
    && forall i :: 0 <= i < |c.specs| ==> c.specs[i].link != Some(a)
  }

  ghost predicate CreatorOk(s: State, x: LbId)
    requires x in s.creators
  {
    var c := s.creators[x];
    && x in s.born
    && VipsOk(s, x, c.held)
    && c.saved <= c.held.Keys
    && PcOk(s, x, c)
    && (x in s.rows ==>
          && s.rows[x].vips.Keys == c.saved && Within(s.rows[x].vips, c.held)
          && (!c.pc.Compensate? ==> s.rows[x].families == c.saved + Families(c.specs)))
    // the row disappeared although no Delete marked it: a runner took it, and released what it named
    && (x !in s.rows && x !in s.marked ==> forall f :: f in c.saved ==> Released(s, x, c.held[f]))
  }

  ghost predicate WorkerOk(s: State, w: WorkerId)
    requires w in s.workers
  {
    var k := s.workers[w];
    && k.lb in s.born
    && VipsOk(s, k.lb, k.vips)
    && CallsFor(k.vips, k.calls)
    && (forall f :: f in k.vips ==> Pending(k.vips[f], k.calls) || Released(s, k.lb, k.vips[f]))
    && (k.lb in s.rows ==> Within(k.vips, s.rows[k.lb].vips))
    && (k.lb in s.creators ==> Within(k.vips, s.creators[k.lb].held))
    && (k.kind == Deleter ==> k.lb in s.marked && (k.lb in s.rows ==> s.rows[k.lb].status == Deleting))
    && (k.kind == Runner ==>
          && k.lb in s.rows && s.rows[k.lb].vips == k.vips && s.rows[k.lb].status in {Creating, Deleting}
          && forall v :: v in s.workers && v != w && s.workers[v].kind == Runner ==> s.workers[v].lb != k.lb)
  }

  ghost predicate RowsOk(s: State) { forall x :: x in s.rows ==> RowOk(s, x) }
  ghost predicate CreatorsOk(s: State) { forall x :: x in s.creators ==> CreatorOk(s, x) }
  ghost predicate WorkersOk(s: State) { forall w :: w in s.workers ==> WorkerOk(s, w) }

  ghost predicate Inv(s: State) {
    VpcOk(s) && RowsOk(s) && CreatorsOk(s) && WorkersOk(s)
  }

  lemma InitInv(age: nat)
    ensures Inv(Init(age))
  {}

  // ---- what a step may do to the address service ----

  datatype Gain = Gain(lb: LbId, addr: AddressId)

  /** Addresses are never reissued or re-owned, and the only reference a step adds for a load
      balancer is `gain`. */
  ghost predicate Evolves(s: State, t: State, gain: Option<Gain>) {
    && VpcOk(t) && s.used <= t.used && s.born <= t.born && s.marked <= t.marked
    && (forall b :: b in t.vpc && b in s.used ==> b in s.vpc && t.vpc[b].maker == s.vpc[b].maker)
    && (forall b :: b in t.vpc && b in s.used ==>
          || t.vpc[b].referrer == s.vpc[b].referrer
          || t.vpc[b].referrer in {None, Some(ByOther)}
          || (gain.Some? && b == gain.value.addr && t.vpc[b].referrer == Some(ByLb(gain.value.lb))))
  }

  /** The row of y keeps its bindings. */
  ghost predicate SameBinding(s: State, t: State, y: LbId) {
    && (y in s.rows <==> y in t.rows)
    && (y in s.rows ==> t.rows[y].vips == s.rows[y].vips && t.rows[y].families == s.rows[y].families)
  }

  /** The row of y keeps its status and bindings. */
  ghost predicate SameRow(s: State, t: State, y: LbId) {
    SameBinding(s, t, y) && (y in s.rows ==> t.rows[y].status == s.rows[y].status)
  }

  lemma Grows(s: State, t: State, gain: Option<Gain>)
    requires Evolves(s, t, gain)
    ensures s.used <= t.used && s.born <= t.born && s.marked <= t.marked
  {}

  lemma KeepVips(s: State, t: State, gain: Option<Gain>, y: LbId, vips: map<Family, Vip>)
    requires Evolves(s, t, gain) && VipsOk(s, y, vips)
    ensures VipsOk(t, y, vips)
    ensures forall f :: f in vips && gain != Some(Gain(y, vips[f].addr)) && Released(s, y, vips[f]) ==>
      Released(t, y, vips[f])
  {}

  lemma KeepRow(s: State, t: State, gain: Option<Gain>, y: LbId)
    requires Evolves(s, t, gain) && SameRow(s, t, y)
    requires y in s.rows && RowOk(s, y) && (y in t.creators ==> y in s.creators)
    ensures RowOk(t, y)
  {}

  lemma KeepSpecs(s: State, t: State, gain: Option<Gain>, y: LbId, c: Creator, specs: seq<Spec>)
    requires Evolves(s, t, gain) && (gain.Some? ==> gain.value.lb != y)
    ensures SpecsOk(s, y, c, specs) ==> SpecsOk(t, y, c, specs)
    ensures SpecsOk(s, y, c, specs) && Unset(s, y, specs) ==> Unset(t, y, specs)
  {}

  lemma KeepUnset(s: State, t: State, gain: Option<Gain>, y: LbId, c: Creator)
    requires Evolves(s, t, gain) && (gain.Some? ==> gain.value.lb != y)
    requires c.specs != [] && SpecsOk(s, y, c, c.specs) && Unset(s, y, c.specs[1..])
    ensures Unset(t, y, c.specs[1..])
  {
    var rest := c.specs[1..];
    assert forall i :: 0 <= i < |rest| ==> rest[i] == c.specs[i + 1];
  }

  lemma KeepProgress(s: State, t: State, gain: Option<Gain>, y: LbId, held: map<Family, Vip>, open: set<Family>,
                     cur: Family, calls: seq<Call>)
    requires Evolves(s, t, gain) && (gain.Some? ==> gain.value.lb != y) && VipsOk(s, y, held)
    requires Progress(s, y, held, open, cur, calls)
    ensures Progress(t, y, held, open, cur, calls)
  {
    KeepVips(s, t, gain, y, held);
  }

  lemma KeepFresh(s: State, t: State, gain: Option<Gain>, y: LbId, c: Creator, a: AddressId)
    requires Evolves(s, t, gain) && (gain.Some? ==> gain.value.lb != y) && FreshOk(s, y, c, a)
    ensures FreshOk(t, y, c, a)
  {
    hide SpecsOk, Unset;
    KeepSpecs(s, t, gain, y, c, c.specs);
  }

  lemma KeepPc(s: State, t: State, gain: Option<Gain>, y: LbId, c: Creator)
    requires Evolves(s, t, gain) && (gain.Some? ==> gain.value.lb != y) && VipsOk(s, y, c.held) && PcOk(s, y, c)
    ensures PcOk(t, y, c)
  {
    hide SpecsOk, Unset, FreshOk, Progress, VipsOk, Evolves;
    match c.pc
    case Acquire => KeepSpecs(s, t, gain, y, c, c.specs);
    case SetRef(a) => KeepFresh(s, t, gain, y, c, a);
    case UndoAlloc(a) => KeepFresh(s, t, gain, y, c, a);
    case ResolveLink(_) =>
      KeepSpecs(s, t, gain, y, c, c.specs);
      KeepUnset(s, t, gain, y, c);
    case Persist => KeepSpecs(s, t, gain, y, c, c.specs[1..]);
    case Compensate(left, cur, calls, failed) => KeepProgress(s, t, gain, y, c.held, left + failed, cur, calls);
  }

  lemma KeepCreator(s: State, t: State, gain: Option<Gain>, y: LbId)
    requires Evolves(s, t, gain) && (gain.Some? ==> gain.value.lb != y) && SameBinding(s, t, y)
    requires y in s.creators && CreatorOk(s, y) && y in t.creators && t.creators[y] == s.creators[y]
    ensures CreatorOk(t, y)
  {
    hide PcOk, VipsOk, Released;
    KeepVips(s, t, gain, y, s.creators[y].held);
    KeepPc(s, t, gain, y, s.creators[y]);
  }

  /** A worker's local state stays right while its row does and its creator only acquires more. */
  lemma KeepWorker(s: State, t: State, gain: Option<Gain>, w: WorkerId)
    requires Evolves(s, t, gain) && w in s.workers && WorkerOk(s, w) && w in t.workers && t.workers[w] == s.workers[w]
    requires var y := s.workers[w].lb;
      && SameRow(s, t, y) && (forall f :: f in s.workers[w].vips ==> gain != Some(Gain(y, s.workers[w].vips[f].addr)))
      && (y in t.creators ==> y in s.creators && Within(s.creators[y].held, t.creators[y].held))
    requires forall v ::
      v in t.workers && v != w && t.workers[v].kind == Runner && t.workers[v].lb == s.workers[w].lb ==>
        v in s.workers && s.workers[v].kind == Runner && s.workers[v].lb == t.workers[v].lb
    ensures WorkerOk(t, w)
  {
    hide VipsOk, CallsFor, Pending, Released;
    KeepVips(s, t, gain, s.workers[w].lb, s.workers[w].vips);
  }

  /** A delete worker of x, whatever became of x's row and creator, as long as what it captured is
      still theirs. */
  lemma KeepDeleter(s: State, t: State, w: WorkerId)
    requires Evolves(s, t, None) && w in s.workers && WorkerOk(s, w) && s.workers[w].kind == Deleter
    requires w in t.workers && t.workers[w] == s.workers[w]
    requires var y := s.workers[w].lb;
      && (y in t.rows ==> Within(s.workers[w].vips, t.rows[y].vips) && t.rows[y].status == Deleting)
      && (y in t.creators ==> Within(s.workers[w].vips, t.creators[y].held))
    ensures WorkerOk(t, w)
  {
    hide VipsOk, CallsFor, Pending, Released, Within;
    KeepVips(s, t, None, s.workers[w].lb, s.workers[w].vips);
  }

  /** Everything that is not x's is as it was. */
  ghost predicate OthersSame(s: State, t: State, x: LbId) {
    && (forall y :: y != x ==> SameRow(s, t, y))
    && (forall y :: y != x ==>
          (y in s.creators <==> y in t.creators) && (y in s.creators ==> t.creators[y] == s.creators[y]))
    && (forall w :: w in t.workers && t.workers[w].lb != x ==> w in s.workers && s.workers[w] == t.workers[w])
  }

  ghost predicate XOk(t: State, x: LbId) {
    && (x in t.rows ==> RowOk(t, x))
    && (x in t.creators ==> CreatorOk(t, x))
    && (forall w :: w in t.workers && t.workers[w].lb == x ==> WorkerOk(t, w))
  }

  /** A step of x's workers only has to look after x. */
  lemma OnlyX(s: State, t: State, x: LbId, gain: Option<Gain>)
    requires Inv(s) && Evolves(s, t, gain) && (gain.Some? ==> gain.value.lb == x)
    requires OthersSame(s, t, x) && XOk(t, x)
    ensures Inv(t)
  {
    hide RowOk, CreatorOk, WorkerOk, SameBinding, VpcOk;
    assert VpcOk(t) by { VpcAfter(s, t, gain); }
    forall y | y in t.rows && y != x ensures RowOk(t, y) {
      assert SameRow(s, t, y);
      OtherRow(s, t, x, gain, y);
    }
    forall y | y in t.creators && y != x ensures CreatorOk(t, y) {
      OtherCreator(s, t, x, gain, y);
    }
    forall w | w in t.workers && t.workers[w].lb != x ensures WorkerOk(t, w) {
      OtherWorker(s, t, x, gain, w);
    }
  }

  lemma VpcAfter(s: State, t: State, gain: Option<Gain>)
    requires Evolves(s, t, gain)
    ensures VpcOk(t)
  {}

  lemma OtherRow(s: State, t: State, x: LbId, gain: Option<Gain>, y: LbId)
    requires RowsOk(s) && Evolves(s, t, gain) && OthersSame(s, t, x) && y in t.rows && y != x
    ensures RowOk(t, y)
  {
    hide Evolves, RowOk;
    assert SameRow(s, t, y);
    assert y in s.rows && RowOk(s, y);
    KeepRow(s, t, gain, y);
  }

  lemma OtherCreator(s: State, t: State, x: LbId, gain: Option<Gain>, y: LbId)
    requires CreatorsOk(s) && Evolves(s, t, gain) && (gain.Some? ==> gain.value.lb == x)
    requires OthersSame(s, t, x) && y in t.creators && y != x
    ensures CreatorOk(t, y)
  {
    hide Evolves, CreatorOk;
    assert SameRow(s, t, y);
    KeepCreator(s, t, gain, y);
  }

  lemma OtherWorker(s: State, t: State, x: LbId, gain: Option<Gain>, w: WorkerId)
    requires WorkersOk(s) && Evolves(s, t, gain) && (gain.Some? ==> gain.value.lb == x)
    requires OthersSame(s, t, x) && w in t.workers && t.workers[w].lb != x
    ensures WorkerOk(t, w)
  {
    hide Evolves, WorkerOk;
    assert SameRow(s, t, t.workers[w].lb);
    KeepWorker(s, t, gain, w);
  }

  /** Only x's creator moved. */
  ghost predicate CreatorMoves(s: State, t: State, x: LbId) {
    && t.rows == s.rows && t.workers == s.workers
    && x in s.creators && x in t.creators && t.creators == s.creators[x := t.creators[x]]
  }

  lemma CreatorFrame(s: State, t: State, x: LbId)
    requires CreatorMoves(s, t, x)
    ensures OthersSame(s, t, x) && SameRow(s, t, x)
  {}

  /** The workers of x are untouched: only the creator of x is left to check. */
  lemma OnlyCreator(s: State, t: State, x: LbId, gain: Option<Gain>)
    requires Inv(s) && Evolves(s, t, gain) && (gain.Some? ==> gain.value.lb == x)
    requires CreatorMoves(s, t, x) && CreatorOk(t, x)
    requires Within(s.creators[x].held, t.creators[x].held)
    requires gain.Some? ==> gain.value.addr !in Addrs(s.creators[x].held)
    ensures Inv(t)
  {
    hide Evolves, RowOk, CreatorOk, WorkerOk, OthersSame, SameRow, VpcOk, Within;
    CreatorFrame(s, t, x);
    if x in t.rows { KeepRow(s, t, gain, x); }
    forall w | w in t.workers && t.workers[w].lb == x ensures WorkerOk(t, w) {
      UngainedWorker(s, t, x, gain, w);
    }
    OnlyX(s, t, x, gain);
  }

  lemma UngainedWorker(s: State, t: State, x: LbId, gain: Option<Gain>, w: WorkerId)
    requires WorkersOk(s) && Evolves(s, t, gain) && t.workers == s.workers && SameRow(s, t, x)
    requires w in s.workers && s.workers[w].lb == x && x in s.creators && x in t.creators
    requires Within(s.creators[x].held, t.creators[x].held)
    requires gain.Some? ==> gain.value.addr !in Addrs(s.creators[x].held)
    ensures WorkerOk(t, w)
  {
    hide Evolves, VipsOk, CallsFor, Pending, Released;
    assert WorkerOk(s, w);
    forall f | f in s.workers[w].vips ensures gain != Some(Gain(x, s.workers[w].vips[f].addr)) {
      assert s.creators[x].held[f] == s.workers[w].vips[f];
    }
    KeepWorker(s, t, gain, w);
  }

  /** Only worker w of x moved, or left. */
  lemma OnlyWorker(s: State, t: State, x: LbId, w: WorkerId)
    requires Inv(s) && Evolves(s, t, None) && t.creators == s.creators
    requires forall y :: SameRow(s, t, y)
    requires w in s.workers && s.workers[w].lb == x
    requires forall v :: v in t.workers && v != w ==> v in s.workers && t.workers[v] == s.workers[v]
    requires w in t.workers ==> t.workers[w].lb == x && t.workers[w].kind == s.workers[w].kind && WorkerOk(t, w)
    ensures Inv(t)
  {
    hide Evolves, RowOk, CreatorOk, WorkerOk;
    assert SameRow(s, t, x);
    if x in t.rows { KeepRow(s, t, None, x); }
    if x in t.creators { KeepCreator(s, t, None, x); }
    forall v | v in t.workers && t.workers[v].lb == x && v != w ensures WorkerOk(t, v) {
      KeepWorker(s, t, None, v);
    }
    OnlyX(s, t, x, None);
  }

  // ---- the create worker ----

  lemma InsertFrame(s: State, x: LbId, specs: seq<Spec>)
    requires VpcOk(s) && Enabled(s, Insert(x, specs)) && x !in s.creators && x !in s.rows
    ensures var t := Next(s, Insert(x, specs));
      && Evolves(s, t, None) && OthersSame(s, t, x) && t.workers == s.workers
      && x in t.rows && t.rows[x] == Row(Creating, Families(specs), map[], s.now) && x in t.born
      && x in t.creators && t.creators[x] == Creator(specs, map[], {}, Acquire)
      && t.vpc == s.vpc && t.used == s.used
  {}

  lemma InsertedOk(s: State, t: State, x: LbId, specs: seq<Spec>)
    requires VpcOk(s) && x !in s.born && ValidSpecs(s.used, specs) && x in t.born && t.vpc == s.vpc && t.used == s.used
    requires x in t.rows && t.rows[x].status == Creating
    requires t.rows[x].vips == map[] && t.rows[x].families == Families(specs)
    requires x in t.creators && t.creators[x] == Creator(specs, map[], {}, Acquire)
    ensures RowOk(t, x) && CreatorOk(t, x)
  {
    var c := t.creators[x];
    assert Addrs(c.held) == {};
    forall i | 0 <= i < |specs| && specs[i].link.Some? && specs[i].link.value in s.vpc
      ensures s.vpc[specs[i].link.value].maker != Some(x) && s.vpc[specs[i].link.value].referrer != Some(ByLb(x))
    {
    }
    assert SpecsOk(t, x, c, specs);
  }

  lemma NotBorn(s: State, x: LbId)
    requires Inv(s) && x !in s.born
    ensures x !in s.creators && x !in s.rows && forall w :: w in s.workers ==> s.workers[w].lb != x
  {}

  lemma StepInsert(s: State, x: LbId, specs: seq<Spec>)
    requires Inv(s) && Enabled(s, Insert(x, specs))
    ensures Inv(Next(s, Insert(x, specs)))
  {
    var t := Next(s, Insert(x, specs));
    NotBorn(s, x);
    hide Evolves, OthersSame, RowOk, CreatorOk, WorkerOk, VpcOk, Next;
    InsertFrame(s, x, specs);
    InsertedOk(s, t, x, specs);
    OnlyX(s, t, x, None);
  }

  /** The deferred compensation has every allocated family still to release. */
  lemma FailingOk(s: State, t: State, x: LbId, gain: Option<Gain>)
    requires Evolves(s, t, gain) && t.rows == s.rows
    requires x in s.creators && CreatorOk(s, x) && !s.creators[x].pc.Compensate?
    requires gain.Some? ==> gain.value.addr !in Addrs(s.creators[x].held)
    requires x in t.creators && t.creators[x] == Failing(s.creators[x])
    ensures CreatorOk(t, x)
  {
    hide VipsOk, Evolves, Released;
    var c := s.creators[x];
    Grows(s, t, gain);
    KeepVips(s, t, gain, x, c.held);
    assert forall f :: f in c.held ==> c.held[f].addr in Addrs(c.held);
    assert Progress(t, x, c.held, c.held.Keys + {}, V4, []);
  }

  /** An error before finalize: what the call did to the address service, and compensation. */
  lemma StepFail(s: State, t: State, x: LbId, gain: Option<Gain>)
    requires Inv(s) && Evolves(s, t, gain) && (gain.Some? ==> gain.value.lb == x) && CreatorMoves(s, t, x)
    requires !s.creators[x].pc.Compensate? && t.creators[x] == Failing(s.creators[x])
    requires gain.Some? ==> gain.value.addr !in Addrs(s.creators[x].held)
    ensures Inv(t)
  {
    hide Evolves, CreatorOk, RowsOk, WorkersOk, VpcOk;
    FailingOk(s, t, x, gain);
    OnlyCreator(s, t, x, gain);
  }

  lemma QuietFrame(s: State, x: LbId)
    requires VpcOk(s) && x in s.creators
    ensures Evolves(s, Set(s, x, Failing(s.creators[x])), None)
  {}

  lemma StepFailQuiet(s: State, x: LbId)
    requires Inv(s) && x in s.creators && !s.creators[x].pc.Compensate?
    ensures Inv(Set(s, x, Failing(s.creators[x])))
  {
    hide Evolves, RowsOk, CreatorsOk, WorkersOk, VpcOk;
    QuietFrame(s, x);
    StepFail(s, Set(s, x, Failing(s.creators[x])), x, None);
  }

  lemma OrphanedFrame(s: State, x: LbId, a: AddressId, retried: bool)
    requires VpcOk(s) && x in s.born && Enabled(s, AllocOrphaned(x, a, retried))
    ensures var t := Next(s, AllocOrphaned(x, a, retried));
      Evolves(s, t, None) && CreatorMoves(s, t, x)
      && t.creators[x] == if retried then s.creators[x] else Failing(s.creators[x])
  {}

  lemma CreatorBorn(s: State, x: LbId)
    requires Inv(s) && x in s.creators
    ensures x in s.born && CreatorOk(s, x) && VpcOk(s)
  {}

  lemma StepOrphaned(s: State, x: LbId, a: AddressId, retried: bool)
    requires Inv(s) && Enabled(s, AllocOrphaned(x, a, retried))
    ensures Inv(Next(s, AllocOrphaned(x, a, retried)))
  {
    hide Inv, Evolves, CreatorOk, VpcOk, SameRow, OthersSame, Next;
    var t := Next(s, AllocOrphaned(x, a, retried));
    CreatorBorn(s, x);
    OrphanedFrame(s, x, a, retried);
    if retried {
      KeepCreator(s, t, None, x);
      OnlyCreator(s, t, x, None);
    } else {
      StepFail(s, t, x, None);
    }
  }

  lemma AllocFrame(s: State, x: LbId, a: AddressId)
    requires VpcOk(s) && x in s.born && Enabled(s, AllocCreated(x, a))
    ensures var t := Next(s, AllocCreated(x, a));
      && Evolves(s, t, None) && CreatorMoves(s, t, x) && t.creators[x] == s.creators[x].(pc := SetRef(a))
      && a in t.used && a in t.vpc && t.vpc[a].maker == Some(x) && s.creators[x].specs[0].link == None
  {}

  lemma AllocatedOk(s: State, t: State, x: LbId, a: AddressId)
    requires Evolves(s, t, None) && t.rows == s.rows && x in s.creators && CreatorOk(s, x)
    requires s.creators[x].pc == Acquire && s.creators[x].specs != [] && s.creators[x].specs[0].link == None
    requires x in t.creators && t.creators[x] == s.creators[x].(pc := SetRef(a))
    requires a !in s.used && a in t.used && a in t.vpc && t.vpc[a].maker == Some(x)
    ensures CreatorOk(t, x)
  {
    hide Released, Evolves;
    var c := s.creators[x];
    Grows(s, t, None);
    KeepVips(s, t, None, x, c.held);
    KeepSpecs(s, t, None, x, c, c.specs);
  }

  lemma StepAlloc(s: State, x: LbId, a: AddressId)
    requires Inv(s) && Enabled(s, AllocCreated(x, a))
    ensures Inv(Next(s, AllocCreated(x, a)))
  {
    hide Inv, Evolves, CreatorOk, VpcOk, Next;
    CreatorBorn(s, x);
    AllocFrame(s, x, a);
    AllocatedOk(s, Next(s, AllocCreated(x, a)), x, a);
    OnlyCreator(s, Next(s, AllocCreated(x, a)), x, None);
  }

  lemma AcquiredSpecs(s: State, x: LbId, c: Creator, vip: Vip)
    requires c.specs != [] && SpecsOk(s, x, c, c.specs)
    requires forall i :: 1 <= i < |c.specs| ==> c.specs[i].link != Some(vip.addr)
    ensures SpecsOk(s, x, Acquired(c, vip), c.specs[1..])
  {}

  /** The links still to be set are those of the specs after the first. */
  lemma KeepRest(s: State, t: State, gain: Option<Gain>, x: LbId, c: Creator, d: Creator, vip: Vip)
    requires Evolves(s, t, gain) && gain in {None, Some(Gain(x, vip.addr))} && c.specs != []
    requires SpecsOk(s, x, d, c.specs[1..]) && Unset(s, x, c.specs[1..])
    requires forall i :: 1 <= i < |c.specs| ==> c.specs[i].link != Some(vip.addr)
    ensures SpecsOk(t, x, d, c.specs[1..]) && Unset(t, x, c.specs[1..])
  {
    var rest := c.specs[1..];
    assert forall i :: 0 <= i < |rest| ==> rest[i] == c.specs[i + 1];
  }

  /** What the program counter before says about the acquired binding. */
  lemma AboutToAcquire(s: State, x: LbId, c: Creator, vip: Vip)
    requires PcOk(s, x, c) && c.pc in {SetRef(vip.addr), ResolveLink(vip.addr)} && c.specs != []
    ensures c.held.Keys == c.saved && SpecsOk(s, x, c, c.specs) && Unset(s, x, c.specs[1..])
    ensures vip.addr !in Addrs(c.held) && c.specs[0].family !in c.held
    ensures c.specs[0].link in {None, Some(vip.addr)}
    ensures forall i :: 1 <= i < |c.specs| ==> c.specs[i].link != Some(vip.addr)
  {
    var rest := c.specs[1..];
    assert forall i :: 0 <= i < |rest| ==> rest[i] == c.specs[i + 1];
  }

  lemma AcquiredPc(s: State, t: State, x: LbId, c: Creator, vip: Vip, gain: Option<Gain>)
    requires Evolves(s, t, gain) && gain in {None, Some(Gain(x, vip.addr))}
    requires PcOk(s, x, c) && c.pc in {SetRef(vip.addr), ResolveLink(vip.addr)} && c.specs != []
    ensures PcOk(t, x, Acquired(c, vip))
  {
    AboutToAcquire(s, x, c, vip);
    AcquiredSpecs(s, x, c, vip);
    KeepRest(s, t, gain, x, c, Acquired(c, vip), vip);
    hide Evolves, SpecsOk, Unset, FreshOk, Progress;
  }

  /** The binding acquired for the first spec moves into the local map. */
  lemma AcquiredOk(s: State, t: State, x: LbId, vip: Vip, gain: Option<Gain>)
    requires Evolves(s, t, gain) && gain in {None, Some(Gain(x, vip.addr))} && t.rows == s.rows
    requires x in s.creators && CreatorOk(s, x) && s.creators[x].pc in {SetRef(vip.addr), ResolveLink(vip.addr)}
    requires s.creators[x].specs != [] && x in t.creators && t.creators[x] == Acquired(s.creators[x], vip)
    requires VipOk(t, x, vip)
    ensures CreatorOk(t, x) && vip.addr !in Addrs(s.creators[x].held)
  {
    hide Evolves, PcOk, Released, VipOk;
    var c := s.creators[x];
    AboutToAcquire(s, x, c, vip);
    AcquiredPc(s, t, x, c, vip, gain);
    Grows(s, t, gain);
    KeepVips(s, t, gain, x, c.held);
    assert forall f :: f in c.held ==> c.held[f].addr in Addrs(c.held);
  }

  lemma StepAcquired(s: State, t: State, x: LbId, vip: Vip, gain: Option<Gain>)
    requires Inv(s) && Evolves(s, t, gain) && gain in {None, Some(Gain(x, vip.addr))} && CreatorMoves(s, t, x)
    requires s.creators[x].pc in {SetRef(vip.addr), ResolveLink(vip.addr)} && s.creators[x].specs != []
    requires t.creators[x] == Acquired(s.creators[x], vip) && VipOk(t, x, vip)
    ensures Inv(t)
  {
    hide Evolves, CreatorOk, RowsOk, WorkersOk, VpcOk, VipOk;
    AcquiredOk(s, t, x, vip, gain);
    HeldGrows(s, x, vip);
    OnlyCreator(s, t, x, gain);
  }

  lemma HeldGrows(s: State, x: LbId, vip: Vip)
    requires x in s.creators && CreatorOk(s, x) && s.creators[x].pc in {SetRef(vip.addr), ResolveLink(vip.addr)}
    requires s.creators[x].specs != []
    ensures Within(s.creators[x].held, Acquired(s.creators[x], vip).held)
  {
    AboutToAcquire(s, x, s.creators[x], vip);
  }

  lemma RefFrame(s: State, x: LbId, r: Reply)
    requires VpcOk(s) && CreatorBornOk(s, x) && Enabled(s, RefReply(x, r)) && s.creators[x].specs != []
    ensures var t := Next(s, RefReply(x, r)); var c := s.creators[x]; var a := c.pc.addr;
      && Evolves(s, t, Some(Gain(x, a))) && CreatorMoves(s, t, x) && t.used == s.used
      && t.creators[x] == (if r.Done? then Acquired(c, Vip(a, Auto)) else c.(pc := UndoAlloc(a)))
      && (a in t.vpc ==> a in s.vpc && t.vpc[a].maker == s.vpc[a].maker)
  {}

  ghost predicate CreatorBornOk(s: State, x: LbId) {
    x in s.creators && x in s.born
  }

  lemma ReferencedOk(s: State, t: State, x: LbId, a: AddressId)
    requires Evolves(s, t, Some(Gain(x, a))) && t.rows == s.rows && x in s.creators && CreatorOk(s, x)
    requires s.creators[x].pc == SetRef(a) && x in t.creators && t.creators[x] == s.creators[x].(pc := UndoAlloc(a))
    ensures CreatorOk(t, x) && a !in Addrs(s.creators[x].held)
  {
    hide Released;
    var c := s.creators[x];
    KeepVips(s, t, Some(Gain(x, a)), x, c.held);
    assert forall f :: f in c.held ==> c.held[f].addr in Addrs(c.held);
    assert FreshOk(s, x, c, a);
  }

  lemma StepRef(s: State, x: LbId, r: Reply)
    requires Inv(s) && Enabled(s, RefReply(x, r))
    ensures Inv(Next(s, RefReply(x, r)))
  {
    hide Inv, Evolves, VpcOk, Next;
    var t := Next(s, RefReply(x, r));
    CreatorBorn(s, x);
    var c := s.creators[x];
    assert FreshOk(s, x, c, c.pc.addr);
    hide CreatorOk, FreshOk, PcOk;
    RefFrame(s, x, r);
    if r.Done? {
      StepAcquired(s, t, x, Vip(c.pc.addr, Auto), Some(Gain(x, c.pc.addr)));
    } else {
      ReferencedOk(s, t, x, c.pc.addr);
      OnlyCreator(s, t, x, Some(Gain(x, c.pc.addr)));
    }
  }

  lemma LinkFrame(s: State, x: LbId, r: Reply)
    requires VpcOk(s) && CreatorBornOk(s, x) && Enabled(s, LinkReply(x, r))
    ensures var t := Next(s, LinkReply(x, r)); var c := s.creators[x];
      && c.pc == Acquire && c.specs != [] && c.specs[0].link.Some?
      && Evolves(s, t, Some(Gain(x, c.specs[0].link.value))) && CreatorMoves(s, t, x)
      && t.creators[x] == (if r.Done? then c.(pc := ResolveLink(c.specs[0].link.value)) else Failing(c))
  {}

  lemma LinkedOk(s: State, t: State, x: LbId, a: AddressId)
    requires Evolves(s, t, Some(Gain(x, a))) && t.rows == s.rows && x in s.creators && CreatorOk(s, x)
    requires s.creators[x].pc == Acquire && s.creators[x].specs != [] && s.creators[x].specs[0].link == Some(a)
    requires x in t.creators && t.creators[x] == s.creators[x].(pc := ResolveLink(a))
    ensures CreatorOk(t, x)
  {
    hide Released;
    var c := s.creators[x];
    KeepVips(s, t, Some(Gain(x, a)), x, c.held);
    assert forall f :: f in c.held ==> c.held[f].addr in Addrs(c.held);
    var rest := c.specs[1..];
    assert forall i :: 0 <= i < |rest| ==> rest[i] == c.specs[i + 1];
  }

  lemma LinkNotHeld(s: State, x: LbId)
    requires x in s.creators && CreatorOk(s, x) && s.creators[x].pc == Acquire
    requires s.creators[x].specs != [] && s.creators[x].specs[0].link.Some?
    ensures s.creators[x].specs[0].link.value !in Addrs(s.creators[x].held)
  {}

  lemma StepLink(s: State, x: LbId, r: Reply)
    requires Inv(s) && Enabled(s, LinkReply(x, r))
    ensures Inv(Next(s, LinkReply(x, r)))
  {
    hide Inv, Evolves, CreatorOk, VpcOk, Next;
    var t := Next(s, LinkReply(x, r));
    CreatorBorn(s, x);
    LinkFrame(s, x, r);
    LinkNotHeld(s, x);
    var a := s.creators[x].specs[0].link.value;
    if r.Done? {
      LinkedOk(s, t, x, a);
      OnlyCreator(s, t, x, Some(Gain(x, a)));
    } else {
      StepFail(s, t, x, Some(Gain(x, a)));
    }
  }

  lemma GetFrame(s: State, x: LbId)
    requires VpcOk(s) && Enabled(s, GetReply(x, true)) && s.creators[x].specs != []
    ensures var t := Next(s, GetReply(x, true));
      && Evolves(s, t, None) && CreatorMoves(s, t, x) && t.vpc == s.vpc && t.used == s.used
      && t.creators[x] == Acquired(s.creators[x], Vip(s.creators[x].pc.addr, Linked))
  {}

  /** A link that was set is still the tenant's. */
  lemma ResolvedVip(s: State, x: LbId)
    requires x in s.creators && CreatorOk(s, x) && s.creators[x].pc.ResolveLink?
    ensures s.creators[x].specs != [] && VipOk(s, x, Vip(s.creators[x].pc.addr, Linked))
  {}

  lemma StepGet(s: State, x: LbId)
    requires Inv(s) && Enabled(s, GetReply(x, true))
    ensures Inv(Next(s, GetReply(x, true)))
  {
    hide Inv, Evolves, CreatorOk, VpcOk, Next;
    CreatorBorn(s, x);
    ResolvedVip(s, x);
    GetFrame(s, x);
    StepAcquired(s, Next(s, GetReply(x, true)), x, Vip(s.creators[x].pc.addr, Linked), None);
  }

  lemma AttachFrame(s: State, x: LbId)
    requires VpcOk(s) && x in s.creators && CanAttach(s, x)
    ensures var t := AfterAttach(s, x); Evolves(s, t, None) && OthersSame(s, t, x) && t.workers == s.workers
  {}

  lemma AttachedOk(s: State, t: State, x: LbId)
    requires VpcOk(s) && x in s.creators && CreatorOk(s, x) && At(s, x, Persist) && CanAttach(s, x)
    requires x in s.rows && RowOk(s, x)
    requires t == AfterAttach(s, x)
    ensures CreatorOk(t, x) && RowOk(t, x)
  {
    hide SpecsOk, Unset, VipOk, Released;
    var c := s.creators[x];
    assert t.creators[x].held.Keys == t.creators[x].saved;
    SameVpc(s, t, x, c, t.creators[x], c.specs[1..]);
    assert forall vip :: VipOk(s, x, vip) ==> VipOk(t, x, vip) by { SameVips(s, t, x); }
    assert Families(c.specs) == {c.specs[0].family} + Families(c.specs[1..]) by {
      assert c.specs == [c.specs[0]] + c.specs[1..];
    }
  }

  lemma SameVips(s: State, t: State, x: LbId)
    requires t.vpc == s.vpc && t.used == s.used
    ensures forall vip :: VipOk(s, x, vip) ==> VipOk(t, x, vip)
  {}

  lemma SameVpc(s: State, t: State, x: LbId, c: Creator, d: Creator, specs: seq<Spec>)
    requires t.vpc == s.vpc && t.used == s.used && d.held == c.held
    ensures SpecsOk(s, x, c, specs) ==> SpecsOk(t, x, d, specs)
    ensures Unset(s, x, specs) ==> Unset(t, x, specs)
  {}

  /** A delete worker of x keeps what it captured: the new binding is of another family. */
  lemma AttachedWorker(s: State, t: State, x: LbId, w: WorkerId)
    requires Inv(s) && Evolves(s, t, None) && At(s, x, Persist) && CanAttach(s, x) && t == AfterAttach(s, x)
    requires w in s.workers && s.workers[w].lb == x
    ensures WorkerOk(t, w)
  {
    hide Evolves, PcOk, RowOk, VpcOk, VipsOk, Released, Pending, CallsFor;
    assert s.workers[w].kind != Runner;
    assert WorkerOk(s, w) && CreatorOk(s, x);
    KeepDeleter(s, t, w);
  }

  lemma StepAttach(s: State, x: LbId)
    requires Inv(s) && Enabled(s, Attach(x, true))
    ensures Inv(Next(s, Attach(x, true)))
  {
    var t := AfterAttach(s, x);
    assert Next(s, Attach(x, true)) == t;
    hide Evolves, RowOk, CreatorOk, WorkerOk, OthersSame, VpcOk;
    AttachFrame(s, x);
    AttachedOk(s, t, x);
    forall w | w in t.workers && t.workers[w].lb == x ensures WorkerOk(t, w) {
      AttachedWorker(s, t, x, w);
    }
    OnlyX(s, t, x, None);
  }

  lemma FinalizeFrame(s: State, x: LbId)
    requires VpcOk(s) && Enabled(s, Finalize(x, true))
    ensures var t := Next(s, Finalize(x, true));
      && Evolves(s, t, None) && OthersSame(s, t, x) && t.workers == s.workers && x !in t.creators
      && x in s.rows && s.rows[x].status == Creating && x in t.rows && !Locked(s, x)
      && t.rows[x] == s.rows[x].(status := Inactive, updatedAt := s.now)
  {}

  /** Nobody else works for a balancer in creation that is not locked: a delete worker would have
      marked its row. */
  lemma FinalizedOk(s: State, t: State, x: LbId)
    requires Inv(s) && Evolves(s, t, None) && x in s.creators
    requires s.creators[x].pc == Acquire && s.creators[x].specs == []
    requires x in s.rows && s.rows[x].status == Creating && !Locked(s, x) && t.workers == s.workers && x !in t.creators
    requires x in t.rows && t.rows[x] == s.rows[x].(status := Inactive, updatedAt := s.now)
    ensures RowOk(t, x) && forall w :: w in t.workers ==> t.workers[w].lb != x
  {
    hide Evolves, Released, Pending, CallsFor, VpcOk;
    assert CreatorOk(s, x) && RowOk(s, x);
    assert forall w :: w in s.workers ==> WorkerOk(s, w);
    Grows(s, t, None);
    KeepVips(s, t, None, x, s.rows[x].vips);
    assert Families([]) == {};
  }

  lemma StepFinalize(s: State, x: LbId)
    requires Inv(s) && Enabled(s, Finalize(x, true))
    ensures Inv(Next(s, Finalize(x, true)))
  {
    hide Evolves, OthersSame, RowOk, CreatorOk, WorkerOk, Locked, VpcOk;
    FinalizeFrame(s, x);
    FinalizedOk(s, Next(s, Finalize(x, true)), x);
    OnlyX(s, Next(s, Finalize(x, true)), x, None);
  }

  lemma PickFrame(s: State, x: LbId, f: Family)
    requires VpcOk(s) && Enabled(s, CompensatePick(x, f))
    ensures Evolves(s, Next(s, CompensatePick(x, f)), None) && CreatorMoves(s, Next(s, CompensatePick(x, f)), x)
    ensures Next(s, CompensatePick(x, f)).creators[x].held == s.creators[x].held
  {}

  lemma PickedOk(s: State, t: State, x: LbId, f: Family)
    requires Enabled(s, CompensatePick(x, f)) && CreatorOk(s, x) && t == Next(s, CompensatePick(x, f))
    requires Evolves(s, t, None)
    ensures CreatorOk(t, x)
  {}

  lemma StepPick(s: State, x: LbId, f: Family)
    requires Inv(s) && Enabled(s, CompensatePick(x, f))
    ensures Inv(Next(s, CompensatePick(x, f)))
  {
    hide Inv, Evolves, CreatorOk, VpcOk, Next;
    CreatorBorn(s, x);
    PickFrame(s, x, f);
    PickedOk(s, Next(s, CompensatePick(x, f)), x, f);
    OnlyCreator(s, Next(s, CompensatePick(x, f)), x, None);
  }

  /** A successful call either completes the release of a binding or leaves its last call pending. */
  lemma CallProgress(s: State, t: State, x: LbId, vip: Vip, calls: seq<Call>)
    requires calls != [] && VipOk(s, x, vip) && Replies(s.vpc, calls[0], Done)
    requires t.vpc == Effect(s.vpc, calls[0])
    requires Pending(vip, calls) || Released(s, x, vip)
    ensures Pending(vip, calls[1..]) || Released(t, x, vip)
  {}

  lemma CallEvolves(s: State, t: State, call: Call, r: Reply)
    requires VpcOk(s) && t.vpc == AfterCall(s.vpc, call, r)
    requires t.used == s.used && t.born == s.born && t.marked == s.marked
    ensures Evolves(s, t, None)
  {}

  lemma CompensateFrame(s: State, x: LbId, r: Reply)
    requires VpcOk(s) && Enabled(s, CompensateCall(x, r))
    ensures var t := Next(s, CompensateCall(x, r));
      && t == AfterCompensateCall(s, x, r) && Evolves(s, t, None) && CreatorMoves(s, t, x)
      && t.creators[x].held == s.creators[x].held
  {
    CallEvolves(s, Next(s, CompensateCall(x, r)), s.creators[x].pc.calls[0], r);
  }

  lemma CompensatedOk(s: State, t: State, x: LbId, r: Reply)
    requires Enabled(s, CompensateCall(x, r)) && CreatorOk(s, x) && t == AfterCompensateCall(s, x, r)
    requires Evolves(s, t, None)
    ensures CreatorOk(t, x)
  {}

  lemma StepCompensate(s: State, x: LbId, r: Reply)
    requires Inv(s) && Enabled(s, CompensateCall(x, r))
    ensures Inv(Next(s, CompensateCall(x, r)))
  {
    hide Inv, Evolves, CreatorOk, VpcOk, Next;
    CreatorBorn(s, x);
    CompensateFrame(s, x, r);
    CompensatedOk(s, Next(s, CompensateCall(x, r)), x, r);
    OnlyCreator(s, Next(s, CompensateCall(x, r)), x, None);
  }

  lemma UndoFrame(s: State, x: LbId, r: Reply)
    requires VpcOk(s) && Enabled(s, UndoReply(x, r))
    ensures var t := Next(s, UndoReply(x, r));
      Evolves(s, t, None) && CreatorMoves(s, t, x) && t.creators[x] == Failing(s.creators[x])
  {
    CallEvolves(s, Next(s, UndoReply(x, r)), FreeIP(s.creators[x].pc.addr), r);
  }

  lemma StepUndo(s: State, x: LbId, r: Reply)
    requires Inv(s) && Enabled(s, UndoReply(x, r))
    ensures Inv(Next(s, UndoReply(x, r)))
  {
    hide Inv, Evolves, CreatorOk, VpcOk, Next;
    CreatorBorn(s, x);
    UndoFrame(s, x, r);
    StepFail(s, Next(s, UndoReply(x, r)), x, None);
  }

  /** The creator is gone, and the row with it if ok. */
  function Dropped(s: State, x: LbId, ok: bool): State {
    s.(rows := if ok then s.rows - {x} else s.rows, creators := s.creators - {x})
  }

  lemma DropFrame(s: State, x: LbId, ok: bool)
    requires VpcOk(s)
    ensures Evolves(s, Dropped(s, x, ok), None) && OthersSame(s, Dropped(s, x, ok), x)
  {}

  lemma DroppedWorker(s: State, x: LbId, ok: bool, w: WorkerId)
    requires WorkersOk(s) && x in s.creators && (ok ==> !Locked(s, x)) && w in s.workers && s.workers[w].lb == x
    requires Evolves(s, Dropped(s, x, ok), None)
    ensures WorkerOk(Dropped(s, x, ok), w)
  {
    hide Evolves, VipsOk, CallsFor, Pending, Released;
    assert WorkerOk(s, w);
    assert ok ==> s.workers[w].kind != Runner;
    KeepVips(s, Dropped(s, x, ok), None, x, s.workers[w].vips);
  }

  lemma StepDrop(s: State, x: LbId, ok: bool)
    requires Inv(s) && x in s.creators && (ok ==> !Locked(s, x))
    ensures Inv(Dropped(s, x, ok))
  {
    hide Evolves, RowOk, CreatorOk, WorkerOk, OthersSame, Locked, VpcOk;
    var t := Dropped(s, x, ok);
    DropFrame(s, x, ok);
    if x in t.rows { KeepRow(s, t, None, x); }
    forall w | w in t.workers && t.workers[w].lb == x ensures WorkerOk(t, w) {
      DroppedWorker(s, x, ok, w);
    }
    OnlyX(s, t, x, None);
  }

  // ---- delete workers and the runner ----

  lemma PlanPending(kind: Kind, vips: map<Family, Vip>)
    requires forall f :: f in vips ==> vips[f].origin in {Auto, Linked}
    ensures CallsFor(vips, ReleaseAll(kind, vips))
    ensures forall f :: f in vips ==> Pending(vips[f], ReleaseAll(kind, vips))
  {
    forall f | f in vips ensures Pending(vips[f], ReleaseAll(kind, vips)) {
      assert Pending(vips[f], ReleaseOne(kind, vips, f));
      assert f == V4 || f == V6;
    }
  }

  /** A worker starts with the bindings of the row it locks or marks. */
  lemma StartedOk(s: State, t: State, w: WorkerId, x: LbId, kind: Kind)
    requires Inv(s) && Writable(s, x) && Evolves(s, t, None)
    requires w in t.workers && t.workers[w] == Worker(kind, x, s.rows[x].vips, ReleaseAll(kind, s.rows[x].vips))
    requires t.creators == s.creators && x in t.rows && t.rows[x].vips == s.rows[x].vips
    requires kind == Runner ==>
      && t.rows[x].status in {Creating, Deleting}
      && forall v :: v in t.workers && v != w && t.workers[v].kind == Runner ==> t.workers[v].lb != x
    requires kind == Deleter ==> t.rows[x].status == Deleting && x in t.marked
    ensures WorkerOk(t, w)
  {
    assert RowOk(s, x);
    KeepVips(s, t, None, x, s.rows[x].vips);
    PlanPending(kind, s.rows[x].vips);
    if x in t.creators { assert CreatorOk(s, x); }
  }

  /** x's row, with its bindings, is DELETING or as it was; a new worker joins those of x. */
  ghost predicate Joins(s: State, t: State, w: WorkerId, x: LbId) {
    && w !in s.workers && Writable(s, x) && t.creators == s.creators && x in t.rows
    && t.rows[x].vips == s.rows[x].vips && t.rows[x].families == s.rows[x].families
    && (t.rows[x].status == s.rows[x].status || (t.rows[x].status == Deleting && x in t.marked))
    && w in t.workers && forall v :: v in t.workers && v != w ==> v in s.workers && t.workers[v] == s.workers[v]
  }

  lemma JoinedRow(s: State, t: State, w: WorkerId, x: LbId)
    requires RowsOk(s) && Evolves(s, t, None) && Joins(s, t, w, x)
    ensures RowOk(t, x)
  {
    hide Evolves, VipsOk;
    assert RowOk(s, x);
    Grows(s, t, None);
    KeepVips(s, t, None, x, s.rows[x].vips);
  }

  lemma JoinedWorker(s: State, t: State, w: WorkerId, x: LbId, v: WorkerId)
    requires WorkersOk(s) && Evolves(s, t, None) && Joins(s, t, w, x)
    requires v in t.workers && v != w && t.workers[v].lb == x
    ensures WorkerOk(t, v)
  {
    hide Evolves, VipsOk, CallsFor, Pending, Released;
    assert WorkerOk(s, v);
    assert s.workers[v].kind != Runner;
    KeepDeleter(s, t, v);
  }

  lemma StepJoin(s: State, t: State, w: WorkerId, x: LbId)
    requires Inv(s) && Evolves(s, t, None) && OthersSame(s, t, x) && Joins(s, t, w, x) && WorkerOk(t, w)
    ensures Inv(t)
  {
    hide Evolves, RowOk, CreatorOk, WorkerOk, OthersSame, VpcOk;
    JoinedRow(s, t, w, x);
    if x in t.creators { KeepCreator(s, t, None, x); }
    forall v | v in t.workers && t.workers[v].lb == x && v != w ensures WorkerOk(t, v) {
      JoinedWorker(s, t, w, x, v);
    }
    OnlyX(s, t, x, None);
  }

  ghost predicate Starts(s: State, t: State, w: WorkerId, x: LbId, kind: Kind) {
    && Evolves(s, t, None) && OthersSame(s, t, x) && Joins(s, t, w, x)
    && t.workers[w] == Worker(kind, x, s.rows[x].vips, ReleaseAll(kind, s.rows[x].vips))
    && (kind == Deleter ==> t.rows[x].status == Deleting && x in t.marked)
    && (kind == Runner ==> t.rows[x].status in {Creating, Deleting})
  }

  lemma MarkFrame(s: State, w: WorkerId, x: LbId)
    requires VpcOk(s) && Enabled(s, Mark(w, x))
    ensures Starts(s, Next(s, Mark(w, x)), w, x, Deleter)
  {}

  lemma ClaimFrame(s: State, w: WorkerId, x: LbId)
    requires VpcOk(s) && Enabled(s, Claim(w, x))
    ensures Starts(s, Next(s, Claim(w, x)), w, x, Runner)
  {}

  lemma StepStart(s: State, t: State, w: WorkerId, x: LbId, kind: Kind)
    requires Inv(s) && Starts(s, t, w, x, kind)
    ensures Inv(t)
  {
    hide Evolves, OthersSame, WorkerOk, RowsOk, CreatorsOk, WorkersOk, VpcOk, ReleaseAll;
    StartedOk(s, t, w, x, kind);
    StepJoin(s, t, w, x);
  }

  lemma StepMark(s: State, w: WorkerId, x: LbId)
    requires Inv(s) && Enabled(s, Mark(w, x))
    ensures Inv(Next(s, Mark(w, x)))
  {
    hide Starts, RowsOk, CreatorsOk, WorkersOk, VpcOk;
    MarkFrame(s, w, x);
    StepStart(s, Next(s, Mark(w, x)), w, x, Deleter);
  }

  lemma StepClaim(s: State, w: WorkerId, x: LbId)
    requires Inv(s) && Enabled(s, Claim(w, x))
    ensures Inv(Next(s, Claim(w, x)))
  {
    hide Starts, RowsOk, CreatorsOk, WorkersOk, VpcOk;
    ClaimFrame(s, w, x);
    StepStart(s, Next(s, Claim(w, x)), w, x, Runner);
  }

  lemma CalledOk(s: State, t: State, w: WorkerId, r: Reply, poison: bool)
    requires Enabled(s, WorkerCall(w, r, poison)) && WorkerOk(s, w) && t == AfterWorkerCall(s, w, r, poison)
    requires Evolves(s, t, None) && r.Done?
    ensures WorkerOk(t, w)
  {
    var k := s.workers[w];
    KeepVips(s, t, None, k.lb, k.vips);
    forall f | f in k.vips ensures Pending(k.vips[f], k.calls[1..]) || Released(t, k.lb, k.vips[f]) {
      CallProgress(s, t, k.lb, k.vips[f], k.calls);
    }
    assert forall b :: b in k.calls[1..] ==> b in k.calls;
  }

  lemma WorkerCallFrame(s: State, w: WorkerId, r: Reply, poison: bool)
    requires VpcOk(s) && Enabled(s, WorkerCall(w, r, poison))
    ensures var t := Next(s, WorkerCall(w, r, poison));
      && t == AfterWorkerCall(s, w, r, poison) && Evolves(s, t, None) && t.creators == s.creators
      && (forall y :: SameRow(s, t, y))
      && (forall v :: v in t.workers && v != w ==> v in s.workers && t.workers[v] == s.workers[v])
      && (w in t.workers ==> r.Done? && t.workers[w].lb == s.workers[w].lb && t.workers[w].kind == s.workers[w].kind)
  {
    CallEvolves(s, Next(s, WorkerCall(w, r, poison)), s.workers[w].calls[0], r);
  }

  lemma StepWorkerCall(s: State, w: WorkerId, r: Reply, poison: bool)
    requires Inv(s) && Enabled(s, WorkerCall(w, r, poison))
    ensures Inv(Next(s, WorkerCall(w, r, poison)))
  {
    hide Evolves, RowsOk, CreatorsOk, WorkerOk, VpcOk, SameRow, Next;
    var t := Next(s, WorkerCall(w, r, poison));
    WorkerCallFrame(s, w, r, poison);
    if w in t.workers { CalledOk(s, t, w, r, poison); }
    OnlyWorker(s, t, s.workers[w].lb, w);
  }

  lemma FinishFrame(s: State, w: WorkerId)
    requires VpcOk(s) && Enabled(s, WorkerFinish(w, true))
    ensures var t := Next(s, WorkerFinish(w, true));
      t == AfterFinish(s, w) && Evolves(s, t, None) && OthersSame(s, t, s.workers[w].lb)
  {}

  /** The finishing worker released every binding of the row that it captured; a runner captured
      all of them. */
  lemma FinishReleased(s: State, w: WorkerId)
    requires WorkersOk(s) && Enabled(s, WorkerFinish(w, true))
    requires s.workers[w].lb in s.creators && CreatorOk(s, s.workers[w].lb) && s.workers[w].lb !in s.marked
    ensures var x := s.workers[w].lb; forall f :: f in s.creators[x].saved ==> Released(s, x, s.creators[x].held[f])
  {
    hide PcOk, VipsOk, Released;
    assert WorkerOk(s, w);
  }

  /** The row went; what it named was released. */
  lemma FinishedCreator(s: State, t: State, w: WorkerId)
    requires Inv(s) && Enabled(s, WorkerFinish(w, true)) && t == AfterFinish(s, w) && Evolves(s, t, None)
    requires s.workers[w].lb in t.creators
    ensures CreatorOk(t, s.workers[w].lb)
  {
    hide Evolves, PcOk, RowsOk, WorkersOk, VpcOk, VipsOk, Released;
    var x := s.workers[w].lb;
    assert CreatorOk(s, x);
    if x !in s.marked { FinishReleased(s, w); }
    Grows(s, t, None);
    KeepVips(s, t, None, x, s.creators[x].held);
    KeepPc(s, t, None, x, s.creators[x]);
  }

  lemma FinishedWorker(s: State, t: State, w: WorkerId, v: WorkerId)
    requires WorkersOk(s) && Enabled(s, WorkerFinish(w, true)) && t == AfterFinish(s, w) && Evolves(s, t, None)
    requires v in t.workers && t.workers[v].lb == s.workers[w].lb
    ensures WorkerOk(t, v)
  {
    assert WorkerOk(s, v) && WorkerOk(s, w);
    assert s.workers[v].kind != Runner;
    hide Evolves, VipsOk, CallsFor, Pending, Released, WorkersOk;
    KeepDeleter(s, t, v);
  }

  lemma StepFinish(s: State, w: WorkerId)
    requires Inv(s) && Enabled(s, WorkerFinish(w, true))
    ensures Inv(Next(s, WorkerFinish(w, true)))
  {
    var t := Next(s, WorkerFinish(w, true));
    var x := s.workers[w].lb;
    hide Evolves, RowOk, CreatorOk, WorkerOk, OthersSame, VpcOk, Next;
    FinishFrame(s, w);
    if x in t.creators { FinishedCreator(s, t, w); }
    forall v | v in t.workers && t.workers[v].lb == x ensures WorkerOk(t, v) {
      FinishedWorker(s, t, w, v);
    }
    OnlyX(s, t, x, None);
  }

  lemma GoneFrame(s: State, w: WorkerId)
    requires VpcOk(s)
    ensures Evolves(s, s.(workers := s.workers - {w}), None)
  {}

  lemma StepGone(s: State, w: WorkerId)
    requires Inv(s) && w in s.workers
    ensures Inv(s.(workers := s.workers - {w}))
  {
    hide Evolves, RowsOk, CreatorsOk, WorkersOk, VpcOk;
    GoneFrame(s, w);
    OnlyWorker(s, s.(workers := s.workers - {w}), s.workers[w].lb, w);
  }

  // ---- everything else ----

  /** Status changes, touches, and what tenants and other services do to addresses. */
  lemma StepEnvironment(s: State, t: State, x: LbId)
    requires Inv(s) && Evolves(s, t, None) && t.creators == s.creators && t.workers == s.workers
    requires forall y :: y != x ==> SameRow(s, t, y)
    requires SameRow(s, t, x) || (x in s.rows && x in t.rows && s.rows[x].status !in {Creating, Deleting}
               && t.rows[x].status !in {Creating, Deleting} && t.rows[x].vips == s.rows[x].vips
               && t.rows[x].families == s.rows[x].families)
    ensures Inv(t)
  {
    if x in t.rows { KeepVips(s, t, None, x, s.rows[x].vips); }
    if x in t.creators { KeepCreator(s, t, None, x); }
    forall w | w in t.workers && t.workers[w].lb == x ensures WorkerOk(t, w) {
      assert SameRow(s, t, x);
      KeepWorker(s, t, None, w);
    }
    OnlyX(s, t, x, None);
  }

  lemma RowEventFrame(s: State, e: Event)
    requires VpcOk(s) && Enabled(s, e) && (e.SetStatus? || e.Touch?)
    ensures var t := Next(s, e); var x := e.lb;
      && Evolves(s, t, None) && t.creators == s.creators && t.workers == s.workers
      && (forall y :: y != x ==> SameRow(s, t, y))
      && (SameRow(s, t, x) || (x in s.rows && x in t.rows && s.rows[x].status !in {Creating, Deleting}
            && t.rows[x].status !in {Creating, Deleting} && t.rows[x].vips == s.rows[x].vips
            && t.rows[x].families == s.rows[x].families))
  {}

  lemma StepRowEvent(s: State, e: Event)
    requires Inv(s) && Enabled(s, e) && (e.SetStatus? || e.Touch?)
    ensures Inv(Next(s, e))
  {
    hide RowsOk, CreatorsOk, WorkersOk, VpcOk, Evolves, SameRow, Next, Enabled;
    RowEventFrame(s, e);
    StepEnvironment(s, Next(s, e), e.lb);
  }

  lemma TenantFrame(s: State, e: Event)
    requires VpcOk(s) && Enabled(s, e) && (e.TenantCreates? || e.TenantDeletes? || e.Tick?)
    ensures var t := Next(s, e);
      Evolves(s, t, None) && t.rows == s.rows && t.creators == s.creators && t.workers == s.workers
  {}

  lemma OtherFrame(s: State, e: Event)
    requires VpcOk(s) && Enabled(s, e) && (e.OtherReferences? || e.OtherClears?)
    ensures var t := Next(s, e);
      Evolves(s, t, None) && t.rows == s.rows && t.creators == s.creators && t.workers == s.workers
  {}

  lemma StepOutside(s: State, e: Event)
    requires Inv(s) && Enabled(s, e)
    requires e.TenantCreates? || e.TenantDeletes? || e.Tick? || e.OtherReferences? || e.OtherClears?
    ensures Inv(Next(s, e))
  {
    hide RowsOk, CreatorsOk, WorkersOk, VpcOk, Evolves, Next, Enabled;
    if e.OtherReferences? || e.OtherClears? { OtherFrame(s, e); } else { TenantFrame(s, e); }
    StepEnvironment(s, Next(s, e), 0);
  }

  lemma StepInv(s: State, e: Event)
    requires Inv(s) && Enabled(s, e)
    ensures Inv(Next(s, e))
  {
    hide Inv;
    match e
    case Insert(x, specs) => StepInsert(s, x, specs);
    case AllocRefused(x) => StepFailQuiet(s, x);
    case AllocOrphaned(x, a, retried) => StepOrphaned(s, x, a, retried);
    case AllocCreated(x, a) => StepAlloc(s, x, a);
    case RefReply(x, r) => StepRef(s, x, r);
    case UndoReply(x, r) => StepUndo(s, x, r);
    case LinkReply(x, r) => StepLink(s, x, r);
    case GetReply(x, ok) => if ok { StepGet(s, x); } else { StepFailQuiet(s, x); }
    case Attach(x, ok) => if ok { StepAttach(s, x); } else { StepFailQuiet(s, x); }
    case Finalize(x, ok) => if ok { StepFinalize(s, x); } else { StepFailQuiet(s, x); }
    case CompensatePick(x, f) => StepPick(s, x, f);
    case CompensateCall(x, r) => StepCompensate(s, x, r);
    case DropHandle(x, ok) => StepDrop(s, x, ok);
    case CreatorCrash(x) => StepDrop(s, x, false);
    case Mark(w, x) => StepMark(s, w, x);
    case Claim(w, x) => StepClaim(s, w, x);
    case WorkerCall(w, r, poison) => StepWorkerCall(s, w, r, poison);
    case WorkerFinish(w, ok) => if ok { StepFinish(s, w); } else { StepGone(s, w); }
    case WorkerCrash(w) => StepGone(s, w);
    case SetStatus(_, _) => StepRowEvent(s, e);
    case Touch(_) => StepRowEvent(s, e);
    case _ => StepOutside(s, e);
  }
}
