/** The virtual-IP saga as a state machine: creators, deleters and replicas of the background
    runner, each a sequence of separate commits and remote calls, over shared rows and the
    address service. Every remote call may fail with or without having taken effect, and a
    worker may crash between any two steps. */
module VipSaga {
  import opened Domain
  import opened Vpc

  /** A load-balancer row; `vips` has a key for each family with a bound address. */
  datatype Row = Row(status: Status, families: set<Family>, vips: map<Family, Vip>, updatedAt: nat)

  /** One requested family: `link` names an existing address, None asks for a new one. */
  datatype Spec = Spec(family: Family, link: Option<AddressId>)

  /** Where a create worker stands. `held` in Creator is its local `allocated` map. */
  datatype Pc =
    | Acquire                      // next family, or finalize when none is left
    | SetRef(addr: AddressId)      // the new address exists, its reference is being set
    | UndoAlloc(addr: AddressId)   // setting the reference failed, FreeIP is next
    | ResolveLink(addr: AddressId) // the link is set, Get is next
    | Persist                      // the acquired binding waits for AttachVIP
    | Compensate(left: set<Family>, cur: Family, calls: seq<Call>, failed: set<Family>)

  datatype Creator = Creator(specs: seq<Spec>, held: map<Family, Vip>, saved: set<Family>, pc: Pc)

  /** Both releasing workers: a Delete operation, or a runner holding the claimed row's lock. */
  datatype Kind = Deleter | Runner

  datatype Worker = Worker(kind: Kind, lb: LbId, vips: map<Family, Vip>, calls: seq<Call>)

  datatype Entry = Created(lb: LbId) | Registered(lb: LbId) | Deleted(lb: LbId) | Unregistered(lb: LbId)

  /** `used`, `born` and `marked` are histories: address ids ever issued, load balancers ever
      inserted, and load balancers ever marked DELETING. */
  datatype State = State(
    vpc: Store, used: set<AddressId>,
    rows: map<LbId, Row>, born: set<LbId>, marked: set<LbId>,
    creators: map<LbId, Creator>, workers: map<WorkerId, Worker>,
    log: seq<Entry>, now: nat, age: nat)

  datatype Event =
    // create worker
    | Insert(lb: LbId, specs: seq<Spec>)
    | AllocRefused(lb: LbId)
    | AllocOrphaned(lb: LbId, addr: AddressId, retried: bool)   // ordered, but the reply was an error
    | AllocCreated(lb: LbId, addr: AddressId)
    | RefReply(lb: LbId, reply: Reply)
    | UndoReply(lb: LbId, reply: Reply)
    | LinkReply(lb: LbId, reply: Reply)
    | GetReply(lb: LbId, ok: bool)
    | Attach(lb: LbId, ok: bool)
    | Finalize(lb: LbId, ok: bool)
    | CompensatePick(lb: LbId, family: Family)
    | CompensateCall(lb: LbId, reply: Reply)
    | DropHandle(lb: LbId, ok: bool)
    | CreatorCrash(lb: LbId)
    // delete workers and runner replicas
    | Mark(worker: WorkerId, lb: LbId)
    | Claim(worker: WorkerId, lb: LbId)
    | WorkerCall(worker: WorkerId, reply: Reply, poison: bool)
    | WorkerFinish(worker: WorkerId, ok: bool)
    | WorkerCrash(worker: WorkerId)
    // everything else that touches the same state
    | SetStatus(lb: LbId, status: Status)
    | Touch(lb: LbId)
    | TenantCreates(addr: AddressId)
    | TenantDeletes(addr: AddressId)
    | OtherReferences(addr: AddressId)
    | OtherClears(addr: AddressId)
    | Tick(seconds: nat)

  function Init(age: nat): State {
    State(map[], {}, map[], {}, {}, map[], map[], [], 0, age)
  }

  // ---- helpers ----

  function Addrs(vips: map<Family, Vip>): set<AddressId> {
    set f | f in vips :: vips[f].addr
  }

  function Families(specs: seq<Spec>): set<Family> {
    set s | s in specs :: s.family
  }

  /** What the request checks leave: one or two distinct families, links that resolved to an
      existing address of that family (so to two different addresses). */
  predicate ValidSpecs(used: set<AddressId>, specs: seq<Spec>) {
    && specs != []
    && (forall i, j :: 0 <= i < j < |specs| ==> specs[i].family != specs[j].family)
    && (forall i, j :: 0 <= i < j < |specs| && specs[i].link.Some? ==> specs[i].link != specs[j].link)
    && (forall i :: 0 <= i < |specs| && specs[i].link.Some? ==> specs[i].link.value in used)
  }

  predicate Locked(s: State, lb: LbId) {
    exists w :: w in s.workers && s.workers[w].kind == Runner && s.workers[w].lb == lb
  }

  predicate Writable(s: State, lb: LbId) {
    lb in s.rows && !Locked(s, lb)
  }

  function ReleaseOne(kind: Kind, vips: map<Family, Vip>, f: Family): seq<Call> {
    if f !in vips then [] else if kind == Deleter then DeleteRelease(vips[f]) else RunnerRelease(vips[f])
  }

  function ReleaseAll(kind: Kind, vips: map<Family, Vip>): seq<Call> {
    ReleaseOne(kind, vips, V4) + ReleaseOne(kind, vips, V6)
  }

  predicate At(s: State, lb: LbId, pc: Pc) {
    lb in s.creators && s.creators[lb].pc == pc
  }

  /** The creator is about to acquire its next family. */
  predicate Acquiring(s: State, lb: LbId) {
    At(s, lb, Acquire) && s.creators[lb].specs != []
  }

  /** The deferred compensation starts: every allocated family is to be released. */
  function Failing(c: Creator): Creator {
    c.(pc := Compensate(c.held.Keys, V4, [], {}))
  }

  function Set(s: State, lb: LbId, c: Creator): State {
    s.(creators := s.creators[lb := c])
  }

  // ---- guards ----

  predicate Enabled(s: State, e: Event) {
    match e
    case Insert(x, specs) => x !in s.born && ValidSpecs(s.used, specs)
    case AllocRefused(x) => Acquiring(s, x) && s.creators[x].specs[0].link == None
    case AllocOrphaned(x, a, _) => Acquiring(s, x) && s.creators[x].specs[0].link == None && a !in s.used
    case AllocCreated(x, a) => Acquiring(s, x) && s.creators[x].specs[0].link == None && a !in s.used
    case RefReply(x, r) => x in s.creators && s.creators[x].pc.SetRef?
                           && (r.Done? ==> CanReference(s.vpc, s.creators[x].pc.addr, x))
    case UndoReply(x, r) => x in s.creators && s.creators[x].pc.UndoAlloc?
                            && Replies(s.vpc, FreeIP(s.creators[x].pc.addr), r)
    case LinkReply(x, r) => Acquiring(s, x) && s.creators[x].specs[0].link.Some?
                            && (r.Done? ==> CanReference(s.vpc, s.creators[x].specs[0].link.value, x))
    case GetReply(x, ok) => x in s.creators && s.creators[x].pc.ResolveLink?
    case Attach(x, ok) => At(s, x, Persist) && (ok ==> CanAttach(s, x))
    case Finalize(x, ok) => At(s, x, Acquire) && s.creators[x].specs == []
                            && (ok ==> Writable(s, x) && s.rows[x].status == Creating)
    case CompensatePick(x, f) => x in s.creators && s.creators[x].pc.Compensate?
                                 && s.creators[x].pc.calls == []
                                 && f in s.creators[x].pc.left && f in s.creators[x].held
    case CompensateCall(x, r) => x in s.creators && s.creators[x].pc.Compensate?
                                 && s.creators[x].pc.calls != [] && Replies(s.vpc, s.creators[x].pc.calls[0], r)
    case DropHandle(x, ok) => x in s.creators && s.creators[x].pc.Compensate?
                              && s.creators[x].pc.calls == [] && s.creators[x].pc.left == {} && (ok ==> !Locked(s, x))
    case CreatorCrash(x) => x in s.creators
    case Mark(w, x) => w !in s.workers && Writable(s, x)
    case Claim(w, x) => w !in s.workers && Writable(s, x) && s.rows[x].status in {Creating, Deleting}
                        && s.rows[x].updatedAt + s.age < s.now
    case WorkerCall(w, r, poison) => w in s.workers && s.workers[w].calls != []
                                     && Replies(s.vpc, s.workers[w].calls[0], r)
    case WorkerFinish(w, ok) => w in s.workers && s.workers[w].calls == []
                                && (ok ==> s.workers[w].lb in s.rows
                                           && (s.workers[w].kind == Deleter ==> !Locked(s, s.workers[w].lb)))
    case WorkerCrash(w) => w in s.workers
    case SetStatus(x, st) => Writable(s, x) && s.rows[x].status !in {Creating, Deleting} && st !in {Creating, Deleting}
    case Touch(x) => Writable(s, x)
    case TenantCreates(a) => a !in s.used
    case TenantDeletes(a) => a in s.vpc && s.vpc[a].referrer == None
    case OtherReferences(a) => a in s.vpc && s.vpc[a].referrer == None
    case OtherClears(a) => a in s.vpc && s.vpc[a].referrer == Some(ByOther)
    case Tick(_) => true
  }

  /** AttachVIP's compare-and-swap: no status guard, only "unbound or already this one". */
  predicate CanAttach(s: State, x: LbId)
    requires x in s.creators
  {
    var c := s.creators[x];
    && Writable(s, x)
    && c.specs != [] && c.specs[0].family in c.held
    && (c.specs[0].family in s.rows[x].vips ==> s.rows[x].vips[c.specs[0].family] == c.held[c.specs[0].family])
  }

  // ---- effects ----

  function Next(s: State, e: Event): State
    requires Enabled(s, e)
  {
    match e
    case Insert(x, specs) =>
      s.(rows := s.rows[x := Row(Creating, Families(specs), map[], s.now)], born := s.born + {x},
         creators := s.creators[x := Creator(specs, map[], {}, Acquire)])
    case AllocRefused(x) => Set(s, x, Failing(s.creators[x]))
    case AllocOrphaned(x, a, retried) =>
      if retried then Make(s, x, a) else Set(Make(s, x, a), x, Failing(s.creators[x]))
    case AllocCreated(x, a) => Set(Make(s, x, a), x, s.creators[x].(pc := SetRef(a)))
    case RefReply(x, r) => AfterRef(s, x, r)
    case UndoReply(x, r) =>
      Set(s.(vpc := AfterCall(s.vpc, FreeIP(s.creators[x].pc.addr), r)), x, Failing(s.creators[x]))
    case LinkReply(x, r) =>
      var c := s.creators[x];
      var a := c.specs[0].link.value;
      Set(s.(vpc := AfterSet(s.vpc, a, x, r)), x, if r.Done? then c.(pc := ResolveLink(a)) else Failing(c))
    case GetReply(x, ok) =>
      var c := s.creators[x];
      Set(s, x, if ok && c.specs != [] then Acquired(c, Vip(c.pc.addr, Linked)) else Failing(c))
    case Attach(x, ok) => if ok then AfterAttach(s, x) else Set(s, x, Failing(s.creators[x]))
    case Finalize(x, ok) =>
      if ok then s.(rows := s.rows[x := s.rows[x].(status := Inactive, updatedAt := s.now)],
                    creators := s.creators - {x}, log := s.log + [Created(x), Registered(x)])
      else Set(s, x, Failing(s.creators[x]))
    case CompensatePick(x, f) =>
      var c := s.creators[x];
      Set(s, x, c.(pc := Compensate(c.pc.left - {f}, f, CreateRelease(c.held[f]), c.pc.failed)))
    case CompensateCall(x, r) => AfterCompensateCall(s, x, r)
    case DropHandle(x, ok) =>
      s.(rows := if ok then s.rows - {x} else s.rows, creators := s.creators - {x})
    case CreatorCrash(x) => s.(creators := s.creators - {x})
    case Mark(w, x) =>
      s.(rows := s.rows[x := s.rows[x].(status := Deleting, updatedAt := s.now)], marked := s.marked + {x},
         workers := s.workers[w := Worker(Deleter, x, s.rows[x].vips, ReleaseAll(Deleter, s.rows[x].vips))])
    case Claim(w, x) =>
      s.(workers := s.workers[w := Worker(Runner, x, s.rows[x].vips, ReleaseAll(Runner, s.rows[x].vips))])
    case WorkerCall(w, r, poison) => AfterWorkerCall(s, w, r, poison)
    case WorkerFinish(w, ok) => if ok then AfterFinish(s, w) else s.(workers := s.workers - {w})
    case WorkerCrash(w) => s.(workers := s.workers - {w})
    case SetStatus(x, st) => s.(rows := s.rows[x := s.rows[x].(status := st, updatedAt := s.now)])
    case Touch(x) => s.(rows := s.rows[x := s.rows[x].(updatedAt := s.now)])
    case TenantCreates(a) => s.(vpc := s.vpc[a := Address(None, None)], used := s.used + {a})
    case TenantDeletes(a) => s.(vpc := s.vpc - {a})
    case OtherReferences(a) => s.(vpc := s.vpc[a := s.vpc[a].(referrer := Some(ByOther))])
    case OtherClears(a) => s.(vpc := s.vpc[a := s.vpc[a].(referrer := None)])
    case Tick(d) => s.(now := s.now + d)
  }

  function Make(s: State, x: LbId, a: AddressId): State {
    s.(vpc := s.vpc[a := Address(Some(x), None)], used := s.used + {a})
  }

  /** The acquired binding goes into the local `allocated` map before it is persisted. */
  function Acquired(c: Creator, vip: Vip): Creator
    requires c.specs != []
  {
    c.(held := c.held[c.specs[0].family := vip], pc := Persist)
  }

  function AfterRef(s: State, x: LbId, r: Reply): State
    requires Enabled(s, RefReply(x, r))
  {
    var c := s.creators[x];
    Set(s.(vpc := AfterSet(s.vpc, c.pc.addr, x, r)), x,
        if r.Done? && c.specs != [] then Acquired(c, Vip(c.pc.addr, Auto)) else c.(pc := UndoAlloc(c.pc.addr)))
  }

  function AfterAttach(s: State, x: LbId): State
    requires x in s.creators && CanAttach(s, x)
  {
    var c := s.creators[x];
    var f := c.specs[0].family;
    s.(rows := s.rows[x := s.rows[x].(vips := s.rows[x].vips[f := c.held[f]], updatedAt := s.now)],
       creators := s.creators[x := c.(specs := c.specs[1..], saved := c.saved + {f}, pc := Acquire)])
  }

  /** An error skips the rest of that family's release; the loop goes on to the next family. */
  function AfterCompensateCall(s: State, x: LbId, r: Reply): State
    requires Enabled(s, CompensateCall(x, r))
  {
    var c := s.creators[x];
    var p := c.pc;
    Set(s.(vpc := AfterCall(s.vpc, p.calls[0], r)), x,
        c.(pc := if r.Done? then p.(calls := p.calls[1..]) else p.(calls := [], failed := p.failed + {p.cur})))
  }

  /** Any error ends the worker: Delete leaves the row DELETING, the runner rolls back, or, on
      a permanent error, commits a bump of `updated_at`. */
  function AfterWorkerCall(s: State, w: WorkerId, r: Reply, poison: bool): State
    requires Enabled(s, WorkerCall(w, r, poison))
  {
    var k := s.workers[w];
    var s1 := s.(vpc := AfterCall(s.vpc, k.calls[0], r));
    if r.Done? then s1.(workers := s.workers[w := k.(calls := k.calls[1..])])
    else s1.(workers := s.workers - {w},
             rows := if poison && k.kind == Runner && k.lb in s.rows
                     then s.rows[k.lb := s.rows[k.lb].(updatedAt := s.now)] else s.rows)
  }

  /** The final transaction: the row goes, and DELETED with the unregister intent is emitted by
      Delete always and by the runner for a DELETING row only. */
  function AfterFinish(s: State, w: WorkerId): State
    requires w in s.workers && s.workers[w].lb in s.rows
  {
    var k := s.workers[w];
    s.(rows := s.rows - {k.lb}, workers := s.workers - {w},
       log := if k.kind == Deleter || s.rows[k.lb].status == Deleting
              then s.log + [Deleted(k.lb), Unregistered(k.lb)] else s.log)
  }

  // ---- runs ----

  predicate Run(s: State, es: seq<Event>)
    decreases |es|
  {
    es == [] || (Enabled(s, es[0]) && Run(Next(s, es[0]), es[1..]))
  }

  /** The state a run reaches. */
  function After(s: State, es: seq<Event>): State
    requires Run(s, es)
    decreases |es|
  {
    if es == [] then s else After(Next(s, es[0]), es[1..])
  }
}
