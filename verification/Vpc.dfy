/** The external address service, as far as the load balancer uses it, and the three
    independently written routines that give a virtual IP back to it. */
module Vpc {
  import opened Domain

  datatype Referrer = ByLb(lb: LbId) | ByOther

  /** `maker` is the load balancer the address was ordered for, or None when the tenant
      brought the address; `referrer` is the current holder of `used_by`. */
  datatype Address = Address(maker: Option<LbId>, referrer: Option<Referrer>)

  type Store = map<AddressId, Address>

  datatype Call = ClearReference(addr: AddressId) | FreeIP(addr: AddressId)

  /** What a caller sees: success, or an error that may or may not hide a finished request. */
  datatype Reply = Done | Failed(applied: bool)

  /** Delete is refused while the address is referenced; a missing address counts as deleted. */
  predicate Refused(store: Store, call: Call) {
    call.FreeIP? && call.addr in store && store[call.addr].referrer.Some?
  }

  function Effect(store: Store, call: Call): Store {
    if call.addr !in store || Refused(store, call) then store
    else if call.ClearReference? then store[call.addr := store[call.addr].(referrer := None)]
    else store - {call.addr}
  }

  function AfterCall(store: Store, call: Call, reply: Reply): Store {
    if reply.Done? || reply.applied then Effect(store, call) else store
  }

  predicate Replies(store: Store, call: Call, reply: Reply) {
    reply.Done? ==> !Refused(store, call)
  }

  /** SetAddressReference is a compare-and-swap on `used_by`. */
  predicate CanReference(store: Store, addr: AddressId, lb: LbId) {
    addr in store && (store[addr].referrer == None || store[addr].referrer == Some(ByLb(lb)))
  }

  function SetReference(store: Store, addr: AddressId, lb: LbId): Store {
    if CanReference(store, addr, lb) then store[addr := store[addr].(referrer := Some(ByLb(lb)))] else store
  }

  function AfterSet(store: Store, addr: AddressId, lb: LbId, reply: Reply): Store {
    if reply.Done? || reply.applied then SetReference(store, addr, lb) else store
  }

  // ---- the three release routines ----

  /** Create's compensation: everything that is not linked is owned. */
  function CreateRelease(vip: Vip): seq<Call> {
    if vip.origin == Linked then [ClearReference(vip.addr)]
    else [ClearReference(vip.addr), FreeIP(vip.addr)]
  }

  /** Delete: only auto is owned. */
  function DeleteRelease(vip: Vip): seq<Call> {
    if vip.origin == Auto then [ClearReference(vip.addr), FreeIP(vip.addr)]
    else [ClearReference(vip.addr)]
  }

  /** The background runner. */
  function RunnerRelease(vip: Vip): seq<Call> {
    if vip.origin == Linked then [ClearReference(vip.addr)]
    else [ClearReference(vip.addr), FreeIP(vip.addr)]
  }

  /** The routines agree exactly on the two origins Create can bind. */
  lemma ReleasesAgreeIff(vip: Vip)
    ensures CreateRelease(vip) == RunnerRelease(vip)
    ensures DeleteRelease(vip) == RunnerRelease(vip) <==> vip.origin in {Auto, Linked}
  {}

  function Execute(store: Store, calls: seq<Call>): Store {
    if calls == [] then store else Execute(Effect(store, calls[0]), calls[1..])
  }

  /** Stopping a release after any prefix of its calls and running the whole release again
      reaches the store one uninterrupted release reaches. */
  lemma RetryConverges(store: Store, vip: Vip, done: nat)
    requires done <= |RunnerRelease(vip)|
    ensures Execute(Execute(store, RunnerRelease(vip)[..done]), RunnerRelease(vip))
         == Execute(store, RunnerRelease(vip))
    ensures var plan := DeleteRelease(vip);
      Execute(Execute(store, plan[..if done < |plan| then done else |plan|]), plan) == Execute(store, plan)
  {
    var a := vip.addr;
    var cleared := Effect(store, ClearReference(a));
    assert Effect(cleared, ClearReference(a)) == cleared;
    var freed := Effect(cleared, FreeIP(a));
    assert a !in freed;
    assert forall s: Store, c :: Execute(s, [c]) == Effect(s, c);
    assert forall s: Store, c, d :: [c, d][1..] == [d] && Execute(s, [c, d]) == Execute(Effect(s, c), [d]);
    assert forall s: Store :: Execute(s, []) == s;
    var one, two := [ClearReference(a)], [ClearReference(a), FreeIP(a)];
    assert two[..1] == one && one[..1] == one && two[..2] == two && one[..0] == [] == two[..0];
  }

  /** What a completed release leaves behind. */
  lemma ReleaseOutcome(store: Store, vip: Vip)
    requires vip.origin in {Auto, Linked}
    ensures var after := Execute(store, RunnerRelease(vip));
      && (vip.origin == Auto ==> after == store - {vip.addr})
      && (vip.origin == Linked && vip.addr in store ==>
            after == store[vip.addr := store[vip.addr].(referrer := None)])
  {
    var a := vip.addr;
    var two := [ClearReference(a), FreeIP(a)];
    assert two[1..] == [FreeIP(a)];
    var cleared := Effect(store, ClearReference(a));
    assert Execute(cleared, [FreeIP(a)]) == Effect(cleared, FreeIP(a));
    assert Execute(store, [ClearReference(a)]) == cleared;
  }
}
