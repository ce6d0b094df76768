/** The request checks on virtual-IP sources, and why what passes them is a list the saga can
    start from. */
module VipSources {
  import opened Domain
  import VipSaga

  /** The `VipSource` oneof of one family. */
  datatype Source = Subnet(subnet: string) | Public | ExistingAddress(addr: AddressId)

  datatype LbType = Internal | External

  datatype Placement = Zonal | Regional | Unspecified

  /** A parsed family; network and zone are filled in when its subnet is resolved. */
  datatype FamilySpec = FamilySpec(family: Family, source: Source, network: string, zone: string)

  datatype Error = InvalidArgument | Unavailable | LookupFailed

  function ResolvePlacement(lbType: LbType, requested: Placement): Result<Placement, Error> {
    if lbType == Internal then (if requested == Unspecified then Err(InvalidArgument) else Ok(requested))
    else if requested != Unspecified then Err(InvalidArgument) else Ok(Unspecified)
  }

  /** A load balancer has a placement exactly when it is internal. */
  lemma PlacementIffInternal(lbType: LbType, requested: Placement)
    ensures var r := ResolvePlacement(lbType, requested);
      && (r.Ok? <==> (lbType == Internal <==> requested != Unspecified))
      && (r.Ok? ==> r.value == requested)
  {}

  predicate FamilyIs(specs: seq<FamilySpec>, i: nat, family: Family, source: Source)
    requires i < |specs|
  {
    specs[i] == FamilySpec(family, source, "", "")
  }

  /** The sources in family order; at least one, and each well-formed. */
  method ResolveVipSources(v4: Option<Source>, v6: Option<Source>, wellFormed: Source -> bool)
    returns (r: Result<seq<FamilySpec>, Error>)
    ensures r.Ok? <==>
      && (v4.Some? || v6.Some?)
      && (v4.Some? ==> wellFormed(v4.value)) && (v6.Some? ==> wellFormed(v6.value))
    ensures r.Ok? ==> |r.value| == (if v4.Some? then 1 else 0) + (if v6.Some? then 1 else 0)
    ensures r.Ok? && v4.Some? ==> FamilyIs(r.value, 0, V4, v4.value)
    ensures r.Ok? && v6.Some? ==> FamilyIs(r.value, |r.value| - 1, V6, v6.value)
    ensures r.Err? ==> r.error == InvalidArgument
  {
    var out: seq<FamilySpec> := [];
    if v4.Some? {
      if !wellFormed(v4.value) { return Err(InvalidArgument); }
      out := out + [FamilySpec(V4, v4.value, "", "")];
    }
    if v6.Some? {
      if !wellFormed(v6.value) { return Err(InvalidArgument); }
      out := out + [FamilySpec(V6, v6.value, "", "")];
    }
    if |out| == 0 { return Err(InvalidArgument); }
    return Ok(out);
  }

  predicate Matches(source: Source, lbType: LbType) {
    (source.Subnet? ==> lbType == Internal) && (source.Public? ==> lbType == External)
  }

  method ValidateSourceTypeMatrix(specs: seq<FamilySpec>, lbType: LbType) returns (r: Result<(), Error>)
    ensures r.Ok? <==> forall i :: 0 <= i < |specs| ==> Matches(specs[i].source, lbType)
  {
    for i := 0 to |specs|
      invariant forall j :: 0 <= j < i ==> Matches(specs[j].source, lbType)
    {
      if specs[i].source.Subnet? && lbType != Internal { return Err(InvalidArgument); }
      if specs[i].source.Public? && lbType != External { return Err(InvalidArgument); }
    }
    return Ok(());
  }

  method FamiliesFromSpecs(specs: seq<FamilySpec>) returns (out: seq<Family>)
    ensures |out| == |specs| && forall i :: 0 <= i < |specs| ==> out[i] == specs[i].family
  {
    out := [];
    for i := 0 to |specs|
      invariant |out| == i && forall j :: 0 <= j < i ==> out[j] == specs[j].family
    {
      out := out + [specs[i].family];
    }
  }

  // ---- the dual-stack invariant ----

  /** Equal wherever set. */
  predicate Coherent(values: seq<string>) {
    forall i, j :: 0 <= i < |values| && 0 <= j < |values| && values[i] != "" && values[j] != "" ==>
      values[i] == values[j]
  }

  /** The loop that remembers the first set value. */
  method SameEverywhere(values: seq<string>) returns (ok: bool)
    ensures ok <==> Coherent(values)
  {
    var seen := "";
    for i := 0 to |values|
      invariant seen == "" ==> forall j :: 0 <= j < i ==> values[j] == ""
      invariant seen != "" ==>
        (exists j :: 0 <= j < i && values[j] == seen) && forall j :: 0 <= j < i ==> values[j] in {"", seen}
    {
      if values[i] == "" { continue; }
      if seen == "" {
        seen := values[i];
        continue;
      }
      if values[i] != seen { return false; }
    }
    return true;
  }

  // ---- resolving the sources ----

  /** The load balancer to be, as far as its sources depend on it. */
  datatype Balancer = Balancer(lbType: LbType, placement: Placement, region: string, project: string)

  datatype SubnetInfo = SubnetInfo(placement: Placement, region: string, network: string, zone: string)

  datatype AddressInfo = AddressInfo(project: string, family: Family, external: bool, subnet: string)

  datatype Lookup<T> = Found(info: T) | Missing | Down | Broken

  /** The two services the checks ask; None when the client is not configured. */
  datatype Services = Services(
    subnets: Option<string -> Lookup<SubnetInfo>>, addresses: Option<AddressId -> Lookup<AddressInfo>>)

  predicate SubnetFits(lb: Balancer, sn: SubnetInfo) {
    lb.placement != Unspecified && sn.placement == lb.placement && (sn.region == "" || sn.region == lb.region)
  }

  predicate SubnetOk(vpc: Services, lb: Balancer, subnet: string) {
    vpc.subnets.Some? ==> vpc.subnets.value(subnet).Found? && SubnetFits(lb, vpc.subnets.value(subnet).info)
  }

  /** An existing address of the tenant, of that family and of the right kind. */
  predicate Linkable(lb: Balancer, family: Family, found: Lookup<AddressInfo>) {
    && found.Found? && found.info.project == lb.project && found.info.family == family
    && found.info.external == (lb.lbType == External)
  }

  /** What a source has to satisfy, as far as there is somebody to ask. */
  predicate SourceOk(vpc: Services, lb: Balancer, fs: FamilySpec) {
    match fs.source
    case Subnet(id) => SubnetOk(vpc, lb, id)
    case Public => true
    case ExistingAddress(a) => vpc.addresses.Some? ==>
      && Linkable(lb, fs.family, vpc.addresses.value(a))
      && (lb.lbType == Internal ==> SubnetOk(vpc, lb, vpc.addresses.value(a).info.subnet))
  }

  /** The subnet a source resolves to, of which the family gets its network and zone. */
  function ResolvedSubnet(vpc: Services, lb: Balancer, fs: FamilySpec): Option<SubnetInfo>
    requires SourceOk(vpc, lb, fs)
  {
    match fs.source
    case Subnet(id) => if vpc.subnets.Some? then Some(vpc.subnets.value(id).info) else None
    case Public => None
    case ExistingAddress(a) =>
      if vpc.addresses.Some? && vpc.subnets.Some? && lb.lbType == Internal
      then Some(vpc.subnets.value(vpc.addresses.value(a).info.subnet).info) else None
  }

  function Resolved(vpc: Services, lb: Balancer, fs: FamilySpec): FamilySpec
    requires SourceOk(vpc, lb, fs)
  {
    match ResolvedSubnet(vpc, lb, fs)
    case Some(sn) => fs.(network := sn.network, zone := sn.zone)
    case None => fs
  }

  /** Some service did not answer. */
  ghost predicate SomeDown(vpc: Services) {
    || (vpc.subnets.Some? && exists id :: vpc.subnets.value(id) == Down)
    || (vpc.addresses.Some? && exists a :: vpc.addresses.value(a) == Down)
  }

  function LookupError<T>(found: Lookup<T>): Error
    requires !found.Found?
  {
    match found case Missing => InvalidArgument case Down => Unavailable case Broken => LookupFailed
  }

  /** The family after its subnet was found to fit: same placement, no other region, and the
      family's network and zone are the subnet's. */
  predicate FilledFrom(lb: Balancer, fs: FamilySpec, found: Lookup<SubnetInfo>, filled: FamilySpec) {
    && found.Found? && found.info.placement == lb.placement && found.info.region in {"", lb.region}
    && filled == FamilySpec(fs.family, fs.source, found.info.network, found.info.zone)
  }

  /** Everything that is wrong with a linked address is reported as one error, so that nothing is
      told about it; only a service that is down shows. */
  method ResolveLinkedAddress(vpc: Services, lb: Balancer, fs: FamilySpec) returns (r: Result<FamilySpec, Error>)
    requires fs.source.ExistingAddress?
    ensures r.Ok? <==> SourceOk(vpc, lb, fs)
    ensures r.Ok? ==> r.value == Resolved(vpc, lb, fs)
    ensures r.Ok? ==>
      if vpc.addresses.Some? && vpc.subnets.Some? && lb.lbType == Internal
      then FilledFrom(lb, fs, vpc.subnets.value(vpc.addresses.value(fs.source.addr).info.subnet), r.value)
      else r.value == fs
    ensures r.Err? ==>
      vpc.addresses.Some? &&
      match vpc.addresses.value(fs.source.addr)
      case Down => r.error == Unavailable
      case Broken => r.error == LookupFailed
      case Missing => r.error == InvalidArgument
      case Found(info) =>
        if Linkable(lb, fs.family, Found(info)) && vpc.subnets.Some? && vpc.subnets.value(info.subnet) == Down
        then r.error == Unavailable else r.error == InvalidArgument
    ensures r == Err(Unavailable) ==> SomeDown(vpc)
  {
    if vpc.addresses == None { return Ok(fs); }
    var found := vpc.addresses.value(fs.source.addr);
    if !found.Found? { return Err(LookupError(found)); }
    var addr := found.info;
    var internalWanted := lb.lbType == Internal;
    if addr.project != lb.project || addr.family != fs.family || addr.external == internalWanted {
      return Err(InvalidArgument);
    }
    if internalWanted {
      if vpc.subnets == None { return Ok(fs); }
      var subnet := vpc.subnets.value(addr.subnet);
      if !subnet.Found? { return Err(if subnet == Down then Unavailable else InvalidArgument); }
      if !SubnetFits(lb, subnet.info) { return Err(InvalidArgument); }
      return Ok(fs.(network := subnet.info.network, zone := subnet.info.zone));
    }
    return Ok(fs);
  }

  /** A named subnet gives the family its network and zone and must fit the balancer; a public
      source has neither. */
  method ResolveOneSource(vpc: Services, lb: Balancer, fs: FamilySpec) returns (r: Result<FamilySpec, Error>)
    ensures r.Ok? <==> SourceOk(vpc, lb, fs)
    ensures r.Ok? ==> r.value == Resolved(vpc, lb, fs)
    ensures r.Ok? && fs.source.Subnet? ==>
      if vpc.subnets.Some? then FilledFrom(lb, fs, vpc.subnets.value(fs.source.subnet), r.value) else r.value == fs
    ensures fs.source.Public? ==> r == Ok(fs)
    ensures r.Err? && fs.source.Subnet? ==>
      vpc.subnets.Some? &&
      match vpc.subnets.value(fs.source.subnet)
      case Down => r.error == Unavailable
      case Broken => r.error == LookupFailed
      case _ => r.error == InvalidArgument
    ensures r.Ok? ==> r.value.family == fs.family && r.value.source == fs.source
    ensures r == Err(Unavailable) ==> SomeDown(vpc)
  {
    match fs.source
    case Subnet(id) =>
      if vpc.subnets == None { return Ok(fs); }
      var subnet := vpc.subnets.value(id);
      if !subnet.Found? { return Err(LookupError(subnet)); }
      if !SubnetFits(lb, subnet.info) { return Err(InvalidArgument); }
      return Ok(fs.(network := subnet.info.network, zone := subnet.info.zone));
    case Public => return Ok(fs);
    case ExistingAddress(_) => r := ResolveLinkedAddress(vpc, lb, fs);
  }

  predicate AllOk(vpc: Services, lb: Balancer, specs: seq<FamilySpec>) {
    forall i :: 0 <= i < |specs| ==> SourceOk(vpc, lb, specs[i])
  }

  function AllResolved(vpc: Services, lb: Balancer, specs: seq<FamilySpec>): seq<FamilySpec>
    requires AllOk(vpc, lb, specs)
  {
    seq(|specs|, i requires 0 <= i < |specs| => Resolved(vpc, lb, specs[i]))
  }

  function Networks(specs: seq<FamilySpec>): seq<string> {
    seq(|specs|, i requires 0 <= i < |specs| => specs[i].network)
  }

  function ZonesOf(specs: seq<FamilySpec>): seq<string> {
    seq(|specs|, i requires 0 <= i < |specs| => specs[i].zone)
  }

  /** Every source is resolved; then the families must agree on the network, and on the zone if
      the load balancer is zonal. */
  method ResolveSources(vpc: Services, lb: Balancer, specs: seq<FamilySpec>)
    returns (r: Result<seq<FamilySpec>, Error>)
    ensures r.Ok? <==>
      && AllOk(vpc, lb, specs)
      && Coherent(Networks(AllResolved(vpc, lb, specs)))
      && (lb.placement == Zonal ==> Coherent(ZonesOf(AllResolved(vpc, lb, specs))))
    ensures r.Ok? ==> r.value == AllResolved(vpc, lb, specs)
    ensures r == Err(Unavailable) ==> SomeDown(vpc)
  {
    hide SourceOk, Resolved, Coherent, SomeDown;
    var out: seq<FamilySpec> := [];
    for i := 0 to |specs|
      invariant |out| == i
      invariant forall j :: 0 <= j < i ==> SourceOk(vpc, lb, specs[j]) && out[j] == Resolved(vpc, lb, specs[j])
    {
      var one := ResolveOneSource(vpc, lb, specs[i]);
      if one.Err? { return Err(one.error); }
      out := out + [one.value];
    }
    assert out == AllResolved(vpc, lb, specs);
    var sameNetwork := SameEverywhere(Networks(out));
    if !sameNetwork { return Err(InvalidArgument); }
    if lb.placement == Zonal {
      var sameZone := SameEverywhere(ZonesOf(out));
      if !sameZone { return Err(InvalidArgument); }
    }
    return Ok(out);
  }

  // ---- what the saga starts from ----

  function ToSpec(s: FamilySpec): VipSaga.Spec {
    VipSaga.Spec(s.family, match s.source case ExistingAddress(a) => Some(a) case _ => None)
  }

  function ToSpecs(specs: seq<FamilySpec>): seq<VipSaga.Spec> {
    seq(|specs|, i requires 0 <= i < |specs| => ToSpec(specs[i]))
  }

  predicate FromSources(specs: seq<FamilySpec>) {
    specs != [] && forall i, j :: 0 <= i < j < |specs| ==> specs[i].family != specs[j].family
  }

  /** Checked links of two families are two addresses, because an address has one family: the
      saga's start condition holds. */
  lemma CheckedSpecsAreValid(vpc: Services, used: set<AddressId>, lb: Balancer, specs: seq<FamilySpec>)
    requires FromSources(specs) && AllOk(vpc, lb, specs) && vpc.addresses.Some?
    requires forall a :: vpc.addresses.value(a).Found? ==> a in used
    ensures VipSaga.ValidSpecs(used, ToSpecs(AllResolved(vpc, lb, specs)))
  {
    forall i | 0 <= i < |specs| && specs[i].source.ExistingAddress?
      ensures Linkable(lb, specs[i].family, vpc.addresses.value(specs[i].source.addr))
    {
      assert SourceOk(vpc, lb, specs[i]);
    }
    hide SourceOk, SubnetOk;
  }

  /** Without the family check one address could be linked for both families. */
  lemma UncheckedLinksMayCoincide(a: AddressId)
    ensures exists specs :: FromSources(specs) && !VipSaga.ValidSpecs({a}, ToSpecs(specs))
  {
    var specs := [FamilySpec(V4, ExistingAddress(a), "", ""), FamilySpec(V6, ExistingAddress(a), "", "")];
    var out := ToSpecs(specs);
    assert out[0].link == Some(a) == out[1].link;
    assert FromSources(specs) && !VipSaga.ValidSpecs({a}, out);
  }
}
