/** The drained-zone list: normalization, the check against the region's zones, and the paged
    listing of those zones. */
module Zones {
  import opened Domain

  type Zone = string

  datatype Placement = Regional | Zonal

  datatype Error = InvalidArgument | Unavailable

  // ---- normalizeZones ----

  /** First occurrences, in order, without the empty name. */
  function Normalize(zones: seq<Zone>): seq<Zone> {
    if zones == [] then []
    else
      var rest := Normalize(zones[..|zones| - 1]);
      var z := zones[|zones| - 1];
      if z == "" || z in rest then rest else rest + [z]
  }

  predicate NoDuplicates(zones: seq<Zone>) {
    forall i, j :: 0 <= i < j < |zones| ==> zones[i] != zones[j]
  }

  lemma {:induction false} NormalizeIsASet(zones: seq<Zone>)
    ensures NoDuplicates(Normalize(zones)) && "" !in Normalize(zones)
    ensures forall z :: z in Normalize(zones) <==> z in zones && z != ""
  {
    if zones != [] {
      var n := |zones| - 1;
      NormalizeIsASet(zones[..n]);
      assert zones == zones[..n] + [zones[n]];
    }
  }

  /** b is not listed before the first a. */
  predicate Precedes(zones: seq<Zone>, a: Zone, b: Zone) {
    exists k :: 0 <= k < |zones| && zones[k] == a && b !in zones[..k]
  }

  /** The names stay in the order in which they first occur. */
  lemma {:induction false} NormalizeKeepsOrder(zones: seq<Zone>, i: nat, j: nat)
    requires i < j < |Normalize(zones)|
    ensures Precedes(zones, Normalize(zones)[i], Normalize(zones)[j])
  {
    var n := |zones| - 1;
    var rest, a, b := Normalize(zones[..n]), Normalize(zones)[i], Normalize(zones)[j];
    NormalizeIsASet(zones[..n]);
    if j < |rest| {
      NormalizeKeepsOrder(zones[..n], i, j);
      var k :| 0 <= k < n && zones[..n][k] == a && b !in zones[..n][..k];
      assert zones[k] == a && zones[..k] == zones[..n][..k];
    } else {
      assert a in rest && b !in rest;
      var k :| 0 <= k < n && zones[..n][k] == a;
      assert zones[k] == a && forall z :: z in zones[..k] ==> z in zones[..n];
    }
  }

  lemma {:induction false} NormalizeAgain(zones: seq<Zone>)
    requires NoDuplicates(zones) && "" !in zones
    ensures Normalize(zones) == zones
  {
    if zones != [] {
      var n := |zones| - 1;
      assert "" !in zones[..n];
      NormalizeAgain(zones[..n]);
      assert zones[n] !in zones[..n];
      assert zones[n] in zones;
      assert zones == zones[..n] + [zones[n]];
    }
  }

  /** Normalizing twice changes nothing, so two lists are equal after it or never. */
  lemma NormalizeIdempotent(zones: seq<Zone>)
    ensures Normalize(Normalize(zones)) == Normalize(zones)
  {}

  method NormalizeZones(zones: seq<Zone>) returns (out: seq<Zone>)
    ensures out == Normalize(zones)
  {
    out := [];
    if |zones| == 0 { return; }
    var seen: set<Zone> := {};
    for i := 0 to |zones|
      invariant out == Normalize(zones[..i])
      invariant forall z :: z in seen <==> z in out
    {
      var z := zones[i];
      assert zones[..i + 1][..i] == zones[..i];
      if z == "" { continue; }
      if z in seen { continue; }
      seen := seen + {z};
      out := out + [z];
    }
    assert zones[..|zones|] == zones;
  }

  // ---- the region's zones ----

  datatype ZoneEntry = ZoneEntry(id: Zone, region: string)

  /** One reply of the zone service; `last` when its next-page token is empty. */
  datatype Page = Page(zones: seq<ZoneEntry>, last: bool)

  function InRegion(entries: seq<ZoneEntry>, region: string): seq<Zone> {
    if entries == [] then []
    else
      var n := |entries| - 1;
      InRegion(entries[..n], region) + (if entries[n].region == region then [entries[n].id] else [])
  }

  lemma {:induction false} InRegionConcat(a: seq<ZoneEntry>, b: seq<ZoneEntry>, region: string)
    ensures InRegion(a + b, region) == InRegion(a, region) + InRegion(b, region)
  {
    if b == [] {
      assert a + b == a;
    } else {
      var n := |b| - 1;
      assert (a + b)[..|a + b| - 1] == a + b[..n];
      InRegionConcat(a, b[..n], region);
    }
  }

  lemma {:induction false} InRegionHas(entries: seq<ZoneEntry>, region: string, z: Zone)
    ensures z in InRegion(entries, region) <==> ZoneEntry(z, region) in entries
  {
    if entries != [] {
      var n := |entries| - 1;
      InRegionHas(entries[..n], region, z);
      assert entries == entries[..n] + [entries[n]];
    }
  }

  function Entries(replies: seq<Result<Page, Error>>): seq<ZoneEntry> {
    if replies == [] then []
    else
      var n := |replies| - 1;
      Entries(replies[..n]) + (if replies[n].Ok? then replies[n].value.zones else [])
  }

  lemma {:induction false} EntriesConcat(a: seq<Result<Page, Error>>, b: seq<Result<Page, Error>>)
    ensures Entries(a + b) == Entries(a) + Entries(b)
  {
    if b == [] {
      assert a + b == a;
    } else {
      var n := |b| - 1;
      assert (a + b)[..|a + b| - 1] == a + b[..n];
      EntriesConcat(a, b[..n]);
    }
  }

  /** The listing ends here: with a last page or an error. */
  predicate Ends(reply: Result<Page, Error>) {
    reply.Err? || reply.value.last
  }

  /** What one walk over the pages gets: replies up to the first that ends it. */
  predicate Complete(replies: seq<Result<Page, Error>>) {
    replies != [] && Ends(replies[|replies| - 1]) && forall i :: 0 <= i < |replies| - 1 ==> !Ends(replies[i])
  }

  /** A walk over the catalogue: it may be cut into pages anywhere, and it may end in an error. */
  predicate Served(catalogue: seq<ZoneEntry>, replies: seq<Result<Page, Error>>) {
    Complete(replies) && (replies[|replies| - 1].Ok? ==> Entries(replies) == catalogue)
  }

  /** The listing a walk gives: the zones of the region over all pages, in order, or the error. */
  function ListResult(region: string, replies: seq<Result<Page, Error>>): Result<seq<Zone>, Error>
    requires Complete(replies)
  {
    var end := replies[|replies| - 1];
    if region == "" then Err(InvalidArgument)
    else if end.Err? then Err(end.error)
    else Ok(InRegion(Entries(replies), region))
  }

  /** The loop over one page. */
  method KeepRegion(before: seq<Zone>, zones: seq<ZoneEntry>, region: string) returns (out: seq<Zone>)
    ensures out == before + InRegion(zones, region)
  {
    out := before;
    for i := 0 to |zones|
      invariant out == before + InRegion(zones[..i], region)
    {
      assert zones[..i + 1][..i] == zones[..i];
      if zones[i].region == region {
        out := out + [zones[i].id];
      }
    }
    assert zones[..|zones|] == zones;
  }

  /** The paging loop. */
  method ListZoneIDsInRegion(region: string, replies: seq<Result<Page, Error>>) returns (r: Result<seq<Zone>, Error>)
    requires Complete(replies)
    ensures r == ListResult(region, replies)
    ensures region == "" ==> r == Err(InvalidArgument)
    ensures region != "" ==>
      match replies[|replies| - 1]
      case Err(e) => r == Err(e)
      case Ok(_) => r == Ok(InRegion(Entries(replies), region))
  {
    if region == "" { return Err(InvalidArgument); }
    var out: seq<Zone> := [];
    var page := 0;
    while true
      invariant page < |replies| && out == InRegion(Entries(replies[..page]), region)
      decreases |replies| - page
    {
      var reply := replies[page];
      assert replies[..page + 1][..page] == replies[..page];
      assert page == |replies| - 1 ==> replies[..page + 1] == replies;
      if reply.Err? { return Err(reply.error); }
      InRegionConcat(Entries(replies[..page]), reply.value.zones, region);
      out := KeepRegion(out, reply.value.zones, region);
      if reply.value.last { return Ok(out); }
      page := page + 1;
    }
  }

  /** The catalogue served in pages of these sizes (any of which may be empty), and the rest. */
  function Paged(catalogue: seq<ZoneEntry>, sizes: seq<nat>): (replies: seq<Result<Page, Error>>)
    ensures replies != []
    decreases |sizes|
  {
    if sizes == [] then [Ok(Page(catalogue, true))]
    else
      var k := if sizes[0] < |catalogue| then sizes[0] else |catalogue|;
      [Ok(Page(catalogue[..k], false))] + Paged(catalogue[k..], sizes[1..])
  }

  /** A page before a walk that serves the rest. */
  lemma OnePageMore(page: seq<ZoneEntry>, rest: seq<ZoneEntry>, replies: seq<Result<Page, Error>>)
    requires Served(rest, replies) && replies[|replies| - 1].Ok?
    ensures Served(page + rest, [Ok(Page(page, false))] + replies)
  {
    var head: seq<Result<Page, Error>> := [Ok(Page(page, false))];
    EntriesConcat(head, replies);
    assert head[..0] == [] && Entries(head) == page;
    var all := head + replies;
    assert all[|all| - 1] == replies[|replies| - 1];
    assert forall i :: 1 <= i < |all| ==> all[i] == replies[i - 1];
  }

  lemma {:induction false} PagedIsServed(catalogue: seq<ZoneEntry>, sizes: seq<nat>)
    ensures Served(catalogue, Paged(catalogue, sizes))
    ensures Paged(catalogue, sizes)[|Paged(catalogue, sizes)| - 1].Ok?
    decreases |sizes|
  {
    hide Served, Entries;
    if sizes == [] {
      LastPage(catalogue);
    } else {
      var k := if sizes[0] < |catalogue| then sizes[0] else |catalogue|;
      PagedIsServed(catalogue[k..], sizes[1..]);
      OnePageMore(catalogue[..k], catalogue[k..], Paged(catalogue[k..], sizes[1..]));
      assert catalogue == catalogue[..k] + catalogue[k..];
    }
  }

  lemma LastPage(catalogue: seq<ZoneEntry>)
    ensures Served(catalogue, [Ok(Page(catalogue, true))])
  {
    var only: seq<Result<Page, Error>> := [Ok(Page(catalogue, true))];
    assert only[..0] == [];
  }

  /** However the catalogue is cut into pages, the loop lists the same zones: those of the region,
      in the catalogue's order, all of them. */
  lemma PagingDoesNotMatter(catalogue: seq<ZoneEntry>, sizes: seq<nat>, others: seq<nat>, region: string)
    requires region != ""
    ensures Complete(Paged(catalogue, sizes)) && Complete(Paged(catalogue, others))
    ensures ListResult(region, Paged(catalogue, sizes)) == ListResult(region, Paged(catalogue, others))
    ensures var r := ListResult(region, Paged(catalogue, sizes));
      r.Ok? && forall z :: z in r.value <==> ZoneEntry(z, region) in catalogue
  {
    PagedIsServed(catalogue, sizes);
    PagedIsServed(catalogue, others);
    forall z ensures z in InRegion(catalogue, region) <==> ZoneEntry(z, region) in catalogue {
      InRegionHas(catalogue, region, z);
    }
  }

  // ---- checkDisabledAnnounceZones ----

  function AsSet(zones: seq<Zone>): set<Zone> {
    set z | z in zones
  }

  /** Some zone of the region stays: a drained list of a REGIONAL balancer only, inside the
      region, and not all of it. Without a zone client only the placement is checked. */
  predicate Allowed(placement: Placement, zones: seq<Zone>, listing: Option<Result<seq<Zone>, Error>>) {
    zones == [] ||
    (placement == Regional &&
      (listing.Some? ==> listing.value.Ok? && AsSet(zones) < AsSet(listing.value.value)))
  }

  /** The listing the check is given: none without a zone client. */
  function Listing(catalogue: Option<seq<ZoneEntry>>, region: string, replies: seq<Result<Page, Error>>)
    : Option<Result<seq<Zone>, Error>>
    requires catalogue.Some? ==> Complete(replies)
  {
    if catalogue.Some? then Some(ListResult(region, replies)) else None
  }

  /** What the drained list has to be at a placement and a region. */
  predicate Strict(catalogue: Option<seq<ZoneEntry>>, placement: Placement, region: string, zones: seq<Zone>) {
    zones == [] ||
    (placement == Regional && (catalogue.Some? ==> AsSet(zones) < AsSet(InRegion(catalogue.value, region))))
  }

  /** Whatever the paging, what passes the check is strict in the catalogue; and without an error
      of the service it passes exactly then. */
  lemma AllowedIsStrict(catalogue: Option<seq<ZoneEntry>>, placement: Placement, region: string, zones: seq<Zone>,
                        replies: seq<Result<Page, Error>>)
    requires catalogue.Some? ==> Served(catalogue.value, replies)
    ensures Allowed(placement, zones, Listing(catalogue, region, replies)) ==>
      Strict(catalogue, placement, region, zones)
    ensures region != "" && (catalogue.Some? ==> replies[|replies| - 1].Ok?) ==>
      (Allowed(placement, zones, Listing(catalogue, region, replies)) <==> Strict(catalogue, placement, region, zones))
  {}

  method CheckDisabledAnnounceZones(placement: Placement, zones: seq<Zone>, listing: Option<Result<seq<Zone>, Error>>)
    returns (r: Result<(), Error>)
    ensures r.Ok? <==> Allowed(placement, zones, listing)
    ensures r.Err? && placement == Regional && listing.Some? && listing.value.Err? ==> r.error == listing.value.error
    ensures r.Err? && !(placement == Regional && listing.Some? && listing.value.Err?) ==> r.error == InvalidArgument
  {
    if |zones| == 0 { return Ok(()); }
    if placement != Regional { return Err(InvalidArgument); }
    if listing == None { return Ok(()); }
    if listing.value.Err? { return Err(listing.value.error); }
    var regionZones := listing.value.value;
    var inRegion: set<Zone> := {};
    for i := 0 to |regionZones|
      invariant inRegion == AsSet(regionZones[..i])
    {
      assert regionZones[..i + 1] == regionZones[..i] + [regionZones[i]];
      inRegion := inRegion + {regionZones[i]};
    }
    assert regionZones[..|regionZones|] == regionZones;
    var drained: set<Zone> := {};
    for i := 0 to |zones|
      invariant drained == AsSet(zones[..i]) && drained <= inRegion
    {
      if zones[i] !in inRegion {
        assert zones[i] in AsSet(zones);
        return Err(InvalidArgument);
      }
      assert zones[..i + 1] == zones[..i] + [zones[i]];
      drained := drained + {zones[i]};
    }
    assert zones[..|zones|] == zones;
    if |regionZones| > 0 && |drained| >= |inRegion| {
      FullSubset(drained, inRegion);
      return Err(InvalidArgument);
    }
    assert zones[0] in drained && zones[0] in inRegion;
    assert |regionZones| > 0;
    assert |drained| < |inRegion|;
    assert drained != inRegion;
    return Ok(());
  }

  lemma FullSubset(a: set<Zone>, b: set<Zone>)
    requires a <= b && |a| >= |b|
    ensures a == b
  {
    var rest := b - a;
    assert b == a + rest && |b| == |a| + |rest|;
    assert rest == {};
  }
}
