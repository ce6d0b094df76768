/** Masked updates of a load-balancer row: read, apply the mask, write back if the row version is
    still the one read. */
module Updates {
  import opened Domain
  import opened Zones

  type Labels = map<string, string>

  /** The mutable fields of the row, also the shape of an update request. */
  datatype Fields = Fields(
    name: string, description: string, labels: Labels, protection: bool, affinity: string, zones: seq<Zone>)

  /** `rest` stands for every column other writers change: status, project, bindings. */
  datatype Row = Row(fields: Fields, placement: Placement, region: string, rest: nat, xmin: nat)

  const KNOWN_FIELDS: set<string> :=
    {"name", "description", "labels", "deletion_protection", "session_affinity", "disabled_announce_zones"}

  const IMMUTABLE_FIELDS: set<string> :=
    {"type", "placement_type", "region_id", "project_id", "v4_source", "v6_source", "v4_address_id", "v6_address_id"}

  /** A field, read by the path a mask names it with. */
  datatype Value = Text(text: string) | Map(labels: Labels) | Flag(on: bool) | List(zones: seq<Zone>)

  function FieldAt(f: Fields, path: string): Option<Value> {
    match path
    case "name" => Some(Text(f.name))
    case "description" => Some(Text(f.description))
    case "labels" => Some(Map(f.labels))
    case "deletion_protection" => Some(Flag(f.protection))
    case "session_affinity" => Some(Text(f.affinity))
    case "disabled_announce_zones" => Some(List(f.zones))
    case _ => None
  }

  /** The known paths are those of the fields. */
  lemma KnownIsField(f: Fields, path: string)
    ensures path in KNOWN_FIELDS <==> FieldAt(f, path).Some?
  {}

  datatype MaskError = ImmutableField(path: string) | UnknownField(path: string)

  predicate FirstBad(mask: seq<string>, i: nat)
    requires i < |mask|
  {
    mask[i] !in KNOWN_FIELDS && forall j :: 0 <= j < i ==> mask[j] in KNOWN_FIELDS
  }

  lemma NeverBoth(path: string)
    requires path in IMMUTABLE_FIELDS
    ensures path !in KNOWN_FIELDS
  {}

  /** The first path of the mask that is not mutable. */
  method CheckMask(mask: seq<string>) returns (r: Result<(), MaskError>)
    ensures r.Ok? <==> forall p :: p in mask ==> p in KNOWN_FIELDS
    ensures r.Ok? ==> forall f: Fields, p :: p in mask ==> FieldAt(f, p).Some?
    ensures r.Err? ==> forall f: Fields :: FieldAt(f, r.error.path) == None
    ensures r.Err? ==> exists i :: 0 <= i < |mask| && mask[i] == r.error.path && FirstBad(mask, i)
    ensures r.Err? ==> (r.error.ImmutableField? <==> r.error.path in IMMUTABLE_FIELDS)
  {
    forall f: Fields, p ensures p in KNOWN_FIELDS <==> FieldAt(f, p).Some? { KnownIsField(f, p); }
    hide FieldAt;
    for i := 0 to |mask|
      invariant forall j :: 0 <= j < i ==> mask[j] in KNOWN_FIELDS
    {
      if mask[i] in IMMUTABLE_FIELDS {
        NeverBoth(mask[i]);
        assert FirstBad(mask, i);
        return Err(ImmutableField(mask[i]));
      }
      if mask[i] !in KNOWN_FIELDS {
        assert FirstBad(mask, i);
        return Err(UnknownField(mask[i]));
      }
    }
    return Ok(());
  }

  /** An empty mask names every mutable field. */
  predicate Touches(mask: seq<string>, field: string) {
    mask == [] || field in mask
  }

  function ApplyUpdateMask(cur: Fields, req: Fields, mask: seq<string>): Fields {
    Fields(
      if Touches(mask, "name") then req.name else cur.name,
      if Touches(mask, "description") then req.description else cur.description,
      if Touches(mask, "labels") then req.labels else cur.labels,
      if Touches(mask, "deletion_protection") then req.protection else cur.protection,
      if Touches(mask, "session_affinity") then req.affinity else cur.affinity,
      if Touches(mask, "disabled_announce_zones") then Normalize(req.zones) else cur.zones)
  }

  /** The zones are exactly the names in the request, without the empty one, each once. */
  predicate ZonesAsRequested(req: Fields, now: Fields) {
    && NoDuplicates(now.zones)
    && (forall z :: z in now.zones ==> z in req.zones && z != "")
    && (forall z :: z in req.zones && z != "" ==> z in now.zones)
  }

  /** Each field is the request's when the mask is empty or names it, and otherwise as it was. */
  ghost predicate AsRequested(was: Fields, req: Fields, mask: seq<string>, now: Fields) {
    forall path :: PathAsRequested(was, req, mask, now, path)
  }

  predicate PathAsRequested(was: Fields, req: Fields, mask: seq<string>, now: Fields, path: string) {
    if mask != [] && path !in mask then FieldAt(now, path) == FieldAt(was, path)
    else if path == "disabled_announce_zones" then ZonesAsRequested(req, now)
    else FieldAt(now, path) == FieldAt(req, path)
  }

  lemma MaskDecides(cur: Fields, req: Fields, mask: seq<string>)
    ensures AsRequested(cur, req, mask, ApplyUpdateMask(cur, req, mask))
  {
    hide PathAsRequested;
    forall path ensures PathAsRequested(cur, req, mask, ApplyUpdateMask(cur, req, mask), path) {
      PathDecides(cur, req, mask, path);
    }
  }

  lemma PathDecides(cur: Fields, req: Fields, mask: seq<string>, path: string)
    ensures PathAsRequested(cur, req, mask, ApplyUpdateMask(cur, req, mask), path)
  {
    hide NoDuplicates;
    NormalizeIsASet(req.zones);
    match path
    case "name" =>
    case "description" =>
    case "labels" =>
    case "deletion_protection" =>
    case "session_affinity" =>
    case "disabled_announce_zones" =>
    case _ =>
  }

  /** Updates of disjoint field sets commute; the same update twice is the update once. */
  lemma MasksCommute(cur: Fields, req1: Fields, mask1: seq<string>, req2: Fields, mask2: seq<string>)
    requires mask1 != [] && mask2 != [] && forall p :: p in mask1 ==> p !in mask2
    ensures ApplyUpdateMask(ApplyUpdateMask(cur, req1, mask1), req2, mask2)
         == ApplyUpdateMask(ApplyUpdateMask(cur, req2, mask2), req1, mask1)
  {}

  // ---- the state machine of one row ----

  type UpdateId = nat

  /** The worker's captured record: the fields it will write, and the version it read. */
  datatype Pending = Pending(fields: Fields, req: Fields, mask: seq<string>, xmin: nat)

  datatype Effect = Masked(req: Fields, mask: seq<string>) | Other(rest: nat)

  /** `log` is the history of committed effects. */
  datatype State = State(row: Option<Row>, pending: map<UpdateId, Pending>, log: seq<Effect>)

  datatype Event =
    | Read(id: UpdateId, req: Fields, mask: seq<string>, replies: seq<Result<Page, Error>>)
    | Write(id: UpdateId)
    | WriteBlind(id: UpdateId)    // the same write without the version test
    | OtherWrite(rest: nat)
    | Remove

  /** What an update is checked against: the zone service's catalogue (None without a zone
      client), and the domain rules for the record as a whole. */
  datatype Rules = Rules(zones: Option<seq<ZoneEntry>>, valid: Fields -> bool)

  /** The request's checks, on the record it would write. `replies` is what the zone service
      answers, cut into pages in any way. */
  predicate Accepts(rules: Rules, row: Row, req: Fields, mask: seq<string>, replies: seq<Result<Page, Error>>)
    requires rules.zones.Some? ==> Served(rules.zones.value, replies)
  {
    var updated := ApplyUpdateMask(row.fields, req, mask);
    && (forall p :: p in mask ==> p in KNOWN_FIELDS)
    && rules.valid(updated)
    && (Touches(mask, "disabled_announce_zones") ==>
          Allowed(row.placement, updated.zones, Listing(rules.zones, row.region, replies)))
  }

  predicate Enabled(rules: Rules, s: State, e: Event) {
    match e
    case Read(id, req, mask, replies) =>
      && id !in s.pending && s.row.Some? && (rules.zones.Some? ==> Served(rules.zones.value, replies))
      && Accepts(rules, s.row.value, req, mask, replies)
    case Write(id) => id in s.pending
    case WriteBlind(id) => id in s.pending
    case OtherWrite(_) => s.row.Some?
    case Remove => s.row.Some?
  }

  function Next(s: State, e: Event, rules: Rules): State
    requires Enabled(rules, s, e)
  {
    match e
    case Read(id, req, mask, _) =>
      var p := Pending(ApplyUpdateMask(s.row.value.fields, req, mask), req, mask, s.row.value.xmin);
      s.(pending := s.pending[id := p])
    case Write(id) =>
      var p := s.pending[id];
      var t := s.(pending := s.pending - {id});
      if s.row.Some? && s.row.value.xmin == p.xmin then Written(t, p) else t
    case WriteBlind(id) =>
      var t := s.(pending := s.pending - {id});
      if s.row.Some? then Written(t, s.pending[id]) else t
    case OtherWrite(rest) =>
      s.(row := Some(s.row.value.(rest := rest, xmin := s.row.value.xmin + 1)), log := s.log + [Other(rest)])
    case Remove => s.(row := None)
  }

  /** The UPDATE statement sets the mutable columns from the captured record, and only those. */
  function Written(s: State, p: Pending): State
    requires s.row.Some?
  {
    s.(row := Some(s.row.value.(fields := p.fields, xmin := s.row.value.xmin + 1)),
       log := s.log + [Masked(p.req, p.mask)])
  }

  predicate Run(rules: Rules, s: State, es: seq<Event>)
    decreases |es|
  {
    es == [] || (Enabled(rules, s, es[0]) && Run(rules, Next(s, es[0], rules), es[1..]))
  }

  function After(rules: Rules, s: State, es: seq<Event>): State
    requires Run(rules, s, es)
    decreases |es|
  {
    if es == [] then s else After(rules, Next(s, es[0], rules), es[1..])
  }

  /** One effect, applied by a client that is alone. */
  function Replay(row: Row, log: seq<Effect>): Row {
    if log == [] then row
    else
      var before := Replay(row, log[..|log| - 1]);
      match log[|log| - 1]
      case Masked(req, mask) => before.(fields := ApplyUpdateMask(before.fields, req, mask), xmin := before.xmin + 1)
      case Other(rest) => before.(rest := rest, xmin := before.xmin + 1)
  }

  /** A captured record is its mask over the fields of the version it names. */
  ghost predicate PendingOk(s: State) {
    forall id :: id in s.pending && s.row.Some? ==>
      var p := s.pending[id];
      && p.xmin <= s.row.value.xmin
      && (p.xmin == s.row.value.xmin ==> p.fields == ApplyUpdateMask(s.row.value.fields, p.req, p.mask))
  }

  /** A fresh row, nobody updating it. */
  predicate Initial(s: State) {
    s.row.Some? && s.pending == map[] && s.log == []
  }

  ghost predicate Sequential(first: Row, s: State) {
    PendingOk(s) && (s.row.Some? ==> s.row.value == Replay(first, s.log))
  }

  lemma SequentialStep(first: Row, rules: Rules, s: State, e: Event)
    requires Sequential(first, s) && Enabled(rules, s, e) && !e.WriteBlind?
    ensures Sequential(first, Next(s, e, rules))
  {}

  lemma {:induction false} SequentialRun(first: Row, rules: Rules, s: State, es: seq<Event>)
    requires Sequential(first, s) && Run(rules, s, es) && forall e :: e in es ==> !e.WriteBlind?
    ensures Sequential(first, After(rules, s, es))
    decreases |es|
  {
    if es != [] {
      assert es[0] in es;
      SequentialStep(first, rules, s, es[0]);
      SequentialRun(first, rules, Next(s, es[0], rules), es[1..]);
    }
  }

  /** Optimistic masked updates refine sequential ones: after any interleaving the row is what
      the successful masks and the other writers' changes make of it in commit order. */
  lemma UpdatesAreSequential(rules: Rules, s: State, es: seq<Event>)
    requires Initial(s) && Run(rules, s, es) && forall e :: e in es ==> !e.WriteBlind?
    ensures var t := After(rules, s, es); t.row.Some? ==> t.row.value == Replay(s.row.value, t.log)
  {
    SequentialRun(s.row.value, rules, s, es);
  }

  /** A write succeeds exactly when no version was committed since its read; then each field in
      the mask has the requested value and each other field and column its current one, and
      otherwise nothing changes. */
  lemma WriteKeepsUnmasked(first: Row, rules: Rules, s: State, id: UpdateId)
    requires Sequential(first, s) && Enabled(rules, s, Write(id)) && s.row.Some?
    ensures var t := Next(s, Write(id), rules); var p := s.pending[id]; var was := s.row.value;
      && t.row.Some?
      && (p.xmin != was.xmin ==> t.row == s.row && t.log == s.log)
      && (p.xmin == was.xmin ==>
            && AsRequested(was.fields, p.req, p.mask, t.row.value.fields)
            && t.row.value == was.(fields := t.row.value.fields, xmin := was.xmin + 1)
            && t.log == s.log + [Masked(p.req, p.mask)])
  {
    var p := s.pending[id];
    MaskDecides(s.row.value.fields, p.req, p.mask);
  }

  /** Without the version test a write keeps the fields outside its mask exactly when nobody
      changed them since the read. */
  lemma BlindWriteExact(rules: Rules, s: State, id: UpdateId, read: Fields)
    requires Enabled(rules, s, WriteBlind(id)) && s.row.Some?
    requires s.pending[id].fields == ApplyUpdateMask(read, s.pending[id].req, s.pending[id].mask)
    ensures var p := s.pending[id]; var now := s.row.value.fields;
      Next(s, WriteBlind(id), rules).row.value.fields == ApplyUpdateMask(now, p.req, p.mask) <==>
        ApplyUpdateMask(read, now, p.mask) == ApplyUpdateMask(now, now, p.mask)
  {}

  /** No zone client, and every record is valid. */
  const LENIENT: Rules := Rules(None, (f: Fields) => true)

  /** Two blind writes committed; replaying them alone leaves the row protected, but it is not. */
  ghost predicate LosesProtection(s: State, es: seq<Event>) {
    && Initial(s) && Run(LENIENT, s, es)
    && var t := After(LENIENT, s, es);
       t.row.Some? && |t.log| == 2 && !t.row.value.fields.protection && Replay(s.row.value, t.log).fields.protection
  }

  ghost predicate Reaches(s: State, es: seq<Event>, t: State) {
    Run(LENIENT, s, es) && After(LENIENT, s, es) == t
  }

  lemma {:induction false} Then(s: State, es: seq<Event>, t: State, e: Event)
    requires Reaches(s, es, t) && Enabled(LENIENT, t, e)
    ensures Reaches(s, es + [e], Next(t, e, LENIENT))
    decreases |es|
  {
    if es == [] {
      assert ([] + [e])[1..] == [];
    } else {
      assert (es + [e])[1..] == es[1..] + [e];
      Then(Next(s, es[0], LENIENT), es[1..], t, e);
    }
  }

  /** Two updates read the same version; the second, blind, turns deletion protection off again
      although its mask names the description only. */
  lemma BlindWriteLosesProtection()
    ensures exists s: State, es: seq<Event> :: LosesProtection(s, es)
  {
    var bare := Fields("lb", "", map[], false, "NONE", []);
    var s := State(Some(Row(bare, Zonal, "r", 0, 1)), map[], []);
    var on, text := bare.(protection := true), bare.(description := "d");
    assert ["deletion_protection"] != [] && ["description"] != [];
    OneMask("deletion_protection");
    OneMask("description");
    assert Reaches(s, [], s);
    Then(s, [], s, Read(1, on, ["deletion_protection"], []));
    var s1 := Next(s, Read(1, on, ["deletion_protection"], []), LENIENT);
    Then(s, [] + [Read(1, on, ["deletion_protection"], [])], s1, Read(2, text, ["description"], []));
    var s2 := Next(s1, Read(2, text, ["description"], []), LENIENT);
    assert s2.pending[1].fields == on && s2.pending[2].fields == text;
    var both := [] + [Read(1, on, ["deletion_protection"], [])] + [Read(2, text, ["description"], [])];
    BlindWrites(s, both, s2, on, text);
  }

  /** A mask of one field touches that field only. */
  lemma OneMask(field: string)
    ensures forall f :: Touches([field], f) <==> f == field
  {}

  lemma BlindWrites(s: State, es: seq<Event>, t: State, on: Fields, text: Fields)
    requires Initial(s) && Reaches(s, es, t) && t.row == s.row && t.log == []
    requires 1 in t.pending && t.pending[1].fields == on && t.pending[1].req == on
    requires t.pending[1].mask == ["deletion_protection"]
    requires 2 in t.pending && t.pending[2].fields == text
    requires t.pending[2].req == text && t.pending[2].mask == ["description"]
    requires on.protection && !text.protection
    ensures exists s: State, es: seq<Event> :: LosesProtection(s, es)
  {
    Then(s, es, t, WriteBlind(1));
    var t1 := Next(t, WriteBlind(1), LENIENT);
    Then(s, es + [WriteBlind(1)], t1, WriteBlind(2));
    var t2 := Next(t1, WriteBlind(2), LENIENT);
    assert t2.log == [Masked(on, ["deletion_protection"]), Masked(text, ["description"])];
    OneMask("description");
    OneMask("deletion_protection");
    assert "description" != "deletion_protection";
    assert t2.log[..1] == [Masked(on, ["deletion_protection"])] && t2.log[..1][..0] == [];
    assert Replay(s.row.value, t2.log[..1]).fields.protection;
    assert LosesProtection(s, es + [WriteBlind(1)] + [WriteBlind(2)]);
  }

  // ---- the update call ----

  datatype UpdateError =
    BadMask(mask: MaskError) | BadFields | BadZones(zones: Error) | NotFound | ModifiedConcurrently

  class Writer {
    const rules: Rules
    var st: State
    ghost const first: Row

    ghost predicate Valid()
      reads this
    {
      Sequential(first, st)
    }

    constructor (rules: Rules, row: Row)
      ensures this.rules == rules && st == State(Some(row), map[], []) && Initial(st) && Valid()
    {
      this.rules, st, first := rules, State(Some(row), map[], []), row;
    }

    /** The request: mask, read, apply, validate, zone check over the paged listing, and only then
        the operation. It is accepted exactly when the operation may start, and otherwise leaves
        nothing behind; the error is that of the first check that fails. */
    method Execute(id: UpdateId, req: Fields, mask: seq<string>, replies: seq<Result<Page, Error>>)
      returns (r: Result<(), UpdateError>)
      requires Valid() && id !in st.pending && (rules.zones.Some? ==> Served(rules.zones.value, replies))
      modifies this`st
      ensures Valid()
      ensures r.Ok? ==>
        && st.row == old(st).row && st.row.Some? && id in st.pending
        && st.pending == old(st).pending[id := Pending(st.pending[id].fields, req, mask, st.row.value.xmin)]
        && AsRequested(st.row.value.fields, req, mask, st.pending[id].fields)
        && rules.valid(st.pending[id].fields)
      ensures r.Ok? <==> Enabled(rules, old(st), Read(id, req, mask, replies))
      ensures st == if r.Ok? then Next(old(st), Read(id, req, mask, replies), rules) else old(st)
      ensures r.Err? && r.error.BadMask? <==> exists p :: p in mask && p !in KNOWN_FIELDS
      ensures r.Err? && r.error == NotFound ==> st.row == None
      ensures r.Err? && r.error == BadFields ==>
        st.row.Some? && !rules.valid(ApplyUpdateMask(st.row.value.fields, req, mask))
      ensures r.Err? && r.error.BadZones? ==>
        && st.row.Some? && Touches(mask, "disabled_announce_zones")
        && (forall p :: p in mask ==> p in KNOWN_FIELDS)
        && rules.valid(ApplyUpdateMask(st.row.value.fields, req, mask))
    {
      var checked := CheckMask(mask);
      if checked.Err? { return Err(BadMask(checked.error)); }
      if st.row == None { return Err(NotFound); }
      var cur := st.row.value;
      var updated := ApplyUpdateMask(cur.fields, req, mask);
      if !rules.valid(updated) { return Err(BadFields); }
      if Touches(mask, "disabled_announce_zones") {
        var listing := None;
        if rules.zones.Some? {
          var listed := ListZoneIDsInRegion(cur.region, replies);
          listing := Some(listed);
        }
        var allowed := CheckDisabledAnnounceZones(cur.placement, updated.zones, listing);
        if allowed.Err? { return Err(BadZones(allowed.error)); }
      }
      MaskDecides(cur.fields, req, mask);
      st := st.(pending := st.pending[id := Pending(updated, req, mask, cur.xmin)]);
      return Ok(());
    }

    /** The worker: the guarded UPDATE, and an error when it matches no row. */
    method DoUpdate(id: UpdateId) returns (r: Result<Row, UpdateError>)
      requires Valid() && id in st.pending
      modifies this`st
      ensures Valid()
      ensures st == Next(old(st), Write(id), rules)
      ensures r.Ok? <==> old(st).row.Some? && old(st).row.value.xmin == old(st).pending[id].xmin
      ensures r.Err? ==> r.error == ModifiedConcurrently && st.row == old(st).row
      ensures r.Ok? ==>
        var was, p := old(st).row.value, old(st).pending[id];
        && st.row == Some(r.value) && AsRequested(was.fields, p.req, p.mask, r.value.fields)
        && r.value == was.(fields := r.value.fields, xmin := was.xmin + 1)
    {
      var p := st.pending[id];
      if st.row.Some? { MaskDecides(st.row.value.fields, p.req, p.mask); }
      st := st.(pending := st.pending - {id});
      if st.row == None || st.row.value.xmin != p.xmin { return Err(ModifiedConcurrently); }
      var written := st.row.value.(fields := p.fields, xmin := st.row.value.xmin + 1);
      st := st.(row := Some(written), log := st.log + [Masked(p.req, p.mask)]);
      return Ok(written);
    }
  }

  // ---- drained zones ----

  /** Duplicate-free, strict at the row's own placement and region, and valid as a record. */
  ghost predicate FieldsOk(rules: Rules, row: Row) {
    && NoDuplicates(row.fields.zones) && "" !in row.fields.zones
    && Strict(rules.zones, row.placement, row.region, row.fields.zones)
    && rules.valid(row.fields)
  }

  ghost predicate AllOk(rules: Rules, s: State) {
    s.row.Some? ==>
      && FieldsOk(rules, s.row.value)
      && forall id :: id in s.pending ==> FieldsOk(rules, s.row.value.(fields := s.pending[id].fields))
  }

  /** What Create inserts: normalized, valid and checked. */
  ghost predicate Created(rules: Rules, row: Row, requested: seq<Zone>, replies: seq<Result<Page, Error>>) {
    && (rules.zones.Some? ==> Served(rules.zones.value, replies))
    && row.fields.zones == Normalize(requested) && rules.valid(row.fields)
    && Allowed(row.placement, row.fields.zones, Listing(rules.zones, row.region, replies))
  }

  lemma CreatedIsOk(rules: Rules, row: Row, requested: seq<Zone>, replies: seq<Result<Page, Error>>)
    requires Created(rules, row, requested, replies)
    ensures FieldsOk(rules, row)
  {
    NormalizeIsASet(requested);
    AllowedIsStrict(rules.zones, row.placement, row.region, row.fields.zones, replies);
  }

  lemma ReadIsOk(rules: Rules, row: Row, req: Fields, mask: seq<string>, replies: seq<Result<Page, Error>>)
    requires FieldsOk(rules, row) && (rules.zones.Some? ==> Served(rules.zones.value, replies))
    requires Accepts(rules, row, req, mask, replies)
    ensures FieldsOk(rules, row.(fields := ApplyUpdateMask(row.fields, req, mask)))
  {
    NormalizeIsASet(req.zones);
    if Touches(mask, "disabled_announce_zones") {
      AllowedIsStrict(rules.zones, row.placement, row.region, Normalize(req.zones), replies);
    }
  }

  lemma StepOk(rules: Rules, s: State, e: Event)
    requires AllOk(rules, s) && Enabled(rules, s, e)
    ensures AllOk(rules, Next(s, e, rules))
  {
    hide Accepts, Served, Strict;
    if e.Read? { ReadIsOk(rules, s.row.value, e.req, e.mask, e.replies); }
  }

  lemma {:induction false} RunOk(rules: Rules, s: State, es: seq<Event>)
    requires AllOk(rules, s) && Run(rules, s, es)
    ensures AllOk(rules, After(rules, s, es))
    decreases |es|
  {
    hide AllOk, Next, Enabled;
    if es != [] {
      StepOk(rules, s, es[0]);
      RunOk(rules, Next(s, es[0], rules), es[1..]);
    }
  }

  /** In every row reachable from Create, over any paging of the catalogue by the zone service,
      the drained list is duplicate-free, empty unless REGIONAL, and a strict subset of its
      region's zones when it is not empty; and the record as a whole passes the domain rules. */
  lemma DrainedZonesStayStrict(rules: Rules, s: State, requested: seq<Zone>, replies: seq<Result<Page, Error>>,
                               es: seq<Event>)
    requires Initial(s) && Created(rules, s.row.value, requested, replies) && Run(rules, s, es)
    ensures var t := After(rules, s, es); t.row.Some? ==>
      var row := t.row.value;
      && NoDuplicates(row.fields.zones) && rules.valid(row.fields)
      && (row.fields.zones != [] ==> row.placement == Regional)
      && (row.fields.zones != [] && rules.zones.Some? ==>
            && (forall z :: z in row.fields.zones ==> ZoneEntry(z, row.region) in rules.zones.value)
            && exists z :: ZoneEntry(z, row.region) in rules.zones.value && z !in row.fields.zones)
  {
    CreatedIsOk(rules, s.row.value, requested, replies);
    RunOk(rules, s, es);
    var t := After(rules, s, es);
    if t.row.Some? && t.row.value.fields.zones != [] && rules.zones.Some? {
      StrictMeans(rules.zones.value, t.row.value.region, t.row.value.fields.zones);
    }
  }

  /** Each zone is one of the region's, and some zone of the region is left. */
  lemma StrictMeans(catalogue: seq<ZoneEntry>, region: string, zones: seq<Zone>)
    requires AsSet(zones) < AsSet(InRegion(catalogue, region))
    ensures forall z :: z in zones ==> ZoneEntry(z, region) in catalogue
    ensures exists z :: ZoneEntry(z, region) in catalogue && z !in zones
  {
    forall z ensures z in InRegion(catalogue, region) <==> ZoneEntry(z, region) in catalogue {
      InRegionHas(catalogue, region, z);
    }
    assert forall z :: z in zones ==> z in AsSet(zones);
    var left :| left in AsSet(InRegion(catalogue, region)) && left !in AsSet(zones);
    assert ZoneEntry(left, region) in catalogue;
  }
}
