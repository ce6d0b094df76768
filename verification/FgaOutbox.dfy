/** Register and unregister intents of load balancers and target groups: replaying the outbox in
    commit order against the projects the rows name. */
module FgaOutbox {
  import opened Domain

  // ---- tuples and intents ----

  datatype Kind = LoadBalancer | TargetGroup

  datatype Resource = Resource(kind: Kind, id: string)

  /** "<subject> #<relation> @<object>". */
  datatype Tuple = Tuple(subject: string, relation: string, object_: string)

  datatype Intent = Intent(resource: Resource, tuples: seq<Tuple>, labels: map<string, string>, parent: string)

  function ObjectType(kind: Kind): string {
    if kind == LoadBalancer then "lb_network_load_balancer" else "lb_target_group"
  }

  function ObjectRef(r: Resource): string {
    ObjectType(r.kind) + ":" + r.id
  }

  function ProjectTuple(r: Resource, project: string): Tuple {
    Tuple("project:" + project, "project", ObjectRef(r))
  }

  function CreatorTuple(subject: string, r: Resource): Tuple {
    Tuple(subject, "admin", ObjectRef(r))
  }

  /** "" for a system or unauthenticated principal. */
  function SubjectFromPrincipal(principalType: string, principalId: string): string {
    if principalType == "" || principalId == "" || principalType == "system" then ""
    else principalType + ":" + principalId
  }

  function RegisterIntent(r: Resource, row: Row, subject: string): Intent {
    var creator := if subject != "" then [CreatorTuple(subject, r)] else [];
    Intent(r, [ProjectTuple(r, row.project)] + creator, row.labels, row.project)
  }

  /** The re-registration with fresh labels: no creator. */
  function MirrorIntent(r: Resource, row: Row): Intent {
    Intent(r, [ProjectTuple(r, row.project)], row.labels, row.project)
  }

  function UnregisterIntent(r: Resource, project: string): Intent {
    Intent(r, [ProjectTuple(r, project)], map[], "")
  }

  lemma ObjectsDiffer(r: Resource, q: Resource)
    ensures ObjectRef(r) == ObjectRef(q) ==> r == q
  {
    if ObjectRef(r) == ObjectRef(q) {
      assert ObjectRef(r)[3] == ObjectType(r.kind)[3] && ObjectRef(q)[3] == ObjectType(q.kind)[3];
      assert ObjectRef(r)[|ObjectType(r.kind)| + 1..] == r.id;
      assert ObjectRef(q)[|ObjectType(q.kind)| + 1..] == q.id;
    }
  }

  /** A project tuple names one resource and one project. */
  lemma ProjectTuplesDiffer(r: Resource, p: string, q: Resource, o: string)
    ensures ProjectTuple(r, p) == ProjectTuple(q, o) <==> r == q && p == o
  {
    ObjectsDiffer(r, q);
    assert ("project:" + p)[8..] == p && ("project:" + o)[8..] == o;
  }

  lemma CreatorIsNotProject(subject: string, r: Resource, q: Resource, p: string)
    ensures CreatorTuple(subject, r) != ProjectTuple(q, p)
  {}

  // ---- replay ----

  datatype Entry = Register(intent: Intent) | Unregister(intent: Intent)

  function TupleSet(tuples: seq<Tuple>): set<Tuple> {
    set t | t in tuples
  }

  function Apply(tuples: set<Tuple>, e: Entry): set<Tuple> {
    if e.Register? then tuples + TupleSet(e.intent.tuples) else tuples - TupleSet(e.intent.tuples)
  }

  function Replay(log: seq<Entry>): set<Tuple> {
    if log == [] then {} else Apply(Replay(log[..|log| - 1]), log[|log| - 1])
  }

  lemma ReplayOne(log: seq<Entry>, e: Entry)
    ensures Replay(log + [e]) == Apply(Replay(log), e)
  {}

  // ---- the state machine ----

  type OpId = nat

  /** `registered` when the resource's creation has completed: at once for a target group, at
      finalization for a load balancer. `moves` counts committed moves. */
  datatype Row = Row(project: string, labels: map<string, string>, registered: bool, moves: nat)

  /** An operation in flight, with the project its request read. */
  datatype Op =
    | Move(res: Resource, source: string, dest: string, moves: nat)
    | Delete(res: Resource, source: string, moves: nat)

  datatype Lifecycle = Created | Moved(old_: string, new_: string) | Updated | Deleted

  datatype State = State(
    rows: map<Resource, Row>, ops: map<OpId, Op>, log: seq<Entry>, events: seq<(Resource, Lifecycle)>)

  datatype Event =
    | CreateGroup(res: Resource, project: string, labels: map<string, string>, subject: string)
    | InsertBalancer(res: Resource, project: string, labels: map<string, string>)
    | FinalizeBalancer(res: Resource, subject: string)
    | RequestMove(op: OpId, res: Resource, dest: string)
    | CommitMove(op: OpId)
    | RequestDelete(op: OpId, res: Resource)
    | CommitDelete(op: OpId)
    | UpdateLabels(res: Resource, labels: map<string, string>)
    | RunnerDelete(res: Resource)      // a DELETING row: the project is read under its lock
    | DropOrphan(res: Resource)        // a row that never completed: compensation or runner, no intent
    | FailOp(op: OpId)

  predicate Enabled(s: State, e: Event) {
    match e
    case CreateGroup(r, _, _, _) => r.kind == TargetGroup && r !in s.rows
    case InsertBalancer(r, _, _) => r.kind == LoadBalancer && r !in s.rows
    case FinalizeBalancer(r, _) => r in s.rows && !s.rows[r].registered
    case RequestMove(op, r, dest) => op !in s.ops && r in s.rows && s.rows[r].project != dest
    case CommitMove(op) => op in s.ops && s.ops[op].Move? && s.ops[op].res in s.rows
    case RequestDelete(op, r) => op !in s.ops && r in s.rows
    case CommitDelete(op) => op in s.ops && s.ops[op].Delete? && s.ops[op].res in s.rows
    case UpdateLabels(r, _) => r in s.rows
    case RunnerDelete(r) => r in s.rows && r.kind == LoadBalancer
    case DropOrphan(r) => r in s.rows && !s.rows[r].registered
    case FailOp(op) => op in s.ops
  }

  function Next(s: State, e: Event): State
    requires Enabled(s, e)
  {
    match e
    case CreateGroup(r, p, labels, subject) =>
      var row := Row(p, labels, true, 0);
      s.(rows := s.rows[r := row], log := s.log + [Register(RegisterIntent(r, row, subject))],
         events := s.events + [(r, Created)])
    case InsertBalancer(r, p, labels) => s.(rows := s.rows[r := Row(p, labels, false, 0)])
    case FinalizeBalancer(r, subject) =>
      var row := s.rows[r].(registered := true);
      s.(rows := s.rows[r := row], log := s.log + [Register(RegisterIntent(r, row, subject))],
         events := s.events + [(r, Created)])
    case RequestMove(op, r, dest) => s.(ops := s.ops[op := Move(r, s.rows[r].project, dest, s.rows[r].moves)])
    case CommitMove(op) =>
      var m := s.ops[op];
      var row := s.rows[m.res].(project := m.dest, moves := s.rows[m.res].moves + 1);
      s.(rows := s.rows[m.res := row], ops := s.ops - {op},
         log := s.log + [Register(MirrorIntent(m.res, row))] + [Unregister(UnregisterIntent(m.res, m.source))],
         events := s.events + [(m.res, Moved(m.source, m.dest)), (m.res, Updated)])
    case RequestDelete(op, r) => s.(ops := s.ops[op := Delete(r, s.rows[r].project, s.rows[r].moves)])
    case CommitDelete(op) =>
      var d := s.ops[op];
      s.(rows := s.rows - {d.res}, ops := s.ops - {op},
         log := s.log + [Unregister(UnregisterIntent(d.res, d.source))], events := s.events + [(d.res, Deleted)])
    case UpdateLabels(r, labels) =>
      var row := s.rows[r].(labels := labels);
      s.(rows := s.rows[r := row], log := s.log + [Register(MirrorIntent(r, row))],
         events := s.events + [(r, Updated)])
    case RunnerDelete(r) =>
      s.(rows := s.rows - {r}, log := s.log + [Unregister(UnregisterIntent(r, s.rows[r].project))],
         events := s.events + [(r, Deleted)])
    case DropOrphan(r) => s.(rows := s.rows - {r})
    case FailOp(op) => s.(ops := s.ops - {op})
  }

  predicate Run(s: State, es: seq<Event>)
    decreases |es|
  {
    es == [] || (Enabled(s, es[0]) && Run(Next(s, es[0]), es[1..]))
  }

  function After(s: State, es: seq<Event>): State
    requires Run(s, es)
    decreases |es|
  {
    if es == [] then s else After(Next(s, es[0]), es[1..])
  }

  // ---- the property ----

  /** The projects the replayed tuples link resource r to. */
  ghost predicate Linked(s: State, r: Resource, project: string) {
    ProjectTuple(r, project) in Replay(s.log)
  }

  /** One link, to its current project, for a completed resource that exists; none otherwise. */
  ghost predicate ExactFor(s: State, r: Resource) {
    forall project :: Linked(s, r, project) <==> r in s.rows && s.rows[r].registered && s.rows[r].project == project
  }

  ghost predicate Exact(s: State) {
    forall r :: ExactFor(s, r)
  }

  /** When a step keeps the links exact. A Move needs a completed row whose project is still the
      one its request read, or already the destination; a Delete the project its request read; a
      label update a completed row. */
  predicate Sound(s: State, e: Event)
    requires Enabled(s, e)
  {
    match e
    case CommitMove(op) =>
      var row := s.rows[s.ops[op].res];
      row.registered && row.project in {s.ops[op].source, s.ops[op].dest}
    case CommitDelete(op) =>
      var row := s.rows[s.ops[op].res];
      row.registered ==> row.project == s.ops[op].source
    case UpdateLabels(r, _) => s.rows[r].registered
    case _ => true
  }

  /** A request never moves a resource to where it is. */
  ghost predicate OpsOk(s: State) {
    forall op :: op in s.ops && s.ops[op].Move? ==> s.ops[op].source != s.ops[op].dest
  }

  lemma OpsStep(s: State, e: Event)
    requires OpsOk(s) && Enabled(s, e)
    ensures OpsOk(Next(s, e))
  {}

  lemma RegisterLinks(log: seq<Entry>, intent: Intent, r: Resource, p: string, q: Resource, o: string)
    requires intent.tuples != [] && intent.tuples[0] == ProjectTuple(r, p)
    requires forall t :: t in intent.tuples && t != ProjectTuple(r, p) ==> t != ProjectTuple(q, o)
    ensures ProjectTuple(q, o) in Replay(log + [Register(intent)]) <==>
      ProjectTuple(q, o) in Replay(log) || (q == r && o == p)
  {
    ReplayOne(log, Register(intent));
    ProjectTuplesDiffer(r, p, q, o);
  }

  lemma UnregisterLinks(log: seq<Entry>, r: Resource, p: string, q: Resource, o: string)
    ensures ProjectTuple(q, o) in Replay(log + [Unregister(UnregisterIntent(r, p))]) <==>
      ProjectTuple(q, o) in Replay(log) && !(q == r && o == p)
  {
    ReplayOne(log, Unregister(UnregisterIntent(r, p)));
    ProjectTuplesDiffer(r, p, q, o);
  }

  /** What one step does to the links of q. */
  ghost predicate LinkedAfter(s: State, e: Event, q: Resource, o: string)
    requires Enabled(s, e)
  {
    match e
    case CreateGroup(r, p, _, _) => Linked(s, q, o) || (q == r && o == p)
    case FinalizeBalancer(r, _) => Linked(s, q, o) || (q == r && o == s.rows[r].project)
    case CommitMove(op) =>
      var m := s.ops[op];
      (Linked(s, q, o) || (q == m.res && o == m.dest)) && !(q == m.res && o == m.source)
    case CommitDelete(op) => Linked(s, q, o) && !(q == s.ops[op].res && o == s.ops[op].source)
    case UpdateLabels(r, _) => Linked(s, q, o) || (q == r && o == s.rows[r].project)
    case RunnerDelete(r) => Linked(s, q, o) && !(q == r && o == s.rows[r].project)
    case _ => Linked(s, q, o)
  }

  lemma StepLinks(s: State, e: Event, q: Resource, o: string)
    requires Enabled(s, e)
    ensures Linked(Next(s, e), q, o) <==> LinkedAfter(s, e, q, o)
  {
    match e
    case CreateGroup(r, p, labels, subject) =>
      CreatorIsNotProject(subject, r, q, o);
      RegisterLinks(s.log, RegisterIntent(r, Row(p, labels, true, 0), subject), r, p, q, o);
    case FinalizeBalancer(r, subject) =>
      CreatorIsNotProject(subject, r, q, o);
      RegisterLinks(s.log, RegisterIntent(r, s.rows[r].(registered := true), subject), r, s.rows[r].project, q, o);
    case CommitMove(op) => MoveLinks(s, op, q, o);
    case CommitDelete(op) => UnregisterLinks(s.log, s.ops[op].res, s.ops[op].source, q, o);
    case UpdateLabels(r, labels) =>
      RegisterLinks(s.log, MirrorIntent(r, s.rows[r].(labels := labels)), r, s.rows[r].project, q, o);
    case RunnerDelete(r) => UnregisterLinks(s.log, r, s.rows[r].project, q, o);
    case _ =>
  }

  lemma MoveLinks(s: State, op: OpId, q: Resource, o: string)
    requires Enabled(s, CommitMove(op))
    ensures Linked(Next(s, CommitMove(op)), q, o) <==> LinkedAfter(s, CommitMove(op), q, o)
  {
    var m := s.ops[op];
    var row := s.rows[m.res].(project := m.dest, moves := s.rows[m.res].moves + 1);
    RegisterLinks(s.log, MirrorIntent(m.res, row), m.res, m.dest, q, o);
    UnregisterLinks(s.log + [Register(MirrorIntent(m.res, row))], m.res, m.source, q, o);
  }

  /** The resource a step writes. */
  function Subject(s: State, e: Event): Option<Resource>
    requires Enabled(s, e)
  {
    match e
    case CreateGroup(r, _, _, _) => Some(r)
    case InsertBalancer(r, _, _) => Some(r)
    case FinalizeBalancer(r, _) => Some(r)
    case CommitMove(op) => Some(s.ops[op].res)
    case CommitDelete(op) => Some(s.ops[op].res)
    case UpdateLabels(r, _) => Some(r)
    case RunnerDelete(r) => Some(r)
    case DropOrphan(r) => Some(r)
    case _ => None
  }

  lemma OthersKeep(s: State, e: Event, q: Resource)
    requires Enabled(s, e) && ExactFor(s, q) && Subject(s, e) != Some(q)
    ensures ExactFor(Next(s, e), q)
  {
    forall o ensures Linked(Next(s, e), q, o) <==> LinkedAfter(s, e, q, o) { StepLinks(s, e, q, o); }
    hide Linked;
  }

  lemma SubjectExact(s: State, e: Event, r: Resource)
    requires Enabled(s, e) && ExactFor(s, r) && OpsOk(s) && Subject(s, e) == Some(r)
    ensures ExactFor(Next(s, e), r) <==> Sound(s, e)
  {
    var t := Next(s, e);
    forall o ensures Linked(t, r, o) <==> LinkedAfter(s, e, r, o) { StepLinks(s, e, r, o); }
    hide Linked;
    match e
    case CommitMove(op) =>
      var m := s.ops[op];
      assert Linked(t, r, s.rows[r].project) <==> LinkedAfter(s, e, r, s.rows[r].project);
      assert Linked(t, r, m.dest) <==> LinkedAfter(s, e, r, m.dest);
    case CommitDelete(op) => assert Linked(t, r, s.rows[r].project) <==> LinkedAfter(s, e, r, s.rows[r].project);
    case UpdateLabels(_, _) => assert Linked(t, r, s.rows[r].project);
    case _ =>
  }

  /** Exactly which steps keep every resource linked to its one current project. */
  lemma StepExact(s: State, e: Event)
    requires Exact(s) && OpsOk(s) && Enabled(s, e)
    ensures Exact(Next(s, e)) <==> Sound(s, e)
    ensures OpsOk(Next(s, e))
  {
    forall q | Subject(s, e) != Some(q) ensures ExactFor(Next(s, e), q) { OthersKeep(s, e, q); }
    if Subject(s, e).Some? { SubjectExact(s, e, Subject(s, e).value); }
  }

  predicate AllSound(s: State, es: seq<Event>)
    requires Run(s, es)
    decreases |es|
  {
    es == [] || (Sound(s, es[0]) && AllSound(Next(s, es[0]), es[1..]))
  }

  lemma {:induction false} ExactRun(s: State, es: seq<Event>)
    requires Exact(s) && OpsOk(s) && Run(s, es) && AllSound(s, es)
    ensures Exact(After(s, es))
    decreases |es|
  {
    if es != [] {
      StepExact(s, es[0]);
      ExactRun(Next(s, es[0]), es[1..]);
    }
  }

  // ---- operations that do not overlap ----

  /** An operation that overlapped no committed Move of its resource knows its project. */
  ghost predicate CapturesOk(s: State) {
    forall op :: op in s.ops && s.ops[op].res in s.rows ==>
      && s.ops[op].moves <= s.rows[s.ops[op].res].moves
      && (s.ops[op].moves == s.rows[s.ops[op].res].moves ==> s.ops[op].source == s.rows[s.ops[op].res].project)
  }

  /** Resource ids are not reused while an operation on them is in flight. */
  predicate NewIds(s: State, e: Event) {
    (e.CreateGroup? || e.InsertBalancer?) ==> forall op :: op in s.ops ==> s.ops[op].res != e.res
  }

  /** No Move of the resource committed between the request and the commit, and a Move or label
      update commits on a completed row only. */
  predicate NoOverlap(s: State, e: Event)
    requires Enabled(s, e)
  {
    && NewIds(s, e)
    && (e.CommitMove? || e.CommitDelete? ==> s.ops[e.op].moves == s.rows[s.ops[e.op].res].moves)
    && (e.CommitMove? ==> s.rows[s.ops[e.op].res].registered)
    && (e.UpdateLabels? ==> s.rows[e.res].registered)
  }

  predicate NoOverlaps(s: State, es: seq<Event>)
    requires Run(s, es)
    decreases |es|
  {
    es == [] || (NoOverlap(s, es[0]) && NoOverlaps(Next(s, es[0]), es[1..]))
  }

  lemma CapturesStep(s: State, e: Event)
    requires CapturesOk(s) && Enabled(s, e) && NewIds(s, e)
    ensures CapturesOk(Next(s, e))
  {}

  lemma {:induction false} NoOverlapRun(s: State, es: seq<Event>)
    requires Exact(s) && OpsOk(s) && CapturesOk(s) && Run(s, es) && NoOverlaps(s, es)
    ensures Exact(After(s, es))
    decreases |es|
  {
    if es != [] {
      assert Sound(s, es[0]);
      StepExact(s, es[0]);
      CapturesStep(s, es[0]);
      NoOverlapRun(Next(s, es[0]), es[1..]);
    }
  }

  function Init(): State {
    State(map[], map[], [], [])
  }

  /** Replaying the outbox in commit order yields exactly one project tuple for each completed
      resource that exists, naming its current project, and none for any other, over all runs
      whose Moves and Deletes of a resource do not overlap a Move of it. */
  lemma ReplayNamesCurrentProject(es: seq<Event>, r: Resource, project: string)
    requires Run(Init(), es) && NoOverlaps(Init(), es)
    ensures var t := After(Init(), es);
      ProjectTuple(r, project) in Replay(t.log) <==>
        r in t.rows && t.rows[r].registered && t.rows[r].project == project
  {
    NoOverlapRun(Init(), es);
    assert ExactFor(After(Init(), es), r);
    assert Linked(After(Init(), es), r, project) <==> ProjectTuple(r, project) in Replay(After(Init(), es).log);
  }

  // ---- the mirror ----

  /** The last registration of r in the log. */
  function LastRegistration(log: seq<Entry>, r: Resource): Option<Intent> {
    if log == [] then None
    else
      var last := log[|log| - 1];
      if last.Register? && last.intent.resource == r then Some(last.intent)
      else LastRegistration(log[..|log| - 1], r)
  }

  lemma LastOfOne(log: seq<Entry>, e: Entry, r: Resource)
    ensures LastRegistration(log + [e], r) ==
      if e.Register? && e.intent.resource == r then Some(e.intent) else LastRegistration(log, r)
  {
    assert (log + [e])[..|log|] == log;
  }

  /** The last registration of a completed resource carries the labels and the project of its row. */
  ghost predicate Mirrored(s: State, r: Resource) {
    r in s.rows && s.rows[r].registered ==>
      var last := LastRegistration(s.log, r);
      last.Some? && last.value.labels == s.rows[r].labels && last.value.parent == s.rows[r].project
  }

  lemma MirroredStep(s: State, e: Event, r: Resource)
    requires Mirrored(s, r) && Enabled(s, e)
    ensures Mirrored(Next(s, e), r)
  {
    var t := Next(s, e);
    hide LastRegistration;
    if |t.log| == |s.log| + 1 {
      LastOfOne(s.log, t.log[|s.log|], r);
      assert t.log == s.log + [t.log[|s.log|]];
    } else if |t.log| == |s.log| + 2 {
      LastOfOne(s.log, t.log[|s.log|], r);
      LastOfOne(s.log + [t.log[|s.log|]], t.log[|s.log| + 1], r);
      assert t.log == s.log + [t.log[|s.log|]] + [t.log[|s.log| + 1]];
    }
  }

  lemma {:induction false} MirroredRun(s: State, es: seq<Event>, r: Resource)
    requires Mirrored(s, r) && Run(s, es)
    ensures Mirrored(After(s, es), r)
    decreases |es|
  {
    hide Mirrored, Enabled, Next;
    if es != [] {
      MirroredStep(s, es[0], r);
      MirroredRun(Next(s, es[0]), es[1..], r);
    }
  }

  /** In every run, overlapping operations or not, a completed resource was last registered with the
      labels and the project its row has now. */
  lemma MirrorIsFresh(es: seq<Event>, r: Resource)
    requires Run(Init(), es)
    ensures Mirrored(After(Init(), es), r)
  {
    MirroredRun(Init(), es, r);
  }

  // ---- the creator ----

  /** The step that completes r for the given principal. */
  predicate Completes(e: Event, r: Resource, subject: string) {
    match e
    case CreateGroup(q, _, _, who) => q == r && who == subject
    case FinalizeBalancer(q, who) => q == r && who == subject
    case _ => false
  }

  lemma CreatorRegistered(log: seq<Entry>, q: Resource, row: Row, who: string, r: Resource, subject: string)
    requires subject != ""
    ensures CreatorTuple(subject, r) in Replay(log + [Register(RegisterIntent(q, row, who))]) <==>
      CreatorTuple(subject, r) in Replay(log) || (q == r && who == subject)
  {
    ReplayOne(log, Register(RegisterIntent(q, row, who)));
    CreatorIsNotProject(subject, r, q, row.project);
    ObjectsDiffer(r, q);
    hide Replay, ObjectRef;
  }

  /** Mirrors and unregistrations have project tuples only. */
  lemma CreatorKept(log: seq<Entry>, e: Entry, q: Resource, project: string, r: Resource, subject: string)
    requires e.intent.tuples == [ProjectTuple(q, project)]
    ensures CreatorTuple(subject, r) in Replay(log + [e]) <==> CreatorTuple(subject, r) in Replay(log)
  {
    ReplayOne(log, e);
    CreatorIsNotProject(subject, r, q, project);
    hide Replay, ProjectTuple, CreatorTuple;
  }

  lemma CreatorStep(s: State, e: Event, r: Resource, subject: string)
    requires Enabled(s, e) && subject != ""
    ensures CreatorTuple(subject, r) in Replay(Next(s, e).log) <==>
      CreatorTuple(subject, r) in Replay(s.log) || Completes(e, r, subject)
  {
    hide Replay, CreatorTuple, ProjectTuple, RegisterIntent;
    match e
    case CreateGroup(q, p, labels, who) => CreatorRegistered(s.log, q, Row(p, labels, true, 0), who, r, subject);
    case FinalizeBalancer(q, who) => CreatorRegistered(s.log, q, s.rows[q].(registered := true), who, r, subject);
    case CommitMove(op) =>
      var m := s.ops[op];
      var first := Next(s, e).log[|s.log|];
      CreatorKept(s.log, first, m.res, m.dest, r, subject);
      CreatorKept(s.log + [first], Unregister(UnregisterIntent(m.res, m.source)), m.res, m.source, r, subject);
    case CommitDelete(op) =>
      CreatorKept(s.log, Next(s, e).log[|s.log|], s.ops[op].res, s.ops[op].source, r, subject);
    case UpdateLabels(q, _) => CreatorKept(s.log, Next(s, e).log[|s.log|], q, s.rows[q].project, r, subject);
    case RunnerDelete(q) => CreatorKept(s.log, Next(s, e).log[|s.log|], q, s.rows[q].project, r, subject);
    case _ =>
  }

  lemma {:induction false} CreatorRun(s: State, es: seq<Event>, r: Resource, subject: string)
    requires Run(s, es) && subject != ""
    ensures CreatorTuple(subject, r) in Replay(After(s, es).log) <==>
      CreatorTuple(subject, r) in Replay(s.log) || exists i :: 0 <= i < |es| && Completes(es[i], r, subject)
    decreases |es|
  {
    hide Replay, CreatorTuple, Enabled, Next, Completes;
    if es != [] {
      CreatorStep(s, es[0], r, subject);
      CreatorRun(Next(s, es[0]), es[1..], r, subject);
      assert forall i :: 0 < i < |es| ==> es[i] == es[1..][i - 1];
    }
  }

  /** In every run a creator's tuple replays exactly when that principal's creation of the resource
      completed: moves, label updates and deletions leave it. */
  lemma CreatorExact(es: seq<Event>, r: Resource, subject: string)
    requires Run(Init(), es) && subject != ""
    ensures CreatorTuple(subject, r) in Replay(After(Init(), es).log) <==>
      exists i :: 0 <= i < |es| && Completes(es[i], r, subject)
  {
    CreatorRun(Init(), es, r, subject);
  }

  // ---- the lifecycle events ----

  /** The last CREATED or DELETED of r. */
  function LastMark(events: seq<(Resource, Lifecycle)>, r: Resource): Option<Lifecycle> {
    if events == [] then None
    else
      var last := events[|events| - 1];
      if last.0 == r && (last.1.Created? || last.1.Deleted?) then Some(last.1)
      else LastMark(events[..|events| - 1], r)
  }

  lemma MarkOfOne(events: seq<(Resource, Lifecycle)>, e: (Resource, Lifecycle), r: Resource)
    ensures LastMark(events + [e], r) ==
      if e.0 == r && (e.1.Created? || e.1.Deleted?) then Some(e.1) else LastMark(events, r)
  {
    assert (events + [e])[..|events|] == events;
  }

  ghost predicate Announced(s: State, r: Resource) {
    LastMark(s.events, r) == Some(Created) <==> r in s.rows && s.rows[r].registered
  }

  lemma AnnouncedStep(s: State, e: Event, r: Resource)
    requires Announced(s, r) && Enabled(s, e)
    ensures Announced(Next(s, e), r)
  {
    hide LastMark;
    var t := Next(s, e);
    if |t.events| == |s.events| + 1 {
      MarkOfOne(s.events, t.events[|s.events|], r);
      assert t.events == s.events + [t.events[|s.events|]];
    } else if |t.events| == |s.events| + 2 {
      MarkOfOne(s.events, t.events[|s.events|], r);
      MarkOfOne(s.events + [t.events[|s.events|]], t.events[|s.events| + 1], r);
      assert t.events == s.events + [t.events[|s.events|]] + [t.events[|s.events| + 1]];
    }
  }

  lemma {:induction false} AnnouncedRun(s: State, es: seq<Event>, r: Resource)
    requires Announced(s, r) && Run(s, es)
    ensures Announced(After(s, es), r)
    decreases |es|
  {
    hide Announced, Enabled, Next;
    if es != [] {
      AnnouncedStep(s, es[0], r);
      AnnouncedRun(Next(s, es[0]), es[1..], r);
    }
  }

  /** In every run the last CREATED or DELETED event of a resource is a CREATED exactly when the
      resource is there and completed. */
  lemma EventsTellWhatIsThere(es: seq<Event>, r: Resource)
    requires Run(Init(), es)
    ensures Announced(After(Init(), es), r)
  {
    AnnouncedRun(Init(), es, r);
  }

  // ---- the conditions are needed ----

  ghost predicate Reaches(es: seq<Event>, t: State) {
    Run(Init(), es) && After(Init(), es) == t
  }

  lemma {:induction false} RunExtend(s: State, es: seq<Event>, e: Event)
    requires Run(s, es) && Enabled(After(s, es), e)
    ensures Run(s, es + [e]) && After(s, es + [e]) == Next(After(s, es), e)
    decreases |es|
  {
    if es == [] {
      assert ([] + [e])[1..] == [];
    } else {
      assert (es + [e])[1..] == es[1..] + [e];
      RunExtend(Next(s, es[0]), es[1..], e);
    }
  }

  lemma Then(es: seq<Event>, t: State, e: Event)
    requires Reaches(es, t) && Enabled(t, e)
    ensures Reaches(es + [e], Next(t, e))
    ensures forall q, o :: Linked(Next(t, e), q, o) <==> LinkedAfter(t, e, q, o)
  {
    RunExtend(Init(), es, e);
    forall q, o ensures Linked(Next(t, e), q, o) <==> LinkedAfter(t, e, q, o) { StepLinks(t, e, q, o); }
  }

  /** A Move of a load balancer still in creation, whose orphan is then removed, leaves a link
      for a resource that does not exist. */
  lemma MovedOrphanKeepsLink()
    ensures exists es, t, r, p :: Reaches(es, t) && r !in t.rows && Linked(t, r, p)
  {
    var r := Resource(LoadBalancer, "x");
    var e1, e2, e3, e4 := InsertBalancer(r, "a", map[]), RequestMove(0, r, "b"), CommitMove(0), DropOrphan(r);
    assert Reaches([], Init());
    Then([], Init(), e1);
    var s1 := Next(Init(), e1);
    Then([] + [e1], s1, e2);
    var s2 := Next(s1, e2);
    Then([] + [e1] + [e2], s2, e3);
    var s3 := Next(s2, e3);
    Then([] + [e1] + [e2] + [e3], s3, e4);
    assert LinkedAfter(s2, e3, r, "b");
    assert Linked(Next(s3, e4), r, "b");
  }

  /** Two overlapping Moves link the resource to both destinations. */
  lemma OverlappingMovesLinkTwice()
    ensures exists es, t, r, p, o :: Reaches(es, t) && p != o && Linked(t, r, p) && Linked(t, r, o)
  {
    var r := Resource(LoadBalancer, "x");
    var e1, e2, e3 := InsertBalancer(r, "a", map[]), RequestMove(0, r, "b"), RequestMove(1, r, "c");
    assert Reaches([], Init());
    Then([], Init(), e1);
    var s1 := Next(Init(), e1);
    Then([] + [e1], s1, e2);
    var s2 := Next(s1, e2);
    Then([] + [e1] + [e2], s2, e3);
    var s3 := Next(s2, e3);
    TwoMoves([] + [e1] + [e2] + [e3], s3, r);
  }

  lemma TwoMoves(es: seq<Event>, s: State, r: Resource)
    requires Reaches(es, s) && r in s.rows && s.ops.Keys == {0, 1}
    requires s.ops[0] == Move(r, "a", "b", 0) && s.ops[1] == Move(r, "a", "c", 0)
    ensures exists es, t, r, p, o :: Reaches(es, t) && p != o && Linked(t, r, p) && Linked(t, r, o)
  {
    Then(es, s, CommitMove(0));
    var s1 := Next(s, CommitMove(0));
    Then(es + [CommitMove(0)], s1, CommitMove(1));
    var s2 := Next(s1, CommitMove(1));
    assert LinkedAfter(s, CommitMove(0), r, "b") && LinkedAfter(s1, CommitMove(1), r, "b");
    assert LinkedAfter(s1, CommitMove(1), r, "c");
    assert Linked(s2, r, "b") && Linked(s2, r, "c") && "b" != "c";
  }

  // ---- the transactions as the program writes them ----

  datatype Error = NotFound | AlreadyExists | Database

  /** The writes of one open transaction. */
  datatype Tx = Tx(rows: map<Resource, Row>, log: seq<Entry>, events: seq<(Resource, Lifecycle)>)

  /** Exactly the given project's tuple of r replays, or none. */
  ghost predicate LinkIs(log: seq<Entry>, r: Resource, project: Option<string>) {
    forall p :: ProjectTuple(r, p) in Replay(log) <==> project == Some(p)
  }

  class Store {
    var rows: map<Resource, Row>
    var ops: map<OpId, Op>
    var log: seq<Entry>
    var events: seq<(Resource, Lifecycle)>
    ghost var trace: seq<Event>

    ghost function Committed(): State
      reads this
    {
      State(rows, ops, log, events)
    }

    /** What is committed is what the transactions so far made of the empty database. */
    ghost predicate Valid()
      reads this
    {
      Run(Init(), trace) && After(Init(), trace) == Committed() && OpsOk(Committed())
    }

    constructor ()
      ensures Valid() && Committed() == Init() && trace == []
    {
      rows, ops, log, events, trace := map[], map[], [], [], [];
    }

    function Begin(): Tx
      reads this
    {
      Tx(rows, log, events)
    }

    static function Emit(tx: Tx, r: Resource, change: Lifecycle): Tx {
      tx.(events := tx.events + [(r, change)])
    }

    static function EmitIntent(tx: Tx, entry: Entry): Tx {
      tx.(log := tx.log + [entry])
    }

    /** The writes of the transaction become visible together. */
    method Commit(tx: Tx, done: Option<OpId>, ghost e: Event)
      requires Valid() && Enabled(Committed(), e)
      requires Next(Committed(), e) == State(tx.rows, if done.Some? then ops - {done.value} else ops, tx.log, tx.events)
      modifies this
      ensures Valid() && Committed() == Next(old(Committed()), e) && trace == old(trace) + [e]
    {
      RunExtend(Init(), trace, e);
      OpsStep(Committed(), e);
      rows, log, events := tx.rows, tx.log, tx.events;
      if done.Some? { ops := ops - {done.value}; }
      trace := trace + [e];
    }

    /** The operation ends with an error; nothing else changes. */
    method Fail(op: OpId)
      requires Valid() && op in ops
      modifies this
      ensures Valid() && Committed() == Next(old(Committed()), FailOp(op)) && trace == old(trace) + [FailOp(op)]
    {
      RunExtend(Init(), trace, FailOp(op));
      OpsStep(Committed(), FailOp(op));
      ops := ops - {op};
      trace := trace + [FailOp(op)];
    }

    /** doMove: the row, MOVED, UPDATED, the destination's registration and the source's
        unregistration in one transaction; `database` is the first error of a statement, if any.
        If the links were exact, they are afterwards exactly when the move is sound, and then the
        destination's tuple is the one that replays for the resource. */
    method DoMove(op: OpId, database: Option<Error>) returns (r: Result<Row, Error>)
      requires Valid() && op in ops && ops[op].Move?
      modifies this
      ensures Valid() && op !in ops
      ensures r.Ok? <==> old(ops[op].res in rows) && database == None
      ensures r.Err? ==> rows == old(rows) && log == old(log) && events == old(events)
      ensures r.Err? ==> r.error == if old(ops[op].res !in rows) then NotFound else database.value
      ensures r.Ok? ==> Committed() == Next(old(Committed()), CommitMove(op))
      ensures r.Ok? ==>
        var m := old(ops[op]);
        && r.value == old(rows)[m.res].(project := m.dest, moves := r.value.moves)
        && rows == old(rows)[m.res := r.value]
        && events == old(events) + [(m.res, Moved(m.source, m.dest)), (m.res, Updated)]
        && log == old(log) + [Register(Intent(m.res, [ProjectTuple(m.res, m.dest)], r.value.labels, m.dest)),
                              Unregister(Intent(m.res, [ProjectTuple(m.res, m.source)], map[], ""))]
      ensures r.Ok? && old(Exact(Committed())) ==>
        (Exact(Committed()) <==> old(Sound(Committed(), CommitMove(op))))
      ensures r.Ok? && old(Exact(Committed()) && Sound(Committed(), CommitMove(op))) ==>
        LinkIs(log, old(ops[op]).res, Some(old(ops[op]).dest))
    {
      hide Run, After, Exact, OpsOk, LinkIs, Replay;
      var m := ops[op];
      if m.res !in rows {
        Fail(op);
        return Err(NotFound);
      }
      var moved := rows[m.res].(project := m.dest, moves := rows[m.res].moves + 1);
      var tx := Begin().(rows := rows[m.res := moved]);
      tx := Emit(tx, m.res, Moved(m.source, m.dest));
      tx := Emit(tx, m.res, Updated);
      tx := EmitIntent(tx, Register(MirrorIntent(m.res, moved)));
      tx := EmitIntent(tx, Unregister(UnregisterIntent(m.res, m.source)));
      if database.Some? {
        Fail(op);
        return Err(database.value);
      }
      ghost var before := Committed();
      assert tx.events == events + [(m.res, Moved(m.source, m.dest)), (m.res, Updated)];
      assert tx.log == log + [Register(MirrorIntent(m.res, moved)), Unregister(UnregisterIntent(m.res, m.source))];
      Commit(tx, Some(op), CommitMove(op));
      MoveEffect(before, op);
      return Ok(moved);
    }

    /** doCreate of a target group: the row, CREATED, the registration with the creator if the
        principal has a name. Exact links stay exact, with one for the new group. */
    method DoCreateGroup(r: Resource, project: string, labels: map<string, string>, principalType: string,
                         principalId: string, database: Option<Error>)
      returns (result: Result<Row, Error>)
      requires Valid() && r.kind == TargetGroup
      modifies this
      ensures Valid()
      ensures result.Ok? <==> r !in old(rows) && database == None
      ensures result.Err? ==> Committed() == old(Committed())
      ensures result.Err? ==> result.error == if r in old(rows) then AlreadyExists else database.value
      ensures var subject := SubjectFromPrincipal(principalType, principalId);
        result.Ok? ==> Committed() == Next(old(Committed()), CreateGroup(r, project, labels, subject))
      ensures var creator :=
          if principalType in {"", "system"} || principalId == "" then []
          else [Tuple(principalType + ":" + principalId, "admin", ObjectRef(r))];
        result.Ok? ==>
          && result.value == Row(project, labels, true, 0) && rows == old(rows)[r := result.value]
          && events == old(events) + [(r, Created)]
          && log == old(log) + [Register(Intent(r, [ProjectTuple(r, project)] + creator, labels, project))]
      ensures result.Ok? && old(Exact(Committed())) ==> Exact(Committed()) && LinkIs(log, r, Some(project))
      ensures result.Ok? && principalType !in {"", "system"} && principalId != "" ==>
        Tuple(principalType + ":" + principalId, "admin", ObjectRef(r)) in Replay(log)
    {
      hide Run, After, Exact, OpsOk, LinkIs, Replay;
      if r in rows { return Err(AlreadyExists); }
      var created := Row(project, labels, true, 0);
      var tx := Begin().(rows := rows[r := created]);
      tx := Emit(tx, r, Created);
      var subject := SubjectFromPrincipal(principalType, principalId);
      var tuples := [ProjectTuple(r, project)];
      if subject != "" {
        tuples := tuples + [CreatorTuple(subject, r)];
      }
      tx := EmitIntent(tx, Register(Intent(r, tuples, labels, project)));
      if database.Some? { return Err(database.value); }
      ghost var before := Committed();
      assert tuples == RegisterIntent(r, created, subject).tuples;
      Commit(tx, None, CreateGroup(r, project, labels, subject));
      CreateEffect(before, r, project, labels, subject);
      return Ok(created);
    }

    /** The last transaction of doDelete: the row, DELETED, the unregistration of the project the
        request read. Exact links stay exact, with none for the resource, exactly when the request
        knew the project. */
    method DoDelete(op: OpId, database: Option<Error>) returns (r: Result<(), Error>)
      requires Valid() && op in ops && ops[op].Delete?
      modifies this
      ensures Valid() && op !in ops
      ensures r.Ok? <==> old(ops[op].res in rows) && database == None
      ensures r.Err? ==> rows == old(rows) && log == old(log) && events == old(events)
      ensures r.Err? ==> r.error == if old(ops[op].res !in rows) then NotFound else database.value
      ensures r.Ok? ==> Committed() == Next(old(Committed()), CommitDelete(op))
      ensures r.Ok? ==>
        var d := old(ops[op]);
        && rows == old(rows) - {d.res} && events == old(events) + [(d.res, Deleted)]
        && log == old(log) + [Unregister(Intent(d.res, [ProjectTuple(d.res, d.source)], map[], ""))]
      ensures r.Ok? && old(Exact(Committed())) ==>
        && (Exact(Committed()) <==> old(Sound(Committed(), CommitDelete(op))))
        && (LinkIs(log, old(ops[op]).res, None) <==> old(Sound(Committed(), CommitDelete(op))))
    {
      hide Run, After, Exact, OpsOk, LinkIs, Replay;
      var d := ops[op];
      if d.res !in rows {
        Fail(op);
        return Err(NotFound);
      }
      var tx := Begin().(rows := rows - {d.res});
      tx := Emit(tx, d.res, Deleted);
      tx := EmitIntent(tx, Unregister(UnregisterIntent(d.res, d.source)));
      if database.Some? {
        Fail(op);
        return Err(database.value);
      }
      ghost var before := Committed();
      Commit(tx, Some(op), CommitDelete(op));
      DeleteEffect(before, op);
      return Ok(());
    }

    /** The runner's finalization of a DELETING row, with the project of the claimed row: exact
        links always stay exact, with none for the balancer. */
    method EmitReconcileFinalize(r: Resource, database: Option<Error>) returns (result: Result<(), Error>)
      requires Valid() && r in rows && r.kind == LoadBalancer
      modifies this
      ensures Valid() && (result.Ok? <==> database == None)
      ensures result.Err? ==> Committed() == old(Committed())
      ensures result.Err? ==> result.error == database.value
      ensures result.Ok? ==> Committed() == Next(old(Committed()), RunnerDelete(r))
      ensures result.Ok? ==>
        && rows == old(rows) - {r} && events == old(events) + [(r, Deleted)]
        && log == old(log) + [Unregister(Intent(r, [ProjectTuple(r, old(rows)[r].project)], map[], ""))]
      ensures result.Ok? && old(Exact(Committed())) ==> Exact(Committed()) && LinkIs(log, r, None)
    {
      hide Run, After, Exact, OpsOk, LinkIs, Replay;
      var project := rows[r].project;
      var tx := Begin().(rows := rows - {r});
      tx := Emit(tx, r, Deleted);
      tx := EmitIntent(tx, Unregister(UnregisterIntent(r, project)));
      if database.Some? { return Err(database.value); }
      ghost var before := Committed();
      Commit(tx, None, RunnerDelete(r));
      RunnerEffect(before, r);
      return Ok(());
    }
  }

  // ---- what the transactions leave ----

  lemma ExactLink(s: State, r: Resource)
    requires Exact(s)
    ensures LinkIs(s.log, r, if r in s.rows && s.rows[r].registered then Some(s.rows[r].project) else None)
  {
    assert ExactFor(s, r);
    forall p ensures ProjectTuple(r, p) in Replay(s.log) <==> Linked(s, r, p) {}
  }

  lemma MoveEffect(s: State, op: OpId)
    requires OpsOk(s) && Enabled(s, CommitMove(op))
    ensures var t := Next(s, CommitMove(op));
      && (Exact(s) ==> (Exact(t) <==> Sound(s, CommitMove(op))))
      && (Exact(s) && Sound(s, CommitMove(op)) ==> LinkIs(t.log, s.ops[op].res, Some(s.ops[op].dest)))
  {
    hide Exact, OpsOk, LinkIs;
    if Exact(s) {
      StepExact(s, CommitMove(op));
      if Sound(s, CommitMove(op)) { ExactLink(Next(s, CommitMove(op)), s.ops[op].res); }
    }
  }

  lemma CreateEffect(s: State, r: Resource, project: string, labels: map<string, string>, subject: string)
    requires OpsOk(s) && Enabled(s, CreateGroup(r, project, labels, subject))
    ensures var t := Next(s, CreateGroup(r, project, labels, subject));
      && (Exact(s) ==> Exact(t) && LinkIs(t.log, r, Some(project)))
      && (subject != "" ==> CreatorTuple(subject, r) in Replay(t.log))
  {
    hide Exact, OpsOk, LinkIs;
    var e := CreateGroup(r, project, labels, subject);
    if Exact(s) {
      StepExact(s, e);
      ExactLink(Next(s, e), r);
    }
    var intent := RegisterIntent(r, Row(project, labels, true, 0), subject);
    ReplayOne(s.log, Register(intent));
    if subject != "" { assert intent.tuples[1] == CreatorTuple(subject, r); }
  }

  /** After a Delete that names another project, the row's own tuple still replays. */
  lemma DeleteEffect(s: State, op: OpId)
    requires OpsOk(s) && Enabled(s, CommitDelete(op))
    ensures var t := Next(s, CommitDelete(op)); var r := s.ops[op].res;
      Exact(s) ==>
        && (Exact(t) <==> Sound(s, CommitDelete(op)))
        && (LinkIs(t.log, r, None) <==> Sound(s, CommitDelete(op)))
  {
    var e, r := CommitDelete(op), s.ops[op].res;
    if Exact(s) {
      StepExact(s, e);
      if Sound(s, e) {
        ExactLink(Next(s, e), r);
      } else {
        assert ExactFor(s, r);
        StepLinks(s, e, r, s.rows[r].project);
        assert ProjectTuple(r, s.rows[r].project) in Replay(Next(s, e).log);
      }
    }
  }

  lemma RunnerEffect(s: State, r: Resource)
    requires OpsOk(s) && Enabled(s, RunnerDelete(r))
    ensures var t := Next(s, RunnerDelete(r)); Exact(s) ==> Exact(t) && LinkIs(t.log, r, None)
  {
    hide Exact, OpsOk, LinkIs;
    if Exact(s) {
      StepExact(s, RunnerDelete(r));
      ExactLink(Next(s, RunnerDelete(r)), r);
    }
  }
}
