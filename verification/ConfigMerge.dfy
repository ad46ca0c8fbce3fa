/**
 The merge of user tasks into the patch configs the server reported, on the JSON itself: what is
 written, when it raises an error or gives up, and that seen as tasks and graphs it is the merge of
 `PatchConfigs`.
 */
module ConfigMerge {
  import opened Options
  import opened JsonTree
  import opened SecretWalk
  import P = PatchConfigs

  const CHILDREN := "child_tasks_local_reference_list"
  const TARGET := "target_any_local_reference"
  const FROM := "from_task_reference"
  const TO := "to_task_reference"
  const EDGES := "edges"

  // ----- JSON seen as tasks, runbooks, configs and profiles

  function AsText(j: Json): string {
    if j.Str? then j.s else ""
  }

  function OptText(j: Json, k: string): Option<string> {
    match Get(j, k) case None => None case Some(v) => Some(AsText(v))
  }

  function ChildView(j: Json): P.Child {
    P.Child(Text(j, "name"), Text(j, "uuid"))
  }

  function EndView(j: Json): P.EdgeEnd {
    P.EdgeEnd(OptText(j, "name"), OptText(j, "uuid"))
  }

  function EdgeView(j: Json): P.Edge {
    P.Edge(EndView(OrNull(Get(j, FROM))), EndView(OrNull(Get(j, TO))))
  }

  function TargetView(j: Json): P.Target {
    P.Target(Text(j, "name"), OptText(j, "uuid"))
  }

  function ChildViews(children: seq<Json>): seq<P.Child> {
    seq(|children|, i requires 0 <= i < |children| => ChildView(children[i]))
  }

  function EdgeViews(edges: seq<Json>): seq<P.Edge> {
    seq(|edges|, i requires 0 <= i < |edges| => EdgeView(edges[i]))
  }

  function TaskView(j: Json): P.Task {
    P.Task(Text(j, "name"), Text(j, "uuid"), Text(j, "type"),
           match Get(j, TARGET) case None => None case Some(t) => Some(TargetView(t)),
           ChildViews(Elements(j, CHILDREN)), EdgeViews(Elements(OrNull(Get(j, "attrs")), EDGES)),
           OptText(j, "state"), OptText(j, "message_list"))
  }

  function TaskViews(tasks: seq<Json>): seq<P.Task> {
    seq(|tasks|, i requires 0 <= i < |tasks| => TaskView(tasks[i]))
  }

  function RunbookView(j: Json): P.Runbook {
    P.Runbook(TaskViews(Elements(j, TASKS.key)), OptText(j, "state"), OptText(j, "message_list"))
  }

  /** An empty runbook is none. */
  function ConfigView(j: Json): P.Config {
    var runbook := OrNull(Get(j, "runbook"));
    P.Config(Text(j, "name"), if Truthy(runbook) then Some(RunbookView(runbook)) else None)
  }

  function ConfigViews(configs: seq<Json>): seq<P.Config> {
    seq(|configs|, i requires 0 <= i < |configs| => ConfigView(configs[i]))
  }

  function ProfileView(j: Json): P.Profile {
    P.Profile(Text(j, "name"), ConfigViews(Elements(j, "patch_list")))
  }

  function ProfileViews(profiles: seq<Json>): seq<P.Profile> {
    seq(|profiles|, i requires 0 <= i < |profiles| => ProfileView(profiles[i]))
  }

  // ----- one user task

  type Uuids = map<string, Json>

  /** `task_name_uuid_map`: the last task of a name wins. */
  function UuidsOf(tasks: seq<Json>): Uuids {
    if tasks == [] then map[]
    else
      var n := |tasks| - 1;
      UuidsOf(tasks[..n])[Text(tasks[n], "name") := OrNull(Get(tasks[n], "uuid"))]
  }

  function With(j: Json, k: string, v: Json): Json {
    PutChild(j, Key(k), Some(v))
  }

  function Without(j: Json, k: string): Json {
    PutChild(j, Key(k), None)
  }

  /** Without what the server adds to a task or a runbook it reports. */
  function Clean(j: Json): Json {
    Without(Without(j, "state"), "message_list")
  }

  /** The service the task runs on, if it names one, has a uuid. */
  predicate Placeable(t: Json, services: P.Names) {
    var target := Get(t, TARGET);
    target.Some? ==>
      && IsText(target.value, "name") && Text(target.value, "name") in services
      && services[Text(target.value, "name")] != ""
  }

  function Placed(t: Json, services: P.Names): Json
    requires Placeable(t, services)
  {
    match Get(t, TARGET)
    case None => t
    case Some(target) => With(t, TARGET, With(target, "uuid", Str(services[Text(target, "name")])))
  }

  function ChildOf(t: Json): Json {
    Obj(map["kind" := Str("app_task"), "name" := OrNull(Get(t, "name")), "uuid" := OrNull(Get(t, "uuid"))])
  }

  predicate Pointable(end: Json, uuids: Uuids) {
    IsText(end, "name") && Text(end, "name") in uuids
  }

  predicate EdgeFits(e: Json, uuids: Uuids) {
    Pointable(OrNull(Get(e, FROM)), uuids) && Pointable(OrNull(Get(e, TO)), uuids)
  }

  function Point(end: Json, uuids: Uuids): Json
    requires Pointable(end, uuids)
  {
    With(end, "uuid", uuids[Text(end, "name")])
  }

  function PointEdge(e: Json, uuids: Uuids): Json
    requires EdgeFits(e, uuids)
  {
    With(With(e, FROM, Point(OrNull(Get(e, FROM)), uuids)), TO, Point(OrNull(Get(e, TO)), uuids))
  }

  function PointAll(edges: seq<Json>, uuids: Uuids): seq<Json>
    requires forall i | 0 <= i < |edges| :: EdgeFits(edges[i], uuids)
  {
    seq(|edges|, i requires 0 <= i < |edges| => PointEdge(edges[i], uuids))
  }

  /** The edge from the system's first task to the user's first task. */
  function FirstEdge(uuid: Json, name: string, uuids: Uuids): Json
    requires name in uuids
  {
    Obj(map[FROM := Obj(map["kind" := Str("app_task"), "uuid" := uuid]),
            TO := Obj(map["kind" := Str("app_task"), "name" := Str(name), "uuid" := uuids[name]])])
  }

  /** What the merge reads of a DAG the user wrote. */
  predicate DagFits(t: Json, uuids: Uuids) {
    var children, edges := Elements(t, CHILDREN), Get(OrNull(Get(t, "attrs")), EDGES);
    && children != [] && Pointable(children[0], uuids)
    && edges.Some? && edges.value.Arr?
        && forall i | 0 <= i < |edges.value.items| :: EdgeFits(edges.value.items[i], uuids)
  }

  /** The edges the system DAG gets from a DAG the user wrote. */
  function NewEdges(uuid: Json, t: Json, uuids: Uuids): seq<Json>
    requires DagFits(t, uuids)
  {
    [FirstEdge(uuid, Text(Elements(t, CHILDREN)[0], "name"), uuids)]
        + PointAll(Elements(OrNull(Get(t, "attrs")), EDGES), uuids)
  }

  /** The system DAG can take another child, or other edges. */
  predicate TakesChild(dag: Json) {
    Get(dag, CHILDREN).Some? && Get(dag, CHILDREN).value.Arr?
  }

  predicate TakesEdges(dag: Json) {
    var children := Elements(dag, CHILDREN);
    children != [] && Get(children[0], "uuid").Some? && OrNull(Get(dag, "attrs")).Obj?
  }

  function WithChild(dag: Json, t: Json): Json {
    With(dag, CHILDREN, Arr(Elements(dag, CHILDREN) + [ChildOf(t)]))
  }

  function WithEdges(dag: Json, t: Json, uuids: Uuids): Json
    requires TakesEdges(dag) && DagFits(t, uuids)
  {
    var uuid := OrNull(Get(Elements(dag, CHILDREN)[0], "uuid"));
    With(dag, "attrs", With(OrNull(Get(dag, "attrs")), EDGES, Arr(NewEdges(uuid, t, uuids))))
  }

  /** One turn of the loop over user tasks; None when it raises an error or a service is missing. */
  function MergeTask(tasks: seq<Json>, t: Json, services: P.Names, uuids: Uuids): (merged: Option<seq<Json>>)
    requires tasks != []
    ensures merged.Some? ==> merged.value != []
  {
    var dag := tasks[0];
    if !Placeable(t, services) || Get(t, "type").None? then None
    else if !HasType(t, "DAG") then
      if TakesChild(dag) then Some([WithChild(dag, t)] + tasks[1..] + [Placed(t, services)]) else None
    else if TakesEdges(dag) && DagFits(t, uuids) then Some([WithEdges(dag, t, uuids)] + tasks[1..])
    else None
  }

  function MergeAll(tasks: seq<Json>, user: seq<Json>, services: P.Names, uuids: Uuids): (merged: Option<seq<Json>>)
    requires tasks != []
    ensures merged.Some? ==> merged.value != []
  {
    if user == [] then Some(tasks)
    else
      match MergeAll(tasks, user[..|user|-1], services, uuids)
      case None => None
      case Some(before) => MergeTask(before, user[|user|-1], services, uuids)
  }

  function CleanAll(tasks: seq<Json>): seq<Json> {
    seq(|tasks|, i requires 0 <= i < |tasks| => Clean(tasks[i]))
  }

  predicate AllObjects(tasks: seq<Json>) {
    forall t | t in tasks :: t.Obj?
  }

  /** Every user task has a name and a uuid: the client reads both before it merges. */
  predicate AllNamed(tasks: seq<Json>) {
    forall t | t in tasks :: IsText(t, "name") && Get(t, "uuid").Some?
  }

  /** The task list of one reported runbook, and what becomes of it. */
  function MergedTasks(system: seq<Json>, user: seq<Json>, services: P.Names): Option<seq<Json>> {
    if system == [] || !AllObjects(system) then None
    else
      match MergeAll(system, user, services, UuidsOf(user))
      case None => None
      case Some(tasks) => Some(CleanAll(tasks))
  }

  // ----- seen as tasks

  function NamesView(uuids: Uuids): P.Names {
    map n | n in uuids :: AsText(uuids[n])
  }

  lemma {:induction false} NamesAreViews(tasks: seq<Json>)
    ensures P.NamesOf(TaskViews(tasks)) == NamesView(UuidsOf(tasks))
  {
    if tasks != [] {
      var n := |tasks| - 1;
      NamesAreViews(tasks[..n]);
      assert TaskViews(tasks)[..n] == TaskViews(tasks[..n]);
    }
  }

  /** Members of an object other than the one written are as they were. */
  lemma OtherMembers(j: Json, k: string, v: Option<Json>, m: string)
    requires m != k
    ensures Get(PutChild(j, Key(k), v), m) == Get(j, m)
  {
  }

  lemma PlacedView(t: Json, services: P.Names)
    requires Placeable(t, services)
    ensures TaskView(Placed(t, services)) == P.Placed(TaskView(t), services)
    ensures forall m | m != TARGET :: Get(Placed(t, services), m) == Get(t, m)
  {
    hide ChildViews, EdgeViews;
    if Get(t, TARGET).Some? {
      var target := Get(t, TARGET).value;
      var placed := With(target, "uuid", Str(services[Text(target, "name")]));
      forall m | m != TARGET ensures Get(Placed(t, services), m) == Get(t, m) {
        OtherMembers(t, TARGET, Some(placed), m);
      }
      OtherMembers(target, "uuid", Some(Str(services[Text(target, "name")])), "name");
      assert TargetView(placed) == TargetView(target).(uuid := Some(services[Text(target, "name")]));
      assert Get(Placed(t, services), TARGET) == Some(placed);
    }
  }

  lemma CleanView(t: Json)
    ensures TaskView(Clean(t)) == P.Clean(TaskView(t))
    ensures forall m | m != "state" && m != "message_list" :: Get(Clean(t), m) == Get(t, m)
  {
    hide ChildViews, EdgeViews;
    forall m | m != "state" && m != "message_list" ensures Get(Clean(t), m) == Get(t, m) {
      OtherMembers(t, "state", None, m);
      OtherMembers(Without(t, "state"), "message_list", None, m);
    }
    OtherMembers(Without(t, "state"), "message_list", None, "state");
  }

  lemma WithChildView(dag: Json, t: Json)
    requires TakesChild(dag)
    ensures TaskView(WithChild(dag, t))
         == TaskView(dag).(children := TaskView(dag).children + [P.Child(Text(t, "name"), Text(t, "uuid"))])
    ensures forall m | m != CHILDREN :: Get(WithChild(dag, t), m) == Get(dag, m)
  {
    var children := Elements(dag, CHILDREN);
    forall m | m != CHILDREN ensures Get(WithChild(dag, t), m) == Get(dag, m) {
      OtherMembers(dag, CHILDREN, Some(Arr(children + [ChildOf(t)])), m);
    }
    assert ChildView(ChildOf(t)) == P.Child(Text(t, "name"), Text(t, "uuid"));
    assert Elements(WithChild(dag, t), CHILDREN) == children + [ChildOf(t)];
    hide ChildView, ChildOf, WithChild, TakesChild;
    ChildrenView(dag, children);
    ChildrenView(WithChild(dag, t), children + [ChildOf(t)]);
    OneMoreChild(children, ChildOf(t));
    SameButChildren(WithChild(dag, t), dag);
    hide TaskView, ChildViews;
  }

  lemma ChildrenView(t: Json, children: seq<Json>)
    requires Elements(t, CHILDREN) == children
    ensures TaskView(t).children == ChildViews(children)
  {
    hide ChildView;
  }

  lemma OneMoreChild(children: seq<Json>, child: Json)
    ensures ChildViews(children + [child]) == ChildViews(children) + [ChildView(child)]
  {
    hide ChildView;
  }

  lemma SameButChildren(a: Json, b: Json)
    requires forall m | m != CHILDREN :: Get(a, m) == Get(b, m)
    ensures TaskView(a) == TaskView(b).(children := TaskView(a).children)
  {
    hide ChildViews, EdgeViews, TargetView;
    assert Get(a, "name") == Get(b, "name") && Get(a, "uuid") == Get(b, "uuid") && Get(a, "type") == Get(b, "type");
    assert Get(a, TARGET) == Get(b, TARGET) && Get(a, "attrs") == Get(b, "attrs");
    assert Get(a, "state") == Get(b, "state") && Get(a, "message_list") == Get(b, "message_list");
  }

  lemma PointView(end: Json, uuids: Uuids)
    requires Pointable(end, uuids)
    ensures EndView(Point(end, uuids)) == P.Point(EndView(end), NamesView(uuids))
    ensures forall m | m != "uuid" :: Get(Point(end, uuids), m) == Get(end, m)
  {
    forall m | m != "uuid" ensures Get(Point(end, uuids), m) == Get(end, m) {
      OtherMembers(end, "uuid", Some(uuids[Text(end, "name")]), m);
    }
  }

  lemma PointEdgeView(e: Json, uuids: Uuids)
    requires EdgeFits(e, uuids)
    ensures EdgeView(PointEdge(e, uuids))
            == P.Edge(P.Point(EdgeView(e).from, NamesView(uuids)), P.Point(EdgeView(e).to, NamesView(uuids)))
    ensures forall m | m != FROM && m != TO :: Get(PointEdge(e, uuids), m) == Get(e, m)
  {
    var from, to := Point(OrNull(Get(e, FROM)), uuids), Point(OrNull(Get(e, TO)), uuids);
    PointView(OrNull(Get(e, FROM)), uuids);
    PointView(OrNull(Get(e, TO)), uuids);
    forall m | m != FROM && m != TO ensures Get(PointEdge(e, uuids), m) == Get(e, m) {
      OtherMembers(e, FROM, Some(from), m);
      OtherMembers(With(e, FROM, from), TO, Some(to), m);
    }
    OtherMembers(With(e, FROM, from), TO, Some(to), FROM);
    assert Get(PointEdge(e, uuids), FROM) == Some(from) && Get(PointEdge(e, uuids), TO) == Some(to);
  }

  lemma NewEdgesView(uuid: Json, t: Json, uuids: Uuids)
    requires DagFits(t, uuids)
    ensures TaskView(t).children != []
    ensures EdgeViews(NewEdges(uuid, t, uuids))
         == [P.FirstEdge(AsText(uuid), TaskView(t), NamesView(uuids))] + P.PointAll(TaskView(t).edges, NamesView(uuids))
  {
    var edges := Elements(OrNull(Get(t, "attrs")), EDGES);
    var name := Text(Elements(t, CHILDREN)[0], "name");
    EdgesOfView(t, edges);
    FirstChildName(t);
    FirstEdgeView(uuid, name, uuids);
    PointAllView(edges, uuids);
    OneMoreView(FirstEdge(uuid, name, uuids), PointAll(edges, uuids));
    hide TaskView, EdgeView, EdgeViews, EdgeFits, PointAll, P.PointAll, NamesView, Elements, Get, FirstEdge;
  }

  lemma OneMoreView(first: Json, edges: seq<Json>)
    ensures EdgeViews([first] + edges) == [EdgeView(first)] + EdgeViews(edges)
  {
    hide EdgeView;
  }

  lemma PointAllView(edges: seq<Json>, uuids: Uuids)
    requires forall i | 0 <= i < |edges| :: EdgeFits(edges[i], uuids)
    ensures EdgeViews(PointAll(edges, uuids)) == P.PointAll(EdgeViews(edges), NamesView(uuids))
  {
    hide EdgeView, PointEdge, NamesView, EdgeFits, P.Point;
    forall i | 0 <= i < |edges|
      ensures EdgeViews(PointAll(edges, uuids))[i] == P.PointAll(EdgeViews(edges), NamesView(uuids))[i]
    {
      PointEdgeView(edges[i], uuids);
    }
  }

  lemma FirstChildName(t: Json)
    requires Elements(t, CHILDREN) != []
    ensures TaskView(t).children != [] && TaskView(t).children[0].name == Text(Elements(t, CHILDREN)[0], "name")
  {
    assert TaskView(t).children[0] == ChildView(Elements(t, CHILDREN)[0]);
  }

  lemma FirstEdgeView(uuid: Json, name: string, uuids: Uuids)
    requires name in uuids
    ensures EdgeView(FirstEdge(uuid, name, uuids))
         == P.Edge(P.EdgeEnd(None, Some(AsText(uuid))), P.Point(P.EdgeEnd(Some(name), None), NamesView(uuids)))
  {
    var e := FirstEdge(uuid, name, uuids);
    assert FROM[0] != TO[0];
    assert Get(e, FROM) == Some(Obj(map["kind" := Str("app_task"), "uuid" := uuid]));
    assert Get(e, TO) == Some(Obj(map["kind" := Str("app_task"), "name" := Str(name), "uuid" := uuids[name]]));
  }

  lemma WithEdgesView(dag: Json, t: Json, uuids: Uuids)
    requires TakesEdges(dag) && DagFits(t, uuids)
    ensures TaskView(dag).children != [] && TaskView(t).children != []
    ensures TaskView(WithEdges(dag, t, uuids)) == TaskView(dag).(edges :=
        [P.FirstEdge(TaskView(dag).children[0].uuid, TaskView(t), NamesView(uuids))]
            + P.PointAll(TaskView(t).edges, NamesView(uuids)))
    ensures forall m | m != "attrs" :: Get(WithEdges(dag, t, uuids), m) == Get(dag, m)
    ensures forall m | m != EDGES ::
              Get(OrNull(Get(WithEdges(dag, t, uuids), "attrs")), m) == Get(OrNull(Get(dag, "attrs")), m)
  {
    hide ChildViews, EdgeViews, TaskView;
    var attrs, uuid := OrNull(Get(dag, "attrs")), OrNull(Get(Elements(dag, CHILDREN)[0], "uuid"));
    var edges := NewEdges(uuid, t, uuids);
    var now := With(attrs, EDGES, Arr(edges));
    NewEdgesView(uuid, t, uuids);
    FirstChildView(dag);
    forall m | m != "attrs" ensures Get(WithEdges(dag, t, uuids), m) == Get(dag, m) {
      OtherMembers(dag, "attrs", Some(now), m);
    }
    forall m | m != EDGES ensures Get(now, m) == Get(attrs, m) {
      OtherMembers(attrs, EDGES, Some(Arr(edges)), m);
    }
    assert Get(WithEdges(dag, t, uuids), "attrs") == Some(now) && Elements(now, EDGES) == edges;
    SameButEdges(WithEdges(dag, t, uuids), dag);
    EdgesOfView(WithEdges(dag, t, uuids), edges);
  }

  lemma SameButEdges(a: Json, b: Json)
    requires forall m | m != "attrs" :: Get(a, m) == Get(b, m)
    ensures TaskView(a) == TaskView(b).(edges := TaskView(a).edges)
  {
    hide ChildViews, EdgeViews, TargetView;
    assert Get(a, "name") == Get(b, "name") && Get(a, "uuid") == Get(b, "uuid") && Get(a, "type") == Get(b, "type");
    assert Get(a, TARGET) == Get(b, TARGET) && Get(a, CHILDREN) == Get(b, CHILDREN);
    assert Get(a, "state") == Get(b, "state") && Get(a, "message_list") == Get(b, "message_list");
  }

  lemma EdgesOfView(t: Json, edges: seq<Json>)
    requires Elements(OrNull(Get(t, "attrs")), EDGES) == edges
    ensures TaskView(t).edges == EdgeViews(edges)
  {
  }

  lemma FirstChildView(dag: Json)
    requires Elements(dag, CHILDREN) != []
    ensures TaskView(dag).children != []
    ensures TaskView(dag).children[0].uuid == AsText(OrNull(Get(Elements(dag, CHILDREN)[0], "uuid")))
  {
    assert TaskView(dag).children[0] == ChildView(Elements(dag, CHILDREN)[0]);
  }

  lemma DagIsDag(t: Json)
    ensures P.IsDag(TaskView(t)) <==> HasType(t, "DAG")
  {
    assert "DAG" != "";
  }

  lemma PlaceableView(t: Json, services: P.Names)
    ensures Placeable(t, services) ==> !P.Unplaced(TaskView(t), services)
  {
  }

  /** What one turn of the loop does, seen as tasks. */
  lemma TurnView(tasks: seq<Json>, t: Json, services: P.Names, uuids: Uuids)
    requires tasks != [] && MergeTask(tasks, t, services, uuids).Some?
    ensures P.IsDag(TaskView(t)) ==> TaskView(tasks[0]).children != [] && TaskView(t).children != []
    ensures var merged, names := MergeTask(tasks, t, services, uuids).value, NamesView(uuids);
      var dag, v := TaskView(tasks[0]), TaskView(t);
      TaskViews(merged) ==
        if !P.IsDag(v) then [dag.(children := dag.children + [P.Child(v.name, v.uuid)])] + TaskViews(tasks)[1..]
            + [P.Placed(v, services)]
        else
          [dag.(edges := [P.FirstEdge(dag.children[0].uuid, v, names)] + P.PointAll(v.edges, names))]
              + TaskViews(tasks)[1..]
  {
    hide TaskView;
    var merged := MergeTask(tasks, t, services, uuids).value;
    assert TaskViews(tasks)[1..] == TaskViews(tasks[1..]);
    DagIsDag(t);
    if !HasType(t, "DAG") {
      WithChildView(tasks[0], t);
      PlacedView(t, services);
      NameOfView(t);
      assert TaskViews(merged) == [TaskView(WithChild(tasks[0], t))] + TaskViews(tasks[1..])
          + [TaskView(Placed(t, services))];
    } else {
      WithEdgesView(tasks[0], t, uuids);
      assert TaskViews(merged) == [TaskView(WithEdges(tasks[0], t, uuids))] + TaskViews(tasks[1..]);
    }
  }

  lemma NameOfView(t: Json)
    ensures TaskView(t).name == Text(t, "name") && TaskView(t).uuid == Text(t, "uuid")
  {
  }

  /** One turn, for tasks. */
  lemma SoFarTurn(before: seq<P.Task>, after: seq<P.Task>, system: seq<P.Task>, user: seq<P.Task>, n: nat,
                  services: P.Names, names: P.Names)
    requires system != [] && n < |user| && before != [] && P.MergedSoFar(before, system, user, n, services, names)
    requires P.IsDag(user[n]) ==> before[0].children != [] && user[n].children != []
    requires after ==
      if !P.IsDag(user[n]) then
        [before[0].(children := before[0].children + [P.Child(user[n].name, user[n].uuid)])] + before[1..]
            + [P.Placed(user[n], services)]
      else [before[0].(edges := [P.FirstEdge(before[0].children[0].uuid, user[n], names)]
                       + P.PointAll(user[n].edges, names))] + before[1..]
    ensures P.MergedSoFar(after, system, user, n + 1, services, names)
  {
    P.MergeTurn(system, user, n, services, names);
    hide P.MergedDag, P.OwnTasks, P.FirstEdge, P.PointAll, P.Placed;
    var own := P.OwnTasks(user[..n], services);
    assert before[0] == P.MergedDag(system[0], user[..n], services, names) && before[1..] == system[1..] + own;
    if !P.IsDag(user[n]) {
      assert before[1..] + [P.Placed(user[n], services)] == system[1..] + (own + [P.Placed(user[n], services)]);
    } else {
      assert own + [] == own;
    }
  }

  /** The loop over user tasks, seen as tasks, is the merge of `PatchConfigs`. */
  lemma {:induction false} MergeAllView(system: seq<Json>, user: seq<Json>, services: P.Names, uuids: Uuids)
    requires system != [] && MergeAll(system, user, services, uuids).Some?
    ensures P.MergedSoFar(TaskViews(MergeAll(system, user, services, uuids).value), TaskViews(system), TaskViews(user),
                          |user|,
                          services, NamesView(uuids))
  {
    hide TaskView;
    if user == [] {
      assert TaskViews(system) == [TaskView(system[0])] + TaskViews(system)[1..] + [];
      assert TaskViews(user)[..0] == [];
    } else {
      hide P.FirstEdge, P.PointAll, P.MergedDag, P.OwnTasks, P.Placed;
      var n := |user| - 1;
      var before := MergeAll(system, user[..n], services, uuids).value;
      MergeAllView(system, user[..n], services, uuids);
      assert TaskViews(user)[..n] == TaskViews(user[..n]) == TaskViews(user[..n])[..n];
      TurnView(before, user[n], services, uuids);
      assert TaskViews(user)[n] == TaskView(user[n]) && TaskViews(before)[0] == TaskView(before[0]);
      hide MergeTask, P.MergedSoFar, TaskViews;
      SoFar(TaskViews(before), TaskViews(system), TaskViews(user), TaskViews(user[..n]), n, services, NamesView(uuids));
      SoFarTurn(TaskViews(before), TaskViews(MergeAll(system, user, services, uuids).value), TaskViews(system),
                TaskViews(user), n,
                services, NamesView(uuids));
    }
  }

  lemma SoFar(tasks: seq<P.Task>, system: seq<P.Task>, user: seq<P.Task>, fewer: seq<P.Task>, n: nat,
              services: P.Names, names: P.Names)
    requires system != [] && n <= |user| && n == |fewer| && user[..n] == fewer
             && P.MergedSoFar(tasks, system, fewer, n, services, names)
    ensures P.MergedSoFar(tasks, system, user, n, services, names)
  {
    assert fewer[..n] == fewer;
  }

  /** The merged task list, seen as tasks. */
  lemma MergedTasksView(system: seq<Json>, user: seq<Json>, services: P.Names)
    requires MergedTasks(system, user, services).Some?
    ensures TaskViews(system) != []
    ensures TaskViews(MergedTasks(system, user, services).value)
            == P.MergedTasks(TaskViews(system), TaskViews(user), services)
  {
    hide TaskView, P.MergedDag, P.OwnTasks, MergeAll, UuidsOf;
    var uuids := UuidsOf(user);
    var tasks := MergeAll(system, user, services, uuids).value;
    MergeAllView(system, user, services, uuids);
    NamesAreViews(user);
    assert TaskViews(user)[..|user|] == TaskViews(user);
    forall i | 0 <= i < |tasks| ensures TaskViews(CleanAll(tasks))[i] == P.CleanAll(TaskViews(tasks))[i] {
      CleanView(tasks[i]);
    }
    assert TaskViews(CleanAll(tasks)) == P.CleanAll(TaskViews(tasks));
  }

  // ----- what the merge leaves alone

  /** The tasks a user wrote, without the DAGs over them. */
  function OwnOf(user: seq<Json>): seq<Json> {
    if user == [] then []
    else OwnOf(user[..|user|-1]) + (if HasType(user[|user|-1], "DAG") then [] else [user[|user|-1]])
  }

  function ChildrenOf(own: seq<Json>): seq<Json> {
    seq(|own|, i requires 0 <= i < |own| => ChildOf(own[i]))
  }

  /** Two system DAGs that differ in children and edges only. */
  ghost predicate SameDag(a: Json, b: Json) {
    && (forall m | m != CHILDREN && m != "attrs" :: Get(a, m) == Get(b, m))
    && (forall m | m != EDGES :: Get(OrNull(Get(a, "attrs")), m) == Get(OrNull(Get(b, "attrs")), m))
    && OrNull(Get(a, "attrs")).Obj? == OrNull(Get(b, "attrs")).Obj? && TakesChild(a) == TakesChild(b)
  }

  /** The task list while user tasks are merged: the DAG, the other system tasks, the user's own tasks. */
  ghost predicate Shaped(tasks: seq<Json>, system: seq<Json>, own: seq<Json>, services: P.Names)
    requires system != []
  {
    && |tasks| == |system| + |own|
    && (forall i | 1 <= i < |system| :: tasks[i] == system[i])
    && (forall i | 0 <= i < |own| :: Placeable(own[i], services) && tasks[|system| + i] == Placed(own[i], services))
    && SameDag(tasks[0], system[0])
    && Elements(tasks[0], CHILDREN) == Elements(system[0], CHILDREN) + ChildrenOf(own)
  }

  lemma OwnShaped(tasks: seq<Json>, system: seq<Json>, own: seq<Json>, t: Json, services: P.Names)
    requires system != [] && Shaped(tasks, system, own, services) && TakesChild(tasks[0]) && Placeable(t, services)
    ensures Shaped([WithChild(tasks[0], t)] + tasks[1..] + [Placed(t, services)], system, own + [t], services)
  {
    ChildShape(tasks[0], t);
    SameDagTwice(WithChild(tasks[0], t), tasks[0], system[0]);
    hide Placeable, Placed, ChildOf, TakesChild, WithChild, SameDag;
    assert ChildrenOf(own + [t]) == ChildrenOf(own) + [ChildOf(t)];
  }

  lemma DagShaped(tasks: seq<Json>, system: seq<Json>, own: seq<Json>, t: Json, services: P.Names, uuids: Uuids)
    requires system != [] && Shaped(tasks, system, own, services) && TakesEdges(tasks[0]) && DagFits(t, uuids)
    ensures Shaped([WithEdges(tasks[0], t, uuids)] + tasks[1..], system, own, services)
  {
    EdgesShape(tasks[0], t, uuids);
    SameDagTwice(WithEdges(tasks[0], t, uuids), tasks[0], system[0]);
    hide Placeable, Placed, ChildrenOf, TakesEdges, WithEdges, SameDag;
  }

  lemma {:induction false} MergeShape(system: seq<Json>, user: seq<Json>, services: P.Names, uuids: Uuids)
    requires system != [] && MergeAll(system, user, services, uuids).Some?
    ensures Shaped(MergeAll(system, user, services, uuids).value, system, OwnOf(user), services)
  {
    if user == [] {
      assert Elements(system[0], CHILDREN) + ChildrenOf([]) == Elements(system[0], CHILDREN);
    } else {
      var n := |user| - 1;
      var before, t := MergeAll(system, user[..n], services, uuids).value, user[n];
      MergeShape(system, user[..n], services, uuids);
      hide Placeable, Placed, DagFits, TakesChild, TakesEdges, WithChild, WithEdges, Shaped;
      if !HasType(t, "DAG") {
        OwnShaped(before, system, OwnOf(user[..n]), t, services);
      } else {
        DagShaped(before, system, OwnOf(user[..n]), t, services, uuids);
        assert OwnOf(user[..n]) + [] == OwnOf(user[..n]);
      }
    }
  }

  lemma ChildShape(dag: Json, t: Json)
    requires TakesChild(dag)
    ensures SameDag(WithChild(dag, t), dag) && Elements(WithChild(dag, t), CHILDREN) == Elements(dag, CHILDREN)
            + [ChildOf(t)]
  {
    WithChildView(dag, t);
    assert CHILDREN != "attrs";
  }

  lemma EdgesShape(dag: Json, t: Json, uuids: Uuids)
    requires TakesEdges(dag) && DagFits(t, uuids)
    ensures SameDag(WithEdges(dag, t, uuids), dag)
            && Elements(WithEdges(dag, t, uuids), CHILDREN) == Elements(dag, CHILDREN)
  {
    WithEdgesView(dag, t, uuids);
    assert CHILDREN != "attrs" && Get(WithEdges(dag, t, uuids), CHILDREN) == Get(dag, CHILDREN);
  }

  lemma SameDagTwice(a: Json, b: Json, c: Json)
    requires SameDag(a, b) && SameDag(b, c)
    ensures SameDag(a, c)
  {
    hide TakesChild;
  }

  /** Two objects agree on all members but the excepted ones. */
  ghost predicate SameExcept(a: Json, b: Json, except: set<string>) {
    forall m | m !in except :: Get(a, m) == Get(b, m)
  }

  lemma CleanKeeps(t: Json, original: Json, except: set<string>)
    requires SameExcept(t, original, except)
    ensures SameExcept(Clean(t), original, except + {"state", "message_list"})
  {
    CleanView(t);
  }

  lemma PlacedKeeps(t: Json, services: P.Names)
    requires Placeable(t, services)
    ensures SameExcept(Clean(Placed(t, services)), t, {TARGET, "state", "message_list"})
    ensures SameExcept(OrNull(Get(Clean(Placed(t, services)), TARGET)), OrNull(Get(t, TARGET)), {"uuid"})
  {
    PlacedView(t, services);
    PlacedTarget(t, services);
    CleanView(Placed(t, services));
    CleanKeeps(Placed(t, services), t, {TARGET});
    assert TARGET != "state" && TARGET != "message_list";
    assert {TARGET} + {"state", "message_list"} == {TARGET, "state", "message_list"};
  }

  lemma DagKeeps(dag: Json, system: Json)
    requires SameDag(dag, system)
    ensures SameExcept(Clean(dag), system, {CHILDREN, "attrs", "state", "message_list"})
    ensures SameExcept(OrNull(Get(Clean(dag), "attrs")), OrNull(Get(system, "attrs")), {EDGES})
    ensures Elements(Clean(dag), CHILDREN) == Elements(dag, CHILDREN)
  {
    CleanView(dag);
    CleanKeeps(dag, system, {CHILDREN, "attrs"});
    assert CHILDREN != "state" && CHILDREN != "message_list" && "attrs" != "state" && "attrs" != "message_list";
    assert {CHILDREN, "attrs"} + {"state", "message_list"} == {CHILDREN, "attrs", "state", "message_list"};
  }

  /**
   Nothing but what the merge is for changes: system tasks and the user's own tasks keep all members
   but `state`, `message_list` and the uuid of their target, in order, and the system DAG all but its
   edges and its children, which grow by the user's own tasks.
   */
  lemma MergedMembers(system: seq<Json>, user: seq<Json>, services: P.Names)
    requires MergedTasks(system, user, services).Some?
    ensures var merged, own := MergedTasks(system, user, services).value, OwnOf(user);
      && |merged| == |system| + |own|
      && (forall i | 1 <= i < |system| :: SameExcept(merged[i], system[i], {"state", "message_list"}))
      && (forall i | 0 <= i < |own| ::
            && SameExcept(merged[|system| + i], own[i], {TARGET, "state", "message_list"})
            && SameExcept(OrNull(Get(merged[|system| + i], TARGET)), OrNull(Get(own[i], TARGET)), {"uuid"}))
      && SameExcept(merged[0], system[0], {CHILDREN, "attrs", "state", "message_list"})
      && SameExcept(OrNull(Get(merged[0], "attrs")), OrNull(Get(system[0], "attrs")), {EDGES})
      && Elements(merged[0], CHILDREN) == Elements(system[0], CHILDREN) + ChildrenOf(own)
  {
    var own := OwnOf(user);
    MergeShape(system, user, services, UuidsOf(user));
    var tasks := MergeAll(system, user, services, UuidsOf(user)).value;
    DagKeeps(tasks[0], system[0]);
    assert MergedTasks(system, user, services).value == CleanAll(tasks);
    OwnKept(tasks, system, own, services);
    SystemKept(tasks, system, own, services);
    hide Placed, Placeable, Clean, MergeAll, MergedTasks, OwnOf, SameExcept, SameDag, Elements, ChildrenOf, UuidsOf,
         Get;
  }

  lemma OwnKept(tasks: seq<Json>, system: seq<Json>, own: seq<Json>, services: P.Names)
    requires system != [] && Shaped(tasks, system, own, services)
    ensures forall i | 0 <= i < |own| ::
              && SameExcept(Clean(tasks[|system| + i]), own[i], {TARGET, "state", "message_list"})
              && SameExcept(OrNull(Get(Clean(tasks[|system| + i]), TARGET)), OrNull(Get(own[i], TARGET)), {"uuid"})
  {
    hide Placed, Placeable, Clean, SameExcept, SameDag, Elements, ChildrenOf, Get;
    forall i | 0 <= i < |own|
      ensures SameExcept(Clean(tasks[|system| + i]), own[i], {TARGET, "state", "message_list"})
      ensures SameExcept(OrNull(Get(Clean(tasks[|system| + i]), TARGET)), OrNull(Get(own[i], TARGET)), {"uuid"})
    {
      PlacedKeeps(own[i], services);
    }
  }

  lemma SystemKept(tasks: seq<Json>, system: seq<Json>, own: seq<Json>, services: P.Names)
    requires system != [] && Shaped(tasks, system, own, services)
    ensures forall i | 1 <= i < |system| :: SameExcept(Clean(tasks[i]), system[i], {"state", "message_list"})
  {
    hide Placed, Placeable, Clean, SameExcept, SameDag, Elements, ChildrenOf;
    forall i | 1 <= i < |system| ensures SameExcept(Clean(tasks[i]), system[i], {"state", "message_list"}) {
      Unchanged(system[i]);
    }
  }

  lemma Unchanged(t: Json)
    ensures SameExcept(Clean(t), t, {"state", "message_list"})
  {
    CleanKeeps(t, t, {});
    assert {} + {"state", "message_list"} == {"state", "message_list"};
  }

  lemma PlacedTarget(t: Json, services: P.Names)
    requires Placeable(t, services)
    ensures forall m | m != "uuid" :: Get(OrNull(Get(Placed(t, services), TARGET)), m) == Get(OrNull(Get(t, TARGET)), m)
  {
    if Get(t, TARGET).Some? {
      var target := Get(t, TARGET).value;
      var uuid := Str(services[Text(target, "name")]);
      forall m | m != "uuid" ensures Get(With(target, "uuid", uuid), m) == Get(target, m) {
        OtherMembers(target, "uuid", Some(uuid), m);
      }
      assert Get(Placed(t, services), TARGET) == Some(With(target, "uuid", uuid));
    }
  }

  // ----- when the merge of one config ends without an error

  /** What the merge needs of the system DAG and the user task at index `i`. */
  predicate TurnFits(dag: Json, user: seq<Json>, i: nat, services: P.Names, uuids: Uuids)
    requires i < |user|
  {
    && Placeable(user[i], services) && Get(user[i], "type").Some?
    && (if !HasType(user[i], "DAG") then TakesChild(dag)
        else
          && DagFits(user[i], uuids) && OrNull(Get(dag, "attrs")).Obj?
          && (if Elements(dag, CHILDREN) != [] then Get(Elements(dag, CHILDREN)[0], "uuid").Some?
              else exists k | 0 <= k < i :: !HasType(user[k], "DAG")))
  }

  predicate UserFits(dag: Json, user: seq<Json>, services: P.Names, uuids: Uuids) {
    forall i | 0 <= i < |user| :: TurnFits(dag, user, i, services, uuids)
  }

  lemma {:induction false} OwnOfFirst(user: seq<Json>)
    ensures OwnOf(user) != [] <==> exists k | 0 <= k < |user| :: !HasType(user[k], "DAG")
  {
    if user != [] {
      var n := |user| - 1;
      OwnOfFirst(user[..n]);
      if k :| 0 <= k < n && !HasType(user[..n][k], "DAG") {
        assert !HasType(user[k], "DAG");
      }
    }
  }

  lemma LastTurnFits(system: seq<Json>, user: seq<Json>, services: P.Names, uuids: Uuids)
    requires system != [] && user != [] && MergeAll(system, user[..|user|-1], services, uuids).Some?
    ensures var n := |user| - 1;
      var before := MergeAll(system, user[..n], services, uuids).value;
      MergeTask(before, user[n], services, uuids).Some? <==> TurnFits(system[0], user, n, services, uuids)
  {
    var n := |user| - 1;
    var before := MergeAll(system, user[..n], services, uuids).value;
    var own := OwnOf(user[..n]);
    MergeShape(system, user[..n], services, uuids);
    OwnBefore(user, n);
    TakesEdgesWhen(before[0], system[0], own);
    TurnPasses(before, user[n], services, uuids);
    assert TakesChild(before[0]) == TakesChild(system[0]);
    hide MergeAll, MergeTask, Placeable, DagFits, OwnOf, TakesEdges, TakesChild, HasType, Elements, Shaped, ChildrenOf,
         Get, SameDag;
  }

  lemma OwnBefore(user: seq<Json>, n: nat)
    requires n < |user|
    ensures OwnOf(user[..n]) != [] <==> exists k | 0 <= k < n :: !HasType(user[k], "DAG")
  {
    hide OwnOf, HasType;
    OwnOfFirst(user[..n]);
    assert forall k | 0 <= k < n :: user[..n][k] == user[k];
  }

  lemma TurnPasses(tasks: seq<Json>, t: Json, services: P.Names, uuids: Uuids)
    requires tasks != []
    ensures MergeTask(tasks, t, services, uuids).Some? <==>
      && Placeable(t, services) && Get(t, "type").Some?
      && (if HasType(t, "DAG") then TakesEdges(tasks[0]) && DagFits(t, uuids) else TakesChild(tasks[0]))
  {
    hide Placeable, DagFits, TakesEdges, TakesChild, HasType;
  }

  lemma TakesEdgesWhen(dag: Json, system: Json, own: seq<Json>)
    requires SameDag(dag, system) && Elements(dag, CHILDREN) == Elements(system, CHILDREN) + ChildrenOf(own)
    ensures TakesEdges(dag) <==>
      && OrNull(Get(system, "attrs")).Obj?
      && (if Elements(system, CHILDREN) != [] then Get(Elements(system, CHILDREN)[0], "uuid").Some? else own != [])
  {
    hide Elements, TakesChild;
    if Elements(system, CHILDREN) == [] && own != [] {
      assert Elements(dag, CHILDREN)[0] == ChildOf(own[0]);
    }
  }

  /** The loop over user tasks ends without an error exactly when each task fits. */
  lemma {:induction false} MergeAllExactly(system: seq<Json>, user: seq<Json>, services: P.Names, uuids: Uuids)
    requires system != []
    ensures MergeAll(system, user, services, uuids).Some? <==> UserFits(system[0], user, services, uuids)
  {
    if user != [] {
      var n := |user| - 1;
      MergeAllExactly(system, user[..n], services, uuids);
      FitsEarlier(system[0], user, services, uuids);
      hide TurnFits, MergeTask;
      if MergeAll(system, user[..n], services, uuids).Some? {
        LastTurnFits(system, user, services, uuids);
      }
    }
  }

  lemma FitsEarlier(dag: Json, user: seq<Json>, services: P.Names, uuids: Uuids)
    requires user != []
    ensures UserFits(dag, user, services, uuids)
       <==> UserFits(dag, user[..|user|-1], services, uuids) && TurnFits(dag, user, |user| - 1, services, uuids)
  {
    hide Placeable, DagFits, TakesChild, HasType;
    var n := |user| - 1;
    forall i | 0 <= i < n
      ensures TurnFits(dag, user[..n], i, services, uuids) == TurnFits(dag, user, i, services, uuids)
    {
      assert user[..n][i] == user[i];
      assert (exists k | 0 <= k < i :: !HasType(user[..n][k], "DAG"))
          <==> exists k | 0 <= k < i :: !HasType(user[k], "DAG");
    }
    hide TurnFits;
  }

  /** What the merge of one reported runbook needs. */
  predicate MergeFits(system: seq<Json>, user: seq<Json>, services: P.Names) {
    system != [] && AllObjects(system) && UserFits(system[0], user, services, UuidsOf(user))
  }

  lemma MergedTasksExactly(system: seq<Json>, user: seq<Json>, services: P.Names)
    ensures MergedTasks(system, user, services).Some? <==> MergeFits(system, user, services)
  {
    if system != [] {
      MergeAllExactly(system, user, services, UuidsOf(user));
    }
  }

  /** Then the typed merge is defined, and knows all services. */
  lemma FittingIsMergeable(system: seq<Json>, user: seq<Json>, services: P.Names)
    requires MergeFits(system, user, services)
    ensures P.Rooted(TaskViews(system), TaskViews(user)) && P.Closed(TaskViews(user))
            && P.ServicesKnown(TaskViews(user), services)
  {
    var s, u, names := TaskViews(system), TaskViews(user), P.NamesOf(TaskViews(user));
    NamesAreViews(user);
    hide TaskView, UuidsOf, P.NamesOf;
    forall i | 0 <= i < |u| ensures !P.Unplaced(u[i], services) {
      assert TurnFits(system[0], user, i, services, UuidsOf(user));
      PlaceableView(user[i], services);
    }
    forall i | 0 <= i < |u| && P.IsDag(u[i]) ensures P.ClosedDag(u[i], names) {
      DagIsDag(user[i]);
      assert TurnFits(system[0], user, i, services, UuidsOf(user));
      DagFitsView(user[i], UuidsOf(user));
    }
    forall i | 0 <= i < |u| && P.IsDag(u[i]) ensures s[0].children != [] || exists k | 0 <= k < i :: !P.IsDag(u[k]) {
      DagIsDag(user[i]);
      assert TurnFits(system[0], user, i, services, UuidsOf(user));
      if Elements(system[0], CHILDREN) != [] {
        FirstChildView(system[0]);
      } else {
        var k :| 0 <= k < i && !HasType(user[k], "DAG");
        DagIsDag(user[k]);
        assert !P.IsDag(u[k]);
      }
    }
  }

  lemma DagFitsView(t: Json, uuids: Uuids)
    requires DagFits(t, uuids)
    ensures P.ClosedDag(TaskView(t), NamesView(uuids))
  {
    var edges := Elements(OrNull(Get(t, "attrs")), EDGES);
    FirstChildName(t);
    EdgesOfView(t, edges);
    NamedTask(Elements(t, CHILDREN)[0], uuids);
    hide TaskView, Text, Elements, Get;
    forall e | e in TaskView(t).edges
      ensures e.from.name.Some? && e.from.name.value in NamesView(uuids) && e.to.name.Some?
              && e.to.name.value in NamesView(uuids)
    {
      var i :| 0 <= i < |edges| && e == EdgeView(edges[i]);
      NamedEdge(edges[i], uuids);
    }
  }

  lemma NamedTask(child: Json, uuids: Uuids)
    requires Pointable(child, uuids)
    ensures Text(child, "name") in NamesView(uuids)
  {
  }

  lemma NamedEdge(e: Json, uuids: Uuids)
    requires EdgeFits(e, uuids)
    ensures var v := EdgeView(e);
      v.from.name.Some? && v.from.name.value in NamesView(uuids) && v.to.name.Some?
          && v.to.name.value in NamesView(uuids)
  {
  }

  // ----- configs and profiles

  type UserTasks = map<string, seq<Json>>

  function ConfigTaskViews(m: UserTasks): map<string, seq<P.Task>> {
    map n | n in m :: TaskViews(m[n])
  }

  function ProfileTaskViews(m: map<string, UserTasks>): P.ProfileTasks {
    map n | n in m :: ConfigTaskViews(m[n])
  }

  predicate HasTaskList(runbook: Json) {
    Get(runbook, TASKS.key).Some? && Get(runbook, TASKS.key).value.Arr?
  }

  /** One reported config; without a runbook it stays as it is. */
  function MergedConfig(c: Json, user: UserTasks, services: P.Names): Option<Json> {
    var runbook, name := OrNull(Get(c, "runbook")), Text(c, "name");
    if !c.Obj? then None
    else if !Truthy(runbook) then Some(c)
    else if !runbook.Obj? || !HasTaskList(runbook) || name !in user then None
    else
      match MergedTasks(Elements(runbook, TASKS.key), user[name], services)
      case None => None
      case Some(tasks) => Some(With(c, "runbook", With(Clean(runbook), TASKS.key, Arr(tasks))))
  }

  function MergedConfigs(configs: seq<Json>, user: UserTasks, services: P.Names): (merged: Option<seq<Json>>)
    ensures merged.Some? ==> |merged.value| == |configs|
  {
    if configs == [] then Some([])
    else
      var n := |configs| - 1;
      match (MergedConfigs(configs[..n], user, services), MergedConfig(configs[n], user, services))
      case (Some(before), Some(last)) => Some(before + [last])
      case _ => None
  }

  function UserTasksOf(name: string, tasks: map<string, UserTasks>): UserTasks {
    if name in tasks then tasks[name] else map[]
  }

  predicate AllTasksNamed(user: UserTasks) {
    forall n | n in user :: AllNamed(user[n])
  }

  function MergedProfile(p: Json, tasks: map<string, UserTasks>, services: P.Names): Option<Json> {
    var user := UserTasksOf(Text(p, "name"), tasks);
    if Get(p, "name").None? || !AllTasksNamed(user) || !Iterable(Get(p, "patch_list")) then None
    else if Elements(p, "patch_list") == [] then Some(p)
    else
      match MergedConfigs(Elements(p, "patch_list"), user, services)
      case None => None
      case Some(configs) => Some(With(p, "patch_list", Arr(configs)))
  }

  /** The loops of `add_patch_config_tasks` over the profiles the server reported. */
  function MergedProfiles(profiles: seq<Json>, tasks: map<string, UserTasks>,
                          services: P.Names): (merged: Option<seq<Json>>)
    ensures merged.Some? ==> |merged.value| == |profiles|
  {
    if profiles == [] then Some([])
    else
      var n := |profiles| - 1;
      match (MergedProfiles(profiles[..n], tasks, services), MergedProfile(profiles[n], tasks, services))
      case (Some(before), Some(last)) => Some(before + [last])
      case _ => None
  }

  lemma RunbookViewOf(runbook: Json, tasks: seq<Json>)
    requires runbook.Obj?
    ensures RunbookView(With(Clean(runbook), TASKS.key, Arr(tasks))) == P.Runbook(TaskViews(tasks), None, None)
  {
    hide TaskViews;
    var clean := Clean(runbook);
    OtherMembers(clean, TASKS.key, Some(Arr(tasks)), "state");
    OtherMembers(clean, TASKS.key, Some(Arr(tasks)), "message_list");
    OtherMembers(Without(runbook, "state"), "message_list", None, "state");
  }

  /** One merged config, seen as tasks. */
  lemma MergedConfigView(c: Json, profile: string, tasks: map<string, UserTasks>, services: P.Names)
    requires MergedConfig(c, UserTasksOf(profile, tasks), services).Some?
    ensures P.Mergeable(ConfigView(c), profile, ProfileTaskViews(tasks))
    ensures ConfigView(MergedConfig(c, UserTasksOf(profile, tasks), services).value)
         == P.MergedConfig(ConfigView(c), profile, ProfileTaskViews(tasks), services)
  {
    var runbook, name := OrNull(Get(c, "runbook")), Text(c, "name");
    if Truthy(runbook) {
      var user := UserTasksOf(profile, tasks);
      var system, now := Elements(runbook, TASKS.key),
            MergedTasks(Elements(runbook, TASKS.key), user[name], services).value;
      var after := With(Clean(runbook), TASKS.key, Arr(now));
      assert MergedConfig(c, user, services) == Some(With(c, "runbook", after));
      assert TASKS.key in after.fields;
      ConfigWith(c, after);
      MergedTasksExactly(system, user[name], services);
      FittingIsMergeable(system, user[name], services);
      MergedTasksView(system, user[name], services);
      RunbookViewOf(runbook, now);
      hide MergedTasks, MergedConfig, MergeFits, P.Rooted, P.Closed, P.MergedTasks, TaskViews, Clean, With;
      assert P.UserTasks(ProfileTaskViews(tasks), profile, name) == Some(TaskViews(user[name]));
      assert RunbookView(runbook).tasks == TaskViews(system);
    }
  }

  lemma ConfigWith(c: Json, runbook: Json)
    requires c.Obj? && Truthy(runbook)
    ensures ConfigView(With(c, "runbook", runbook)) == ConfigView(c).(runbook := Some(RunbookView(runbook)))
  {
    hide RunbookView;
    OtherMembers(c, "runbook", Some(runbook), "name");
    assert Get(With(c, "runbook", runbook), "runbook") == Some(runbook);
  }

  lemma {:induction false} MergedConfigAt(configs: seq<Json>, user: UserTasks, services: P.Names, i: nat)
    requires MergedConfigs(configs, user, services).Some? && i < |configs|
    ensures MergedConfig(configs[i], user, services) == Some(MergedConfigs(configs, user, services).value[i])
  {
    hide MergedConfig;
    if i < |configs| - 1 {
      MergedConfigAt(configs[..|configs|-1], user, services, i);
    }
  }

  lemma {:induction false} MergedProfileAt(profiles: seq<Json>, tasks: map<string, UserTasks>, services: P.Names,
                                           i: nat)
    requires MergedProfiles(profiles, tasks, services).Some? && i < |profiles|
    ensures MergedProfile(profiles[i], tasks, services) == Some(MergedProfiles(profiles, tasks, services).value[i])
  {
    hide MergedProfile;
    if i < |profiles| - 1 {
      MergedProfileAt(profiles[..|profiles|-1], tasks, services, i);
    }
  }

  /** A config of a merged profile is the merged config at its position. */
  lemma ConfigOfProfile(p: Json, tasks: map<string, UserTasks>, services: P.Names, k: nat)
    requires MergedProfile(p, tasks, services).Some? && k < |Elements(p, "patch_list")|
    ensures var merged := MergedProfile(p, tasks, services).value;
      && |Elements(merged, "patch_list")| == |Elements(p, "patch_list")|
      && MergedConfig(Elements(p, "patch_list")[k], UserTasksOf(Text(p, "name"), tasks), services)
          == Some(Elements(merged, "patch_list")[k])
  {
    hide MergedConfig;
    MergedConfigAt(Elements(p, "patch_list"), UserTasksOf(Text(p, "name"), tasks), services, k);
  }

  // ----- the loops, in place

  /** The loop over the edges of a DAG the user wrote. */
  method PointEdges(edges: seq<Json>, uuids: Uuids) returns (pointed: Option<seq<Json>>)
    ensures pointed.Some? <==> forall i | 0 <= i < |edges| :: EdgeFits(edges[i], uuids)
    ensures pointed.Some? ==> pointed.value == PointAll(edges, uuids)
  {
    var list := edges;
    var i := 0;
    while i < |edges|
      invariant i <= |edges| && |list| == |edges|
      invariant forall k | 0 <= k < i :: EdgeFits(edges[k], uuids) && list[k] == PointEdge(edges[k], uuids)
      invariant forall k | i <= k < |edges| :: list[k] == edges[k]
    {
      var edge := list[i];
      var from := OrNull(Get(edge, FROM));
      if !Pointable(from, uuids) {
        return None;
      }
      edge := With(edge, FROM, With(from, "uuid", uuids[Text(from, "name")]));
      OtherMembers(list[i], FROM, Some(With(from, "uuid", uuids[Text(from, "name")])), TO);
      var to := OrNull(Get(edge, TO));
      if !Pointable(to, uuids) {
        return None;
      }
      edge := With(edge, TO, With(to, "uuid", uuids[Text(to, "name")]));
      list := list[i := edge];
      i := i + 1;
    }
    assert list == PointAll(edges, uuids);
    return Some(list);
  }

  method NameTasks(tasks: seq<Json>) returns (uuids: Option<Uuids>)
    ensures uuids.Some? <==> AllNamed(tasks)
    ensures uuids.Some? ==> uuids.value == UuidsOf(tasks)
  {
    var names: Uuids := map[];
    var i := 0;
    while i < |tasks|
      invariant i <= |tasks| && names == UuidsOf(tasks[..i])
      invariant AllNamed(tasks[..i])
    {
      assert tasks[i] in tasks && tasks[..i+1][..i] == tasks[..i];
      if !IsText(tasks[i], "name") || Get(tasks[i], "uuid").None? {
        return None;
      }
      names := names[Text(tasks[i], "name") := OrNull(Get(tasks[i], "uuid"))];
      i := i + 1;
    }
    assert tasks[..i] == tasks;
    return Some(names);
  }

  /** The body of the loop over reported configs, for a config that has a runbook. */
  method MergeUserTasks(system: seq<Json>, user: seq<Json>, services: P.Names, uuids: Uuids)
    returns (merged: Option<seq<Json>>)
    requires system != []
    ensures merged == MergeAll(system, user, services, uuids)
  {
    hide DagFits, PointEdge, EdgeFits;
    var tasks := system;
    var i := 0;
    while i < |user|
      invariant i <= |user| && tasks != []
      invariant MergeAll(system, user[..i], services, uuids) == Some(tasks)
    {
      var task := user[i];
      assert user[..i+1][..i] == user[..i];
      NoneStays(system, user, i, services, uuids);
      var turn := MergeOne(tasks, task, services, uuids);
      if turn.None? {
        return None;
      }
      tasks := turn.value;
      i := i + 1;
    }
    assert user[..i] == user;
    return Some(tasks);
  }

  /** Once a turn fails, so does the whole loop. */
  lemma {:induction false} NoneStays(system: seq<Json>, user: seq<Json>, i: nat, services: P.Names, uuids: Uuids)
    requires system != [] && i < |user|
    ensures MergeAll(system, user[..i+1], services, uuids).None? ==> MergeAll(system, user, services, uuids).None?
  {
    hide MergeTask;
    var n := |user| - 1;
    if i < n {
      assert user[..n][..i+1] == user[..i+1];
      NoneStays(system, user[..n], i, services, uuids);
    } else {
      assert user[..i+1] == user;
    }
  }

  /** The service of a task, or None when it is missing. */
  method PlaceTask(custom: Json, services: P.Names) returns (task: Option<Json>)
    ensures task == if Placeable(custom, services) then Some(Placed(custom, services)) else None
  {
    var target := Get(custom, TARGET);
    if target.None? {
      return Some(custom);
    }
    if !IsText(target.value, "name") {
      return None;
    }
    var service := Text(target.value, "name");
    if service !in services || services[service] == "" {
      return None;
    }
    task := Some(With(custom, TARGET, With(target.value, "uuid", Str(services[service]))));
  }

  /** One turn, step by step. */
  method MergeOne(tasks: seq<Json>, custom: Json, services: P.Names, uuids: Uuids) returns (merged: Option<seq<Json>>)
    requires tasks != []
    ensures merged == MergeTask(tasks, custom, services, uuids)
  {
    hide Placeable, Placed, DagFits, WithEdges, TakesEdges, HasType, ChildOf;
    var placed := PlaceTask(custom, services);
    if placed.None? {
      return None;
    }
    var task, list := placed.value, tasks;
    PlacedView(custom, services);
    SameReads(custom, task);
    if Get(task, "type").None? {
      return None;
    }
    if HasType(task, "DAG") {
      merged := MergeDag(list, custom, uuids);
      return;
    }
    list := list + [task];
    var children := Get(list[0], CHILDREN);
    if children.None? || !children.value.Arr? {
      return None;
    }
    list := list[0 := With(list[0], CHILDREN, Arr(children.value.items + [ChildOf(task)]))];
    assert list == [WithChild(tasks[0], custom)] + tasks[1..] + [task];
    hide With, TaskView;
    merged := Some(list);
  }

  /** What the merge reads of a task is the same after its target was set. */
  lemma SameReads(custom: Json, task: Json)
    requires forall m | m != TARGET :: Get(task, m) == Get(custom, m)
    ensures Get(task, "type") == Get(custom, "type") && ChildOf(task) == ChildOf(custom)
    ensures HasType(task, "DAG") == HasType(custom, "DAG")
  {
    assert TARGET != "type" && TARGET != "name" && TARGET != "uuid";
  }

  /** A DAG the user wrote gives the system DAG its edges. */
  method MergeDag(tasks: seq<Json>, t: Json, uuids: Uuids) returns (merged: Option<seq<Json>>)
    requires tasks != []
    ensures merged == if TakesEdges(tasks[0]) && DagFits(t, uuids)
            then Some([WithEdges(tasks[0], t, uuids)] + tasks[1..]) else None
  {
    hide EdgeFits, Pointable;
    if !TakesEdges(tasks[0]) {
      return None;
    }
    var first := OrNull(Get(Elements(tasks[0], CHILDREN)[0], "uuid"));
    var named, edges := Elements(t, CHILDREN), Get(OrNull(Get(t, "attrs")), EDGES);
    if named == [] || !Pointable(named[0], uuids) || edges.None? || !edges.value.Arr? {
      return None;
    }
    var pointed := PointEdges(edges.value.items, uuids);
    if pointed.None? {
      return None;
    }
    FirstIsNamed(named[0], uuids);
    var all := [FirstEdge(first, Text(named[0], "name"), uuids)] + pointed.value;
    var list := tasks[0 := With(tasks[0], "attrs", With(OrNull(Get(tasks[0], "attrs")), EDGES, Arr(all)))];
    assert list == [WithEdges(tasks[0], t, uuids)] + tasks[1..];
    merged := Some(list);
  }

  lemma FirstIsNamed(child: Json, uuids: Uuids)
    requires Pointable(child, uuids)
    ensures Text(child, "name") in uuids
  {
  }

  /** The last loop over the tasks of one runbook. */
  method CleanTasks(tasks: seq<Json>) returns (cleaned: seq<Json>)
    ensures cleaned == CleanAll(tasks)
  {
    cleaned := tasks;
    var i := 0;
    while i < |tasks|
      invariant i <= |tasks| && |cleaned| == |tasks|
      invariant forall k | 0 <= k < i :: cleaned[k] == Clean(tasks[k])
      invariant forall k | i <= k < |tasks| :: cleaned[k] == tasks[k]
    {
      cleaned := cleaned[i := Without(cleaned[i], "state")];
      cleaned := cleaned[i := Without(cleaned[i], "message_list")];
      i := i + 1;
    }
  }

  method MergeConfig(c: Json, user: UserTasks, services: P.Names) returns (merged: Option<Json>)
    ensures merged == MergedConfig(c, user, services)
  {
    if !c.Obj? {
      return None;
    }
    var runbook := OrNull(Get(c, "runbook"));
    if !Truthy(runbook) {
      return Some(c);
    }
    if !runbook.Obj? || !HasTaskList(runbook) || Text(c, "name") !in user {
      return None;
    }
    var system := Elements(runbook, TASKS.key);
    if system == [] || !AllObjects(system) {
      return None;
    }
    var own := user[Text(c, "name")];
    var tasks := MergeUserTasks(system, own, services, UuidsOf(own));
    if tasks.None? {
      return None;
    }
    var cleaned := CleanTasks(tasks.value);
    runbook := Without(runbook, "state");
    runbook := Without(runbook, "message_list");
    merged := Some(With(c, "runbook", With(runbook, TASKS.key, Arr(cleaned))));
  }

  method MergeConfigs(configs: seq<Json>, user: UserTasks, services: P.Names) returns (merged: Option<seq<Json>>)
    ensures merged == MergedConfigs(configs, user, services)
  {
    hide MergedConfig;
    var list := configs;
    var i := 0;
    while i < |configs|
      invariant i <= |configs| && |list| == |configs|
      invariant MergedConfigs(configs[..i], user, services) == Some(list[..i])
      invariant forall k | i <= k < |configs| :: list[k] == configs[k]
    {
      assert configs[..i+1][..i] == configs[..i];
      ConfigsFail(configs, i, user, services);
      var config := MergeConfig(list[i], user, services);
      if config.None? {
        return None;
      }
      list := list[i := config.value];
      assert list[..i+1] == list[..i] + [config.value];
      i := i + 1;
    }
    assert configs[..i] == configs && list[..i] == list;
    return Some(list);
  }

  lemma {:induction false} ConfigsFail(configs: seq<Json>, i: nat, user: UserTasks, services: P.Names)
    requires i < |configs|
    ensures MergedConfig(configs[i], user, services).None? ==> MergedConfigs(configs, user, services).None?
  {
    hide MergedConfig;
    if i < |configs| - 1 {
      ConfigsFail(configs[..|configs|-1], i, user, services);
    }
  }

  lemma {:induction false} ProfilesFail(profiles: seq<Json>, i: nat, tasks: map<string, UserTasks>, services: P.Names)
    requires i < |profiles|
    ensures MergedProfile(profiles[i], tasks, services).None? ==> MergedProfiles(profiles, tasks, services).None?
  {
    hide MergedProfile;
    if i < |profiles| - 1 {
      ProfilesFail(profiles[..|profiles|-1], i, tasks, services);
    }
  }

  method MergeProfile(p: Json, tasks: map<string, UserTasks>, services: P.Names) returns (merged: Option<Json>)
    ensures merged == MergedProfile(p, tasks, services)
  {
    var user := UserTasksOf(Text(p, "name"), tasks);
    if Get(p, "name").None? || !AllTasksNamed(user) || !Iterable(Get(p, "patch_list")) {
      return None;
    }
    if Elements(p, "patch_list") == [] {
      return Some(p);
    }
    var configs := MergeConfigs(Elements(p, "patch_list"), user, services);
    if configs.None? {
      return None;
    }
    merged := Some(With(p, "patch_list", Arr(configs.value)));
  }

  /** `add_patch_config_tasks`, up to the attachment. */
  method MergeProfiles(profiles: seq<Json>, tasks: map<string, UserTasks>, services: P.Names)
    returns (merged: Option<seq<Json>>)
    ensures merged == MergedProfiles(profiles, tasks, services)
  {
    hide MergedProfile;
    var list := profiles;
    var i := 0;
    while i < |profiles|
      invariant i <= |profiles| && |list| == |profiles|
      invariant MergedProfiles(profiles[..i], tasks, services) == Some(list[..i])
      invariant forall k | i <= k < |profiles| :: list[k] == profiles[k]
    {
      assert profiles[..i+1][..i] == profiles[..i];
      ProfilesFail(profiles, i, tasks, services);
      var profile := MergeProfile(list[i], tasks, services);
      if profile.None? {
        return None;
      }
      list := list[i := profile.value];
      assert list[..i+1] == list[..i] + [profile.value];
      i := i + 1;
    }
    assert profiles[..i] == profiles && list[..i] == list;
    return Some(list);
  }
}
