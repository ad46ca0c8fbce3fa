/**
 What the merge of one reported runbook leaves in the JSON, member by member: whose uuid each task, child
 and edge carries. Nothing here goes through the functions the merge is made of.
 */
module MergeResult {
  import opened Options
  import opened JsonTree
  import opened SecretWalk
  import opened ConfigMerge
  import P = PatchConfigs

  // ----- the user's own tasks, in order

  predicate IsOwn(t: Json) {
    Get(t, "type") != Some(Str("DAG"))
  }

  /** The places of all tasks that are no DAG, in order. */
  ghost predicate OwnPlaces(user: seq<Json>, at: seq<nat>) {
    && (forall i | 0 <= i < |at| :: at[i] < |user| && IsOwn(user[at[i]]))
    && (forall i, k | 0 <= i < k < |at| :: at[i] < at[k])
    && (forall n: nat | n < |user| && IsOwn(user[n]) :: n in at)
  }

  lemma {:induction false} OwnOfPlaces(user: seq<Json>) returns (at: seq<nat>)
    ensures OwnPlaces(user, at) && |at| == |OwnOf(user)| && forall i | 0 <= i < |at| :: OwnOf(user)[i] == user[at[i]]
  {
    if user == [] {
      at := [];
    } else {
      var n := |user| - 1;
      var before := OwnOfPlaces(user[..n]);
      at := if IsOwn(user[n]) then before + [n] else before;
      PlacesGrow(user, before);
    }
  }

  lemma PlacesGrow(user: seq<Json>, before: seq<nat>)
    requires user != [] && OwnPlaces(user[..|user|-1], before)
    ensures OwnPlaces(user, if IsOwn(user[|user|-1]) then before + [|user| - 1] else before)
  {
    hide IsOwn;
    var n := |user| - 1;
    var at := if IsOwn(user[n]) then before + [n] else before;
    forall m: nat | m < |user| && IsOwn(user[m]) ensures m in at {
      if m < n {
        assert IsOwn(user[..n][m]);
        assert m in before;
      }
    }
  }

  // ----- one task

  /** Only the target's uuid is set, to that of the service of the target's name, and server additions are gone. */
  ghost predicate OwnMerged(m: Json, t: Json, services: P.Names) {
    var target := Get(t, "target_any_local_reference");
    && SameExcept(m, t, {"target_any_local_reference", "state", "message_list"})
    && Get(m, "state") == None && Get(m, "message_list") == None
    && (target.None? ==> Get(m, "target_any_local_reference") == None)
    && (target.Some? ==>
          && Get(target.value, "name").Some? && Get(target.value, "name").value.Str?
          && Get(target.value, "name").value.s in services
          && Get(m, "target_any_local_reference").Some?
          && SameExcept(Get(m, "target_any_local_reference").value, target.value, {"uuid"})
          && Get(Get(m, "target_any_local_reference").value, "uuid")
              == Some(Str(services[Get(target.value, "name").value.s])))
  }

  lemma CleanRemoves(t: Json)
    ensures Get(Clean(t), "state") == None && Get(Clean(t), "message_list") == None
    ensures forall k | k != "state" && k != "message_list" :: Get(Clean(t), k) == Get(t, k)
  {
  }

  lemma PlacedIs(t: Json, services: P.Names)
    requires Placeable(t, services) && t.Obj?
    ensures OwnMerged(Clean(Placed(t, services)), t, services)
  {
    var placed := Placed(t, services);
    CleanRemoves(placed);
    assert TARGET == "target_any_local_reference";
    if Get(t, TARGET).Some? {
      var target := Get(t, TARGET).value;
      var now := With(target, "uuid", Str(services[Text(target, "name")]));
      assert Get(placed, TARGET) == Some(now);
      assert Get(now, "uuid") == Some(Str(services[Text(target, "name")]));
    }
  }

  // ----- the task list

  /** The child the DAG gets for a task. */
  function ChildFor(t: Json): Json {
    Obj(map["kind" := Str("app_task"), "name" := OrNull(Get(t, "name")), "uuid" := OrNull(Get(t, "uuid"))])
  }

  /**
   Every user task that is no DAG is appended, in order, with the uuid of the service its target names,
   and becomes a child of the DAG; system tasks only lose what the server added.
   */
  lemma OwnTasksMerged(system: seq<Json>, user: seq<Json>, services: P.Names) returns (at: seq<nat>)
    requires MergedTasks(system, user, services).Some?
    ensures OwnPlaces(user, at)
    ensures var merged := MergedTasks(system, user, services).value;
      && |merged| == |system| + |at|
      && (forall i | 0 <= i < |at| :: OwnMerged(merged[|system| + i], user[at[i]], services))
      && (forall i | 0 <= i < |merged| :: Get(merged[i], "state") == None && Get(merged[i], "message_list") == None)
      && (forall i | 1 <= i < |system| :: SameExcept(merged[i], system[i], {"state", "message_list"}))
      && Elements(merged[0], "child_tasks_local_reference_list")
         == Elements(system[0], "child_tasks_local_reference_list")
             + seq(|at|, i requires 0 <= i < |at| => ChildFor(user[at[i]]))
  {
    at := OwnOfPlaces(user);
    MergedMembers(system, user, services);
    ChildrenAre(user, at);
    AllCleaned(system, user, services);
    AllOwnMerged(system, user, services, at);
    hide MergedTasks, OwnOf, SameExcept, Get, OwnMerged, Elements, ChildrenOf, ChildFor, OwnPlaces;
  }

  lemma {:induction false} ChildrenAre(user: seq<Json>, at: seq<nat>)
    requires OwnPlaces(user, at) && |at| == |OwnOf(user)| && forall i | 0 <= i < |at| :: OwnOf(user)[i] == user[at[i]]
    ensures ChildrenOf(OwnOf(user)) == seq(|at|, i requires 0 <= i < |at| => ChildFor(user[at[i]]))
  {
    hide OwnOf, IsOwn;
  }

  lemma AllCleaned(system: seq<Json>, user: seq<Json>, services: P.Names)
    requires MergedTasks(system, user, services).Some?
    ensures forall m <- MergedTasks(system, user, services).value ::
                Get(m, "state") == None && Get(m, "message_list") == None
  {
    var tasks := MergeAll(system, user, services, UuidsOf(user)).value;
    assert MergedTasks(system, user, services).value == CleanAll(tasks);
    hide MergedTasks, MergeAll, Clean, Get;
    forall i | 0 <= i < |tasks|
      ensures Get(CleanAll(tasks)[i], "state") == None && Get(CleanAll(tasks)[i], "message_list") == None
    {
      CleanRemoves(tasks[i]);
    }
  }

  lemma {:induction false} AllOwnMerged(system: seq<Json>, user: seq<Json>, services: P.Names, at: seq<nat>)
    requires MergedTasks(system, user, services).Some?
    requires OwnPlaces(user, at) && |at| == |OwnOf(user)| && forall i | 0 <= i < |at| :: OwnOf(user)[i] == user[at[i]]
    ensures var merged := MergedTasks(system, user, services).value;
      |merged| == |system| + |at| && forall i | 0 <= i < |at| :: OwnMerged(merged[|system| + i], user[at[i]], services)
  {
    PlacedTasks(system, user, services);
    AllTasksObjects(system, user, services);
    hide MergedTasks, OwnOf, Placed, Placeable, Clean, OwnMerged, IsOwn, Get;
    var own, merged := OwnOf(user), MergedTasks(system, user, services).value;
    forall i | 0 <= i < |at| ensures OwnMerged(merged[|system| + i], user[at[i]], services) {
      assert user[at[i]] in user;
      PlacedIs(own[i], services);
    }
  }

  lemma PlacedTasks(system: seq<Json>, user: seq<Json>, services: P.Names)
    requires MergedTasks(system, user, services).Some?
    ensures var merged, own := MergedTasks(system, user, services).value, OwnOf(user);
      && |merged| == |system| + |own|
      && forall i | 0 <= i < |own| ::
            Placeable(own[i], services) && merged[|system| + i] == Clean(Placed(own[i], services))
  {
    var tasks := MergeAll(system, user, services, UuidsOf(user)).value;
    assert MergedTasks(system, user, services).value == CleanAll(tasks);
    MergeShape(system, user, services, UuidsOf(user));
    hide MergedTasks, MergeAll, OwnOf, Placed, Placeable, Clean, SameDag, Elements, ChildrenOf, Get;
  }

  /** A merge that ends without an error has met objects only. */
  lemma {:induction false} AllTasksObjects(system: seq<Json>, user: seq<Json>, services: P.Names)
    requires MergedTasks(system, user, services).Some?
    ensures forall t <- user :: t.Obj?
  {
    UserObjects(system, user, services, UuidsOf(user));
  }

  lemma {:induction false} UserObjects(system: seq<Json>, user: seq<Json>, services: P.Names, uuids: Uuids)
    requires system != [] && MergeAll(system, user, services, uuids).Some?
    ensures forall t <- user :: t.Obj?
  {
    if user != [] {
      var n := |user| - 1;
      UserObjects(system, user[..n], services, uuids);
      TurnPasses(MergeAll(system, user[..n], services, uuids).value, user[n], services, uuids);
      assert Get(user[n], "type").Some?;
      hide MergeAll, MergeTask;
      assert user == user[..n] + [user[n]];
    }
  }

  // ----- the edges

  /** `uuid` is that of the last task of this name. */
  ghost predicate LastNamed(tasks: seq<Json>, name: string, uuid: Json) {
    exists k | 0 <= k < |tasks| ::
      && Text(tasks[k], "name") == name && uuid == OrNull(Get(tasks[k], "uuid"))
      && forall m | k < m < |tasks| :: Text(tasks[m], "name") != name
  }

  lemma {:induction false} UuidsAreLast(tasks: seq<Json>, name: string)
    ensures name in UuidsOf(tasks) <==> exists k | 0 <= k < |tasks| :: Text(tasks[k], "name") == name
    ensures name in UuidsOf(tasks) ==> LastNamed(tasks, name, UuidsOf(tasks)[name])
  {
    hide Text;
    if tasks != [] {
      var n := |tasks| - 1;
      UuidsAreLast(tasks[..n], name);
      if Text(tasks[n], "name") != name && name in UuidsOf(tasks) {
        var k :| 0 <= k < n && Text(tasks[..n][k], "name") == name
            && UuidsOf(tasks)[name] == OrNull(Get(tasks[..n][k], "uuid"))
          && forall m | k < m < n :: Text(tasks[..n][m], "name") != name;
        assert tasks[k] == tasks[..n][k];
        forall m | k < m < |tasks| ensures Text(tasks[m], "name") != name {
          assert m < n ==> tasks[m] == tasks[..n][m];
        }
        assert LastNamed(tasks, name, UuidsOf(tasks)[name]);
      }
      if Text(tasks[n], "name") == name {
        assert LastNamed(tasks, name, UuidsOf(tasks)[name]);
      }
      if k :| 0 <= k < n && Text(tasks[k], "name") == name {
        assert tasks[..n][k] == tasks[k];
      }
    }
  }

  /** An edge the user wrote, each end with the uuid of the task it names. */
  ghost predicate EdgePointed(m: Json, e: Json, user: seq<Json>) {
    && SameExcept(m, e, {"from_task_reference", "to_task_reference"})
    && EndPointed(OrNull(Get(m, "from_task_reference")), OrNull(Get(e, "from_task_reference")), user)
    && EndPointed(OrNull(Get(m, "to_task_reference")), OrNull(Get(e, "to_task_reference")), user)
  }

  ghost predicate EndPointed(m: Json, end: Json, user: seq<Json>) {
    && SameExcept(m, end, {"uuid"}) && Get(end, "name").Some? && Get(end, "name").value.Str?
    && Get(m, "uuid").Some? && LastNamed(user, Get(end, "name").value.s, Get(m, "uuid").value)
  }

  lemma EndIs(end: Json, user: seq<Json>)
    requires Pointable(end, UuidsOf(user))
    ensures EndPointed(Point(end, UuidsOf(user)), end, user)
  {
    UuidsAreLast(user, Text(end, "name"));
    PointView(end, UuidsOf(user));
    PointedUuid(end, UuidsOf(user));
    hide UuidsOf, LastNamed, Point;
  }

  lemma PointedUuid(end: Json, uuids: Uuids)
    requires Pointable(end, uuids)
    ensures Get(end, "name") == Some(Str(Text(end, "name")))
            && Get(Point(end, uuids), "uuid") == Some(uuids[Text(end, "name")])
  {
  }

  lemma EdgeIs(e: Json, user: seq<Json>)
    requires EdgeFits(e, UuidsOf(user))
    ensures EdgePointed(PointEdge(e, UuidsOf(user)), e, user)
  {
    var from, to := OrNull(Get(e, FROM)), OrNull(Get(e, TO));
    EndIs(from, user);
    EndIs(to, user);
    PointEdgeView(e, UuidsOf(user));
    PointedEnds(e, UuidsOf(user));
    hide UuidsOf, EndPointed, Pointable, Point, PointEdge;
  }

  lemma PointedEnds(e: Json, uuids: Uuids)
    requires EdgeFits(e, uuids)
    ensures Get(PointEdge(e, uuids), FROM) == Some(Point(OrNull(Get(e, FROM)), uuids))
    ensures Get(PointEdge(e, uuids), TO) == Some(Point(OrNull(Get(e, TO)), uuids))
  {
    assert e.Obj?;
    hide Pointable, Point;
    var from := Point(OrNull(Get(e, FROM)), uuids);
    OtherMembers(With(e, FROM, from), TO, Some(Point(OrNull(Get(e, TO)), uuids)), FROM);
  }

  /** The edge from the DAG's first child to the first child of the user's DAG. */
  ghost predicate LeadsIn(m: Json, child: Json, name: string, user: seq<Json>) {
    exists uuid ::
      && LastNamed(user, name, uuid)
      && m == Obj(map["from_task_reference" := Obj(map["kind" := Str("app_task"), "uuid" := OrNull(Get(child,
            "uuid"))]),
                      "to_task_reference" := Obj(map["kind" := Str("app_task"), "name" := Str(name), "uuid" := uuid])])
  }

  /** The only DAG among the user's tasks. */
  predicate OneDag(user: seq<Json>, d: nat) {
    d < |user| && !IsOwn(user[d]) && forall i | 0 <= i < |user| && i != d :: IsOwn(user[i])
  }

  function EdgesOf(t: Json): seq<Json> {
    Elements(OrNull(Get(t, "attrs")), "edges")
  }

  /** The edges of the DAG once the user's DAG was met. */
  lemma {:induction false} DagEdges(system: seq<Json>, user: seq<Json>, d: nat, services: P.Names, uuids: Uuids)
    requires system != [] && OneDag(user, d) && MergeAll(system, user, services, uuids).Some?
    ensures DagFits(user[d], uuids)
    ensures var dag := MergeAll(system, user, services, uuids).value[0];
      && Elements(dag, CHILDREN) != []
      && EdgesOf(dag) == NewEdges(OrNull(Get(Elements(dag, CHILDREN)[0], "uuid")), user[d], uuids)
  {
    var n := |user| - 1;
    var before := MergeAll(system, user[..n], services, uuids).value;
    TurnPasses(before, user[n], services, uuids);
    assert !IsOwn(user[n]) <==> HasType(user[n], "DAG");
    hide Placeable, Placed, TakesEdges, TakesChild, NewEdges, HasType;
    if n == d {
      EdgesShape(before[0], user[d], uuids);
      EdgesSet(before[0], user[d], uuids);
    } else {
      assert OneDag(user[..n], d);
      DagEdges(system, user[..n], d, services, uuids);
      ChildShape(before[0], user[n]);
      ChildLeavesAttrs(before[0], user[n]);
    }
  }

  lemma EdgesSet(dag: Json, t: Json, uuids: Uuids)
    requires TakesEdges(dag) && DagFits(t, uuids)
    ensures Elements(dag, CHILDREN) != []
    ensures EdgesOf(WithEdges(dag, t, uuids)) == NewEdges(OrNull(Get(Elements(dag, CHILDREN)[0], "uuid")), t, uuids)
  {
    hide NewEdges;
  }

  lemma ChildLeavesAttrs(dag: Json, t: Json)
    ensures Get(WithChild(dag, t), "attrs") == Get(dag, "attrs")
  {
    OtherMembers(dag, CHILDREN, Some(Arr(Elements(dag, CHILDREN) + [ChildOf(t)])), "attrs");
  }

  /**
   The DAG's edges: one from its first child to the task the user's DAG begins with, then the edges the
   user wrote, each end with the uuid of the task it names.
   */
  lemma EdgesMerged(system: seq<Json>, user: seq<Json>, d: nat, services: P.Names)
    requires MergedTasks(system, user, services).Some? && OneDag(user, d)
    ensures var merged := MergedTasks(system, user, services).value;
      var children, first := Elements(merged[0], "child_tasks_local_reference_list"),
            Elements(user[d], "child_tasks_local_reference_list");
      && |EdgesOf(merged[0])| == 1 + |EdgesOf(user[d])| && children != [] && first != []
      && LeadsIn(EdgesOf(merged[0])[0], children[0], Text(first[0], "name"), user)
      && forall i | 0 <= i < |EdgesOf(user[d])| :: EdgePointed(EdgesOf(merged[0])[1 + i], EdgesOf(user[d])[i], user)
  {
    var dag := MergeAll(system, user, services, UuidsOf(user)).value[0];
    DagEdges(system, user, d, services, UuidsOf(user));
    CleanRemoves(dag);
    assert MergedTasks(system, user, services).value[0] == Clean(dag);
    NewEdgesAre(OrNull(Get(Elements(dag, CHILDREN)[0], "uuid")), user, user[d]);
    hide MergeAll, MergedTasks, Clean, UuidsOf, EdgePointed, LeadsIn, OneDag, Text, NewEdges, DagFits;
  }

  lemma NewEdgesAre(uuid: Json, user: seq<Json>, t: Json)
    requires DagFits(t, UuidsOf(user))
    ensures var edges := NewEdges(uuid, t, UuidsOf(user));
      && |edges| == 1 + |EdgesOf(t)| && Elements(t, CHILDREN) != []
      && (forall child ::
            OrNull(Get(child, "uuid")) == uuid
            ==> LeadsIn(edges[0], child, Text(Elements(t, CHILDREN)[0], "name"), user))
      && forall i | 0 <= i < |EdgesOf(t)| :: EdgePointed(edges[1 + i], EdgesOf(t)[i], user)
  {
    var uuids, edges, name := UuidsOf(user), EdgesOf(t), Text(Elements(t, CHILDREN)[0], "name");
    FitsSay(t, uuids);
    NewEdgesParts(uuid, t, uuids);
    hide UuidsOf, EdgePointed, EdgeFits, PointEdge, LastNamed, Text, FirstEdge, LeadsIn, DagFits, EdgesOf, Elements,
         Get, NewEdges;
    forall i | 0 <= i < |edges| ensures EdgePointed(PointEdge(edges[i], uuids), edges[i], user) {
      EdgeIs(edges[i], user);
    }
    forall child | OrNull(Get(child, "uuid")) == uuid ensures LeadsIn(FirstEdge(uuid, name, uuids), child, name, user) {
      FirstLeads(uuid, child, name, user);
    }
  }

  lemma NewEdgesParts(uuid: Json, t: Json, uuids: Uuids)
    requires DagFits(t, uuids)
    ensures Elements(t, CHILDREN) != [] && Text(Elements(t, CHILDREN)[0], "name") in uuids
    ensures forall i | 0 <= i < |EdgesOf(t)| :: EdgeFits(EdgesOf(t)[i], uuids)
    ensures var edges := NewEdges(uuid, t, uuids);
      && |edges| == 1 + |EdgesOf(t)| && edges[0] == FirstEdge(uuid, Text(Elements(t, CHILDREN)[0], "name"), uuids)
      && forall i | 0 <= i < |EdgesOf(t)| :: edges[1 + i] == PointEdge(EdgesOf(t)[i], uuids)
  {
    FitsSay(t, uuids);
    hide EdgeFits, PointEdge, FirstEdge, Text;
  }

  lemma FitsSay(t: Json, uuids: Uuids)
    requires DagFits(t, uuids)
    ensures Elements(t, CHILDREN) != [] && Text(Elements(t, CHILDREN)[0], "name") in uuids
    ensures forall i | 0 <= i < |EdgesOf(t)| :: EdgeFits(EdgesOf(t)[i], uuids)
  {
    hide EdgeFits;
  }

  lemma {:induction false} FirstLeads(uuid: Json, child: Json, name: string, user: seq<Json>)
    requires name in UuidsOf(user) && OrNull(Get(child, "uuid")) == uuid
    ensures LeadsIn(FirstEdge(uuid, name, UuidsOf(user)), child, name, user)
  {
    UuidsAreLast(user, name);
    FirstIs(uuid, name, UuidsOf(user));
    hide FirstEdge, LastNamed, UuidsOf;
  }

  lemma FirstIs(uuid: Json, name: string, uuids: Uuids)
    requires name in uuids
    ensures FirstEdge(uuid, name, uuids)
         == Obj(map[
                  "from_task_reference" := Obj(map["kind" := Str("app_task"), "uuid" := uuid]),
                  "to_task_reference" :=
                    Obj(map["kind" := Str("app_task"), "name" := Str(name), "uuid" := uuids[name]])])
  {
  }

  // ----- services

  /** `uuid` is that of the last service of this name. */
  ghost predicate LastService(services: seq<Json>, name: string, uuid: string) {
    exists k | 0 <= k < |services| ::
      && Text(services[k], "name") == name && uuid == Text(services[k], "uuid")
      && forall m | k < m < |services| :: Text(services[m], "name") != name
  }

  lemma LastServiceStays(services: seq<Json>, s: Json, name: string, uuid: string)
    requires LastService(services, name, uuid) && Text(s, "name") != name
    ensures LastService(services + [s], name, uuid)
  {
    hide Text;
    var k :| 0 <= k < |services| && Text(services[k], "name") == name && uuid == Text(services[k], "uuid")
      && forall m | k < m < |services| :: Text(services[m], "name") != name;
    var all := services + [s];
    assert all[k] == services[k];
    forall m | k < m < |all| ensures Text(all[m], "name") != name {
      assert m < |services| ==> all[m] == services[m];
    }
  }

  lemma NewService(services: seq<Json>, s: Json)
    ensures LastService(services + [s], Text(s, "name"), Text(s, "uuid"))
  {
    hide Text;
    assert (services + [s])[|services|] == s;
  }
}
