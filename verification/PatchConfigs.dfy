/**
 Patch configs: the user's tasks are taken out of the payload and later merged into the runbook the
 server made for the config of that name, whose first task is the DAG over all tasks.
 */
module PatchConfigs {
  import opened Options
  import opened Graph

  datatype Child = Child(name: string, uuid: string)
  datatype EdgeEnd = EdgeEnd(name: Option<string>, uuid: Option<string>)
  datatype Edge = Edge(from: EdgeEnd, to: EdgeEnd)
  datatype Target = Target(name: string, uuid: Option<string>)

  /** `state` and `messages` are what the server adds to a task or runbook it reports. */
  datatype Task = Task(name: string, uuid: string, kind: string, target: Option<Target>,
                       children: seq<Child>, edges: seq<Edge>, state: Option<string>, messages: Option<string>)

  datatype Runbook = Runbook(tasks: seq<Task>, state: Option<string>, messages: Option<string>)
  datatype Config = Config(name: string, runbook: Option<Runbook>)
  datatype Profile = Profile(name: string, configs: seq<Config>)

  type Names = map<string, string>

  datatype Outcome<T> = Done(value: T) | ServiceMissing(service: string)

  // ----- what the merge of one config makes

  predicate IsDag(t: Task) {
    t.kind == "DAG"
  }

  /** `task_name_uuid_map`: the last task of a name wins. */
  function NamesOf(tasks: seq<Task>): Names {
    if tasks == [] then map[]
    else NamesOf(tasks[..|tasks|-1])[tasks[|tasks|-1].name := tasks[|tasks|-1].uuid]
  }

  /** The service a task runs on is not known to the server, or has no uuid. */
  predicate Unplaced(t: Task, services: Names) {
    t.target.Some? && (t.target.value.name !in services || services[t.target.value.name] == "")
  }

  function Placed(t: Task, services: Names): Task {
    if t.target.Some? && t.target.value.name in services then
      t.(target := Some(t.target.value.(uuid := Some(services[t.target.value.name]))))
    else t
  }

  /** The tasks a user wrote, without the DAG over them, each with the uuid of its service. */
  function OwnTasks(user: seq<Task>, services: Names): seq<Task> {
    if user == [] then []
    else
      var t := user[|user|-1];
      OwnTasks(user[..|user|-1], services) + (if IsDag(t) then [] else [Placed(t, services)])
  }

  function ChildrenOf(tasks: seq<Task>): seq<Child> {
    if tasks == [] then []
    else ChildrenOf(tasks[..|tasks|-1]) + [Child(tasks[|tasks|-1].name, tasks[|tasks|-1].uuid)]
  }

  function Point(e: EdgeEnd, names: Names): EdgeEnd {
    if e.name.Some? && e.name.value in names then e.(uuid := Some(names[e.name.value])) else e
  }

  function PointAll(edges: seq<Edge>, names: Names): (pointed: seq<Edge>)
    ensures |pointed| == |edges|
    ensures forall i | 0 <= i < |edges| :: pointed[i] == Edge(Point(edges[i].from, names), Point(edges[i].to, names))
  {
    if edges == [] then []
    else
      var e := edges[|edges|-1];
      PointAll(edges[..|edges|-1], names) + [Edge(Point(e.from, names), Point(e.to, names))]
  }

  /** The edge from the system's first task to the user's first task. */
  function FirstEdge(first: string, dag: Task, names: Names): Edge
    requires dag.children != []
  {
    var name := dag.children[0].name;
    Edge(EdgeEnd(None, Some(first)), Point(EdgeEnd(Some(name), None), names))
  }

  /** The merge cannot fail for want of a key: each DAG has a first child, and all names it uses are tasks. */
  predicate ClosedDag(t: Task, names: Names) {
    && t.children != [] && t.children[0].name in names
    && forall e <- t.edges ::
          e.from.name.Some? && e.from.name.value in names && e.to.name.Some? && e.to.name.value in names
  }

  predicate Closed(user: seq<Task>) {
    forall t <- user :: IsDag(t) ==> ClosedDag(t, NamesOf(user))
  }

  /** The first system task is a DAG that has a child by the time a user DAG is met. */
  predicate Rooted(system: seq<Task>, user: seq<Task>) {
    && system != []
    && forall i | 0 <= i < |user| ::
          IsDag(user[i]) ==> system[0].children != [] || exists k | 0 <= k < i :: !IsDag(user[k])
  }

  /** The system DAG after the first `n` user tasks. */
  function MergedDag(dag: Task, user: seq<Task>, services: Names, names: Names): Task {
    if user == [] then dag
    else
      var n := |user| - 1;
      var before, t := MergedDag(dag, user[..n], services, names), user[n];
      if !IsDag(t) then before.(children := before.children + [Child(t.name, t.uuid)])
      else if before.children != [] && t.children != [] then
        before.(edges := [FirstEdge(before.children[0].uuid, t, names)] + PointAll(t.edges, names))
      else before
  }

  function Clean(t: Task): Task {
    t.(state := None, messages := None)
  }

  function CleanAll(tasks: seq<Task>): (cleaned: seq<Task>)
    ensures |cleaned| == |tasks| && forall i | 0 <= i < |tasks| :: cleaned[i] == Clean(tasks[i])
  {
    if tasks == [] then [] else CleanAll(tasks[..|tasks|-1]) + [Clean(tasks[|tasks|-1])]
  }

  /** The tasks of a patch config's runbook after the merge. */
  function MergedTasks(system: seq<Task>, user: seq<Task>, services: Names): seq<Task>
    requires system != []
  {
    CleanAll([MergedDag(system[0], user, services, NamesOf(user))] + system[1..] + OwnTasks(user, services))
  }

  // ----- the loops

  /** One turn: the user's tasks `user[..i]` are merged into `tasks`. */
  ghost predicate MergedSoFar(tasks: seq<Task>, system: seq<Task>, user: seq<Task>, i: nat, services: Names,
                              names: Names)
    requires i <= |user| && system != []
  {
    tasks == [MergedDag(system[0], user[..i], services, names)] + system[1..] + OwnTasks(user[..i], services)
  }

  lemma {:induction false} DagChildren(dag: Task, user: seq<Task>, services: Names, names: Names)
    ensures MergedDag(dag, user, services, names).children == dag.children + ChildrenOf(OwnTasks(user, services))
  {
    if user == [] {
      assert dag.children + [] == dag.children;
    } else {
      var n := |user| - 1;
      var own := OwnTasks(user[..n], services);
      DagChildren(dag, user[..n], services, names);
      if !IsDag(user[n]) {
        var t := Placed(user[n], services);
        assert (own + [t])[..|own|] == own;
        assert ChildrenOf(own + [t]) == ChildrenOf(own) + [Child(t.name, t.uuid)];
      } else {
        assert own + [] == own;
      }
    }
  }

  lemma {:induction false} SomeOwnTask(user: seq<Task>, services: Names, k: nat)
    requires k < |user| && !IsDag(user[k])
    ensures OwnTasks(user, services) != []
  {
    if k < |user| - 1 {
      SomeOwnTask(user[..|user|-1], services, k);
    }
  }

  lemma {:induction false} ChildrenLength(tasks: seq<Task>)
    ensures |ChildrenOf(tasks)| == |tasks|
    ensures forall i | 0 <= i < |tasks| :: ChildrenOf(tasks)[i] == Child(tasks[i].name, tasks[i].uuid)
  {
    if tasks != [] {
      ChildrenLength(tasks[..|tasks|-1]);
    }
  }

  /** When a user DAG is met, the system DAG has a first child. */
  lemma HasFirstChild(system: seq<Task>, user: seq<Task>, i: nat, services: Names, names: Names)
    requires Rooted(system, user) && i < |user| && IsDag(user[i])
    ensures MergedDag(system[0], user[..i], services, names).children != []
  {
    DagChildren(system[0], user[..i], services, names);
    if system[0].children == [] {
      var k :| 0 <= k < i && !IsDag(user[k]);
      SomeOwnTask(user[..i], services, k);
      ChildrenLength(OwnTasks(user[..i], services));
    }
  }

  /** One turn of the loop over `user_task_edges`: the ends of each edge get the uuids of the tasks they name. */
  method PointEdges(edges: seq<Edge>, names: Names) returns (pointed: seq<Edge>)
    requires forall e <- edges ::
                e.from.name.Some? && e.from.name.value in names && e.to.name.Some? && e.to.name.value in names
    ensures pointed == PointAll(edges, names)
  {
    pointed := edges;
    var i := 0;
    while i < |edges|
      invariant i <= |edges| && |pointed| == |edges|
      invariant forall k | 0 <= k < i :: pointed[k] == PointAll(edges, names)[k]
      invariant forall k | i <= k < |edges| :: pointed[k] == edges[k]
    {
      var edge := pointed[i];
      assert edges[i] in edges;
      edge := edge.(from := edge.from.(uuid := Some(names[edge.from.name.value])));
      edge := edge.(to := edge.to.(uuid := Some(names[edge.to.name.value])));
      pointed := pointed[i := edge];
      i := i + 1;
    }
  }

  method NameTasks(tasks: seq<Task>) returns (names: Names)
    ensures names == NamesOf(tasks)
  {
    names := map[];
    var i := 0;
    while i < |tasks|
      invariant i <= |tasks| && names == NamesOf(tasks[..i])
    {
      assert tasks[..i+1][..i] == tasks[..i];
      names := names[tasks[i].name := tasks[i].uuid];
      i := i + 1;
    }
    assert tasks[..i] == tasks;
  }

  method CleanTasks(tasks: seq<Task>) returns (cleaned: seq<Task>)
    ensures cleaned == CleanAll(tasks)
  {
    cleaned := tasks;
    var i := 0;
    while i < |tasks|
      invariant i <= |tasks| && |cleaned| == |tasks|
      invariant forall k | 0 <= k < i :: cleaned[k] == Clean(tasks[k])
      invariant forall k | i <= k < |tasks| :: cleaned[k] == tasks[k]
    {
      cleaned := cleaned[i := cleaned[i].(state := None)];
      cleaned := cleaned[i := cleaned[i].(messages := None)];
      i := i + 1;
    }
  }

  lemma MergeTurn(system: seq<Task>, user: seq<Task>, i: nat, services: Names, names: Names)
    requires system != [] && i < |user|
    ensures OwnTasks(user[..i+1], services) == OwnTasks(user[..i], services)
            + (if IsDag(user[i]) then [] else [Placed(user[i], services)])
    ensures var before, t := MergedDag(system[0], user[..i], services, names), user[i];
      MergedDag(system[0], user[..i+1], services, names) ==
        if !IsDag(t) then before.(children := before.children + [Child(t.name, t.uuid)])
        else if before.children != [] && t.children != [] then
          before.(edges := [FirstEdge(before.children[0].uuid, t, names)] + PointAll(t.edges, names))
        else before
  {
    assert user[..i+1][..i] == user[..i] && user[..i+1][i] == user[i];
  }

  /** Appending a task of the user's own. */
  lemma OwnTurn(tasks: seq<Task>, system: seq<Task>, user: seq<Task>, i: nat, services: Names, names: Names)
    requires system != [] && i < |user| && !IsDag(user[i]) && tasks != []
    requires MergedSoFar(tasks, system, user, i, services, names)
    ensures var t := Placed(user[i], services);
      MergedSoFar((tasks + [t])[0 := tasks[0].(children := tasks[0].children + [Child(t.name, t.uuid)])],
                  system, user, i + 1, services, names)
  {
    hide MergedDag, OwnTasks;
    MergeTurn(system, user, i, services, names);
  }

  /** Setting the edges of the system DAG. */
  lemma DagTurn(tasks: seq<Task>, system: seq<Task>, user: seq<Task>, i: nat, services: Names, names: Names)
    requires Rooted(system, user) && i < |user| && IsDag(user[i]) && tasks != [] && user[i].children != []
    requires MergedSoFar(tasks, system, user, i, services, names)
    ensures tasks[0].children != []
    ensures var first := FirstEdge(tasks[0].children[0].uuid, user[i], names);
      MergedSoFar(tasks[0 := tasks[0].(edges := [first] + PointAll(user[i].edges, names))], system, user, i + 1,
                  services, names)
  {
    hide MergedDag, OwnTasks, FirstEdge, PointAll;
    MergeTurn(system, user, i, services, names);
    HasFirstChild(system, user, i, services, names);
    assert OwnTasks(user[..i], services) + [] == OwnTasks(user[..i], services);
  }

  /** The body of `add_patch_config_tasks` for one patch config that has a runbook. */
  method MergeConfig(system: seq<Task>, user: seq<Task>, services: Names) returns (result: Outcome<seq<Task>>)
    requires Rooted(system, user) && Closed(user)
    ensures result.Done? <==> forall t <- user :: !Unplaced(t, services)
    ensures result.Done? ==> result.value == MergedTasks(system, user, services)
    ensures result.ServiceMissing? ==> exists t <- user ::
                Unplaced(t, services) && t.target.value.name == result.service
  {
    hide NamesOf, MergedDag, OwnTasks, PointAll, FirstEdge;
    var names := NameTasks(user);
    var tasks := system;
    NothingMerged(system, user, services, names);
    var i := 0;
    while i < |user|
      invariant i <= |user| && tasks != []
      invariant forall k | 0 <= k < i :: !Unplaced(user[k], services)
      invariant MergedSoFar(tasks, system, user, i, services, names)
    {
      var task := user[i];
      assert task in user;
      if task.target.Some? {
        var service := task.target.value.name;
        if service !in services || services[service] == "" {
          return ServiceMissing(service);
        }
        task := task.(target := Some(task.target.value.(uuid := Some(services[service]))));
      }
      if !IsDag(task) {
        OwnTurn(tasks, system, user, i, services, names);
        tasks := tasks + [task];
        tasks := tasks[0 := tasks[0].(children := tasks[0].children + [Child(task.name, task.uuid)])];
      } else {
        DagTurn(tasks, system, user, i, services, names);
        var first := FirstEdge(tasks[0].children[0].uuid, user[i], names);
        var edges := PointEdges(task.edges, names);
        tasks := tasks[0 := tasks[0].(edges := [first] + edges)];
      }
      i := i + 1;
    }
    assert user[..i] == user;
    tasks := CleanTasks(tasks);
    result := Done(tasks);
  }

  lemma NothingMerged(system: seq<Task>, user: seq<Task>, services: Names, names: Names)
    requires system != []
    ensures MergedSoFar(system, system, user, 0, services, names)
  {
  }

  // ----- what the merged runbook is worth

  predicate UniqueTasks(user: seq<Task>) {
    forall i, k | 0 <= i < k < |user| :: user[i].name != user[k].name && user[i].uuid != user[k].uuid
  }

  lemma NamesAreTasks(user: seq<Task>)
    ensures forall n <- NamesOf(user) :: exists t <- user :: t.name == n && t.uuid == NamesOf(user)[n]
    ensures forall t <- user :: t.name in NamesOf(user)
    ensures UniqueTasks(user) ==> forall t <- user :: NamesOf(user)[t.name] == t.uuid
  {
    EveryNameIsTask(user);
    if UniqueTasks(user) {
      forall t <- user ensures NamesOf(user)[t.name] == t.uuid {
        var i :| 0 <= i < |user| && user[i] == t;
        TaskKeepsName(user, i);
      }
    }
  }

  lemma {:induction false} EveryNameIsTask(user: seq<Task>)
    ensures forall n <- NamesOf(user) :: exists t <- user :: t.name == n && t.uuid == NamesOf(user)[n]
    ensures forall t <- user :: t.name in NamesOf(user)
  {
    if user != [] {
      var n := |user| - 1;
      EveryNameIsTask(user[..n]);
      assert user == user[..n] + [user[n]];
    }
  }

  lemma {:induction false} TaskKeepsName(user: seq<Task>, i: nat)
    requires UniqueTasks(user) && i < |user|
    ensures user[i].name in NamesOf(user) && NamesOf(user)[user[i].name] == user[i].uuid
  {
    if i < |user| - 1 {
      TaskKeepsName(user[..|user|-1], i);
    }
  }

  lemma NamesInjective(user: seq<Task>)
    requires UniqueTasks(user)
    ensures Injective(NamesOf(user))
  {
    NamesAreTasks(user);
    var names := NamesOf(user);
    forall a, b | a in names && b in names && names[a] == names[b] ensures a == b {
      var s :| s in user && s.name == a && s.uuid == names[a];
      var t :| t in user && t.name == b && t.uuid == names[b];
      var i :| 0 <= i < |user| && user[i] == s;
      var k :| 0 <= k < |user| && user[k] == t;
    }
  }

  /** The index of the user's only DAG. */
  predicate OnlyDag(user: seq<Task>, d: nat) {
    d < |user| && IsDag(user[d]) && forall i | 0 <= i < |user| && i != d :: !IsDag(user[i])
  }

  /** The system DAG's first child at the time the DAG at index `d` is met. */
  function FirstChildAt(system: seq<Task>, user: seq<Task>, d: nat, services: Names): string
    requires Rooted(system, user) && d < |user| && IsDag(user[d])
  {
    HasFirstChild(system, user, d, services, NamesOf(user));
    MergedDag(system[0], user[..d], services, NamesOf(user)).children[0].uuid
  }

  /** Only the DAG sets edges, from what has been merged when it is met. */
  lemma {:induction false} DagEdges(dag: Task, user: seq<Task>, d: nat, services: Names, names: Names)
    requires OnlyDag(user, d) && user[d].children != []
    requires MergedDag(dag, user[..d], services, names).children != []
    ensures MergedDag(dag, user, services, names).edges
         == [FirstEdge(MergedDag(dag, user[..d], services, names).children[0].uuid, user[d], names)]
             + PointAll(user[d].edges, names)
  {
    var n := |user| - 1;
    if d < n {
      assert user[..n][..d] == user[..d];
      DagEdges(dag, user[..n], d, services, names);
    }
  }

  function NameEdges(edges: seq<Edge>): Edges {
    set e | e in edges && e.from.name.Some? && e.to.name.Some? :: (e.from.name.value, e.to.name.value)
  }

  function UuidEdges(edges: seq<Edge>): Edges {
    set e | e in edges && e.from.uuid.Some? && e.to.uuid.Some? :: (e.from.uuid.value, e.to.uuid.value)
  }

  /** Edges that are pointed by name carry the user's graph over to uuids. */
  lemma PointedIsRenamed(edges: seq<Edge>, names: Names)
    requires forall e <- edges ::
                e.from.name.Some? && e.from.name.value in names && e.to.name.Some? && e.to.name.value in names
    ensures Renamed(NameEdges(edges), names, UuidEdges(PointAll(edges, names)))
  {
    var pointed := PointAll(edges, names);
    forall d <- NameEdges(edges)
      ensures d.0 in names && d.1 in names && (names[d.0], names[d.1]) in UuidEdges(pointed)
    {
      var e :| e in edges && e.from.name.Some? && e.to.name.Some? && d == (e.from.name.value, e.to.name.value);
      var i :| 0 <= i < |edges| && edges[i] == e;
      assert pointed[i] in pointed;
    }
    forall d <- UuidEdges(pointed)
      ensures exists e <- NameEdges(edges) :: e.0 in names && e.1 in names && d == (names[e.0], names[e.1])
    {
      var q :| q in pointed && q.from.uuid.Some? && q.to.uuid.Some? && d == (q.from.uuid.value, q.to.uuid.value);
      var i :| 0 <= i < |pointed| && pointed[i] == q;
      assert edges[i] in edges;
      assert (edges[i].from.name.value, edges[i].to.name.value) in NameEdges(edges);
    }
  }

  lemma FirstEdgeAdds(first: string, dag: Task, names: Names)
    requires dag.children != [] && dag.children[0].name in names
    ensures UuidEdges([FirstEdge(first, dag, names)] + PointAll(dag.edges, names))
         == UuidEdges(PointAll(dag.edges, names)) + {(first, names[dag.children[0].name])}
  {
    var a, rest := FirstEdge(first, dag, names), PointAll(dag.edges, names);
    assert [a] + rest == [a] + rest && a in [a] + rest;
    assert forall e <- rest :: e in [a] + rest;
    assert forall e <- [a] + rest :: e == a || e in rest;
  }

  /** The edges of the merged DAG as a graph over uuids. */
  function MergedGraph(system: seq<Task>, user: seq<Task>, services: Names): Edges
    requires system != []
  {
    UuidEdges(MergedTasks(system, user, services)[0].edges)
  }

  lemma MergedGraphIs(system: seq<Task>, user: seq<Task>, d: nat, services: Names)
    requires Rooted(system, user) && Closed(user) && OnlyDag(user, d)
    ensures ClosedDag(user[d], NamesOf(user))
    ensures var names := NamesOf(user);
      MergedGraph(system, user, services)
      == UuidEdges(PointAll(user[d].edges, names))
          + {(FirstChildAt(system, user, d, services), names[user[d].children[0].name])}
  {
    var names := NamesOf(user);
    assert user[d] in user;
    HasFirstChild(system, user, d, services, names);
    DagEdges(system[0], user, d, services, names);
    FirstEdgeAdds(FirstChildAt(system, user, d, services), user[d], names);
  }

  /**
   The merged DAG is acyclic exactly when the user's own edges are and the user's first task does
   not lead back to the system's first child.
   */
  lemma MergeAcyclicExactly(system: seq<Task>, user: seq<Task>, d: nat, services: Names)
    requires Rooted(system, user) && Closed(user) && OnlyDag(user, d) && UniqueTasks(user)
    ensures var names := NamesOf(user);
      user[d].children != [] && user[d].children[0].name in names
      && (Acyclic(MergedGraph(system, user, services)) <==>
          Acyclic(NameEdges(user[d].edges))
          && !Reaches(UuidEdges(PointAll(user[d].edges, names)), names[user[d].children[0].name],
                      FirstChildAt(system, user, d, services)))
  {
    var names := NamesOf(user);
    MergedGraphIs(system, user, d, services);
    PointedIsRenamed(user[d].edges, names);
    NamesInjective(user);
    var image := UuidEdges(PointAll(user[d].edges, names));
    RenameKeepsCycles(NameEdges(user[d].edges), names, image);
    OneMoreEdge(image, FirstChildAt(system, user, d, services), names[user[d].children[0].name]);
  }

  /** No user task has the uuid of the system DAG's first child. */
  predicate OwnFirstChild(system: seq<Task>, user: seq<Task>, d: nat, services: Names)
    requires Rooted(system, user) && d < |user| && IsDag(user[d])
  {
    forall t <- user :: t.uuid != FirstChildAt(system, user, d, services)
  }

  /** Every node of the pointed graph is a user task. */
  lemma NodesAreTasks(user: seq<Task>, edges: seq<Edge>, e: (string, string))
    requires forall x <- edges ::
               && x.from.name.Some? && x.from.name.value in NamesOf(user)
               && x.to.name.Some? && x.to.name.value in NamesOf(user)
    requires e in UuidEdges(PointAll(edges, NamesOf(user)))
    ensures (exists t <- user :: t.uuid == e.0) && (exists t <- user :: t.uuid == e.1)
  {
    NamesAreTasks(user);
    PointedIsRenamed(edges, NamesOf(user));
  }

  /**
   With acyclic user edges and a system first child that is no user task: the merged DAG is acyclic,
   nothing leads into its first child, and the first child leads to every task the user's first
   task led to.
   */
  lemma MergedDagSound(system: seq<Task>, user: seq<Task>, d: nat, services: Names)
    requires Rooted(system, user) && Closed(user) && OnlyDag(user, d) && UniqueTasks(user)
    requires Acyclic(NameEdges(user[d].edges)) && OwnFirstChild(system, user, d, services)
    ensures Acyclic(MergedGraph(system, user, services))
    ensures forall e <- MergedGraph(system, user, services) :: e.1 != FirstChildAt(system, user, d, services)
    ensures user[d].children != []
    ensures forall t <- user :: Reaches(NameEdges(user[d].edges), user[d].children[0].name, t.name)
              ==> Reaches(MergedGraph(system, user, services), FirstChildAt(system, user, d, services), t.uuid)
  {
    hide NamesOf, FirstChildAt, PointAll, UuidEdges, NameEdges, Acyclic, Reaches, UniqueTasks, MergedGraph;
    MergeAcyclicExactly(system, user, d, services);
    MergedGraphIs(system, user, d, services);
    NothingLeadsIn(system, user, d, services);
    forall t | t in user && Reaches(NameEdges(user[d].edges), user[d].children[0].name, t.name)
      ensures Reaches(MergedGraph(system, user, services), FirstChildAt(system, user, d, services), t.uuid)
    {
      FirstLeadsTo(system, user, d, services, t);
    }
  }

  /** No edge leads into a system first child that is no user task, and no user task does. */
  lemma NothingLeadsIn(system: seq<Task>, user: seq<Task>, d: nat, services: Names)
    requires Rooted(system, user) && Closed(user) && OnlyDag(user, d) && OwnFirstChild(system, user, d, services)
    ensures user[d].children != [] && user[d].children[0].name in NamesOf(user)
    ensures forall e <- MergedGraph(system, user, services) :: e.1 != FirstChildAt(system, user, d, services)
    ensures !Reaches(UuidEdges(PointAll(user[d].edges, NamesOf(user))), NamesOf(user)[user[d].children[0].name],
                     FirstChildAt(system, user, d, services))
  {
    hide NamesOf, FirstChildAt, PointAll, UuidEdges, NameEdges, Reaches, Rooted, MergedGraph;
    var names, first := NamesOf(user), FirstChildAt(system, user, d, services);
    var image := UuidEdges(PointAll(user[d].edges, names));
    MergedGraphIs(system, user, d, services);
    NamesAreTasks(user);
    forall e <- image ensures e.1 != first {
      NodesAreTasks(user, user[d].edges, e);
    }
    NotReached(image, names[user[d].children[0].name], first);
  }

  lemma FirstLeadsTo(system: seq<Task>, user: seq<Task>, d: nat, services: Names, t: Task)
    requires Rooted(system, user) && Closed(user) && OnlyDag(user, d) && UniqueTasks(user) && t in user
    requires user[d].children != [] && Reaches(NameEdges(user[d].edges), user[d].children[0].name, t.name)
    ensures Reaches(MergedGraph(system, user, services), FirstChildAt(system, user, d, services), t.uuid)
  {
    hide NamesOf, FirstChildAt, PointAll, UuidEdges, NameEdges, Reaches, Rooted, UniqueTasks, MergedGraph;
    var names := NamesOf(user);
    var image := UuidEdges(PointAll(user[d].edges, names));
    MergedGraphIs(system, user, d, services);
    NamesAreTasks(user);
    PointedIsRenamed(user[d].edges, names);
    RenameKeepsReach(NameEdges(user[d].edges), names, image, user[d].children[0].name, t.name);
    ReachThroughEdge(image, FirstChildAt(system, user, d, services), names[user[d].children[0].name], t.uuid);
  }

  /** What no edge leads into is only reached from itself. */
  lemma NotReached(edges: Edges, a: string, b: string)
    requires a != b && forall e <- edges :: e.1 != b
    ensures !Reaches(edges, a, b)
  {
    forall p: seq<string> ensures !WalkFromTo(edges, p, a, b) {
      if Walk(edges, p) && |p| > 1 {
        assert (p[|p| - 2], p[|p| - 1]) in edges;
      }
    }
  }

  /**
   Every edge end the merge sets carries the uuid of the user task it names, and when edges name no
   DAG that uuid is a child of the merged DAG.
   */
  lemma {:induction false} EdgeEndsAreChildren(system: seq<Task>, user: seq<Task>, d: nat, services: Names, e: Edge)
    requires Rooted(system, user) && Closed(user) && OnlyDag(user, d) && UniqueTasks(user)
    requires e in user[d].edges && e.to.name != Some(user[d].name) && e.from.name != Some(user[d].name)
    ensures e.from.name.Some? && e.to.name.Some?
    ensures var merged := MergedTasks(system, user, services)[0];
      var pointed := Edge(Point(e.from, NamesOf(user)), Point(e.to, NamesOf(user)));
      && pointed in merged.edges
      && exists s, t | s in user && t in user ::
           && s.name == e.from.name.value && t.name == e.to.name.value
           && pointed.from == e.from.(uuid := Some(s.uuid)) && pointed.to == e.to.(uuid := Some(t.uuid))
           && Child(s.name, s.uuid) in merged.children && Child(t.name, t.uuid) in merged.children
  {
    hide MergedDag, NamesOf, PointAll, OwnTasks;
    var names := NamesOf(user);
    assert user[d] in user;
    PointedEdgeKept(system, user, d, services, e);
    var s := NamedTask(system[0], user, d, services, e.from);
    var t := NamedTask(system[0], user, d, services, e.to);
  }

  lemma PointedEdgeKept(system: seq<Task>, user: seq<Task>, d: nat, services: Names, e: Edge)
    requires Rooted(system, user) && Closed(user) && OnlyDag(user, d) && e in user[d].edges
    ensures Edge(Point(e.from, NamesOf(user)), Point(e.to, NamesOf(user))) in MergedDag(system[0], user, services,
          NamesOf(user)).edges
  {
    var names := NamesOf(user);
    assert user[d] in user;
    HasFirstChild(system, user, d, services, names);
    DagEdges(system[0], user, d, services, names);
    var i :| 0 <= i < |user[d].edges| && user[d].edges[i] == e;
    assert PointAll(user[d].edges, names)[i] in PointAll(user[d].edges, names);
  }

  /** The task an edge end names: its uuid is what the end gets, and it is a child of the merged DAG. */
  lemma NamedTask(dag: Task, user: seq<Task>, d: nat, services: Names, e: EdgeEnd) returns (t: Task)
    requires OnlyDag(user, d) && UniqueTasks(user)
    requires e.name.Some? && e.name.value in NamesOf(user) && e.name != Some(user[d].name)
    ensures t in user && t.name == e.name.value && Point(e, NamesOf(user)) == e.(uuid := Some(t.uuid))
    ensures Child(t.name, t.uuid) in MergedDag(dag, user, services, NamesOf(user)).children
  {
    NamesAreTasks(user);
    t :| t in user && t.name == e.name.value && t.uuid == NamesOf(user)[e.name.value];
    TaskIsChild(dag, user, d, services, NamesOf(user), t);
  }

  lemma TaskIsChild(dag: Task, user: seq<Task>, d: nat, services: Names, names: Names, t: Task)
    requires OnlyDag(user, d) && t in user && t.name != user[d].name
    ensures Child(t.name, t.uuid) in MergedDag(dag, user, services, names).children
  {
    var i :| 0 <= i < |user| && user[i] == t;
    DagChildren(dag, user, services, names);
    OwnTaskKept(user, services, i);
    var own := OwnTasks(user, services);
    var k :| 0 <= k < |own| && own[k] == Placed(t, services);
    ChildrenLength(own);
    assert ChildrenOf(own)[k] == Child(t.name, t.uuid);
  }

  lemma {:induction false} OwnTaskKept(user: seq<Task>, services: Names, i: nat)
    requires i < |user| && !IsDag(user[i])
    ensures Placed(user[i], services) in OwnTasks(user, services)
  {
    if i < |user| - 1 {
      OwnTaskKept(user[..|user|-1], services, i);
    }
  }

  /** The places of all tasks that are no DAG, in order. */
  ghost predicate OwnPlaces(user: seq<Task>, at: seq<nat>) {
    && (forall i | 0 <= i < |at| :: at[i] < |user| && IsOwn(user[at[i]]))
    && (forall i, k | 0 <= i < k < |at| :: at[i] < at[k])
    && (forall n: nat | n < |user| && IsOwn(user[n]) :: n in at)
  }

  predicate IsOwn(t: Task) {
    t.kind != "DAG"
  }

  /** A target with the uuid of the service of its name. */
  function TargetFor(target: Option<Target>, services: Names): Option<Target> {
    match target
    case None => None
    case Some(t) => Some(if t.name in services then Target(t.name, Some(services[t.name])) else t)
  }

  /** A task as it is appended. */
  function Served(t: Task, services: Names): Task {
    t.(target := TargetFor(t.target, services))
  }

  lemma {:induction false} OwnTasksAre(user: seq<Task>, services: Names) returns (at: seq<nat>)
    ensures OwnPlaces(user, at) && |at| == |OwnTasks(user, services)|
    ensures forall i | 0 <= i < |at| :: OwnTasks(user, services)[i] == Served(user[at[i]], services)
  {
    if user == [] {
      at := [];
    } else {
      var n := |user| - 1;
      var before := OwnTasksAre(user[..n], services);
      at := if IsOwn(user[n]) then before + [n] else before;
      PlacesGrow(user, before);
      LastOwn(user, services);
      hide OwnPlaces, IsOwn, IsDag, OwnTasks, Served;
      assert forall i | 0 <= i < |before| :: user[..n][before[i]] == user[before[i]];
    }
  }

  lemma LastOwn(user: seq<Task>, services: Names)
    requires user != []
    ensures var t := user[|user|-1];
      OwnTasks(user, services)
      == OwnTasks(user[..|user|-1], services) + (if IsOwn(t) then [Served(t, services)] else [])
  {
  }

  lemma PlacesGrow(user: seq<Task>, before: seq<nat>)
    requires user != [] && OwnPlaces(user[..|user|-1], before)
    ensures OwnPlaces(user, if IsOwn(user[|user|-1]) then before + [|user| - 1] else before)
    ensures forall i | 0 <= i < |before| :: before[i] < |user| - 1
  {
    hide IsOwn;
    var n := |user| - 1;
    var at := if IsOwn(user[n]) then before + [n] else before;
    forall m: nat | m < |user| && IsOwn(user[m]) ensures m in at {
      if m < n {
        assert IsOwn(user[..n][m]);
        assert m in before;
      }
    }
  }

  /**
   Every user task that is no DAG is appended, in order, with the uuid of the service of its target's
   name, and becomes a child of the system DAG; other system tasks only lose what the server added.
   */
  lemma MergeGrowth(system: seq<Task>, user: seq<Task>, services: Names) returns (at: seq<nat>)
    requires system != []
    ensures OwnPlaces(user, at)
    ensures var merged := MergedTasks(system, user, services);
      && |merged| == |system| + |at|
      && (forall i | 1 <= i < |system| :: merged[i] == system[i].(state := None, messages := None))
      && (forall i | 0 <= i < |at| ::
            merged[|system| + i] == Served(user[at[i]], services).(state := None, messages := None))
      && |merged[0].children| == |system[0].children| + |at|
      && (forall i | 0 <= i < |system[0].children| :: merged[0].children[i] == system[0].children[i])
      && (forall i | 0 <= i < |at| ::
            merged[0].children[|system[0].children| + i] == Child(user[at[i]].name, user[at[i]].uuid))
  {
    at := OwnTasksAre(user, services);
    var own := OwnTasks(user, services);
    hide MergedDag, OwnTasks, ChildrenOf, CleanAll, TargetFor, OwnPlaces, NamesOf;
    assert forall i | 0 <= i < |at| :: at[i] < |user| by {
      PlacesBelow(user, at);
    }
    DagChildren(system[0], user, services, NamesOf(user));
    ChildrenLength(own);
    JoinedTasks(MergedDag(system[0], user, services, NamesOf(user)), system, own);
  }

  lemma PlacesBelow(user: seq<Task>, at: seq<nat>)
    requires OwnPlaces(user, at)
    ensures forall i | 0 <= i < |at| :: at[i] < |user|
  {
  }

  /** The uuid under a name is that of the last task of the name. */
  lemma {:induction false} NamesAreLast(tasks: seq<Task>, k: nat)
    requires k < |tasks| && forall m | k < m < |tasks| :: tasks[m].name != tasks[k].name
    ensures tasks[k].name in NamesOf(tasks) && NamesOf(tasks)[tasks[k].name] == tasks[k].uuid
  {
    if k < |tasks| - 1 {
      NamesAreLast(tasks[..|tasks|-1], k);
    }
  }

  /** The edge into the user's graph starts at the system's first child, or else at the user's first own task. */
  lemma FirstChildIs(system: seq<Task>, user: seq<Task>, d: nat, services: Names)
    requires Rooted(system, user) && d < |user| && IsDag(user[d])
    ensures system[0].children != [] ==> FirstChildAt(system, user, d, services) == system[0].children[0].uuid
    ensures forall k | 0 <= k < d && user[k].kind != "DAG" && (forall i | 0 <= i < k :: user[i].kind == "DAG") ::
              system[0].children == [] ==> FirstChildAt(system, user, d, services) == user[k].uuid
  {
    HasFirstChild(system, user, d, services, NamesOf(user));
    DagChildren(system[0], user[..d], services, NamesOf(user));
    var own := OwnTasks(user[..d], services);
    ChildrenLength(own);
    forall k | 0 <= k < d && user[k].kind != "DAG" && (forall i | 0 <= i < k :: user[i].kind == "DAG")
      ensures own != [] && own[0].uuid == user[k].uuid
    {
      FirstOwn(user[..d], k, services);
    }
  }

  lemma {:induction false} FirstOwn(user: seq<Task>, k: nat, services: Names)
    requires k < |user| && user[k].kind != "DAG" && forall i | 0 <= i < k :: user[i].kind == "DAG"
    ensures OwnTasks(user, services) != [] && OwnTasks(user, services)[0].uuid == user[k].uuid
  {
    var n := |user| - 1;
    if k < n {
      FirstOwn(user[..n], k, services);
    } else {
      NoneOwn(user[..n], services);
    }
  }

  lemma {:induction false} NoneOwn(user: seq<Task>, services: Names)
    requires forall i | 0 <= i < |user| :: user[i].kind == "DAG"
    ensures OwnTasks(user, services) == []
  {
    if user != [] {
      NoneOwn(user[..|user|-1], services);
    }
  }

  lemma JoinedTasks(dag: Task, system: seq<Task>, own: seq<Task>)
    requires system != []
    ensures var all := [dag] + system[1..] + own;
      && |all| == |system| + |own| && all[0] == dag
      && (forall i | 1 <= i < |system| :: all[i] == system[i])
      && (forall i | 0 <= i < |own| :: all[|system| + i] == own[i])
  {
  }

  /** The user's list without its DAG. */
  function Others(user: seq<Task>, d: nat): seq<Task>
    requires d < |user|
  {
    user[..d] + user[d+1..]
  }

  lemma {:induction false} OwnOfOthers(user: seq<Task>, d: nat, services: Names)
    requires OnlyDag(user, d)
    ensures OwnTasks(user, services) == OwnTasks(Others(user, d), services)
  {
    hide Placed;
    var n := |user| - 1;
    if d == n {
      assert Others(user, d) == user[..n];
      assert OwnTasks(user[..n], services) + [] == OwnTasks(user[..n], services);
    } else {
      OwnOfOthers(user[..n], d, services);
      LastOfOthers(user, d);
    }
  }

  lemma LastOfOthers(user: seq<Task>, d: nat)
    requires d < |user| - 1
    ensures var n, o := |user| - 1, Others(user, d);
      o != [] && o[|o|-1] == user[n] && o[..|o|-1] == Others(user[..n], d)
  {
  }

  lemma NamesByTask(user: seq<Task>, other: seq<Task>)
    requires UniqueTasks(user) && UniqueTasks(other)
    requires forall t :: t in user <==> t in other
    ensures NamesOf(user) == NamesOf(other)
  {
    NamesAreTasks(user);
    NamesAreTasks(other);
  }

  lemma OthersMembers(user: seq<Task>, d: nat)
    requires d < |user|
    ensures forall t :: t in user <==> t == user[d] || t in Others(user, d)
  {
    assert user == user[..d] + [user[d]] + user[d+1..];
  }

  lemma {:induction false} OwnPrefix(user: seq<Task>, services: Names, d: nat)
    requires d <= |user|
    ensures OwnTasks(user[..d], services) <= OwnTasks(user, services)
  {
    if d == |user| {
      assert user[..d] == user;
    } else {
      OwnPrefix(user[..|user|-1], services, d);
      assert user[..|user|-1][..d] == user[..d];
    }
  }

  /** Once the system DAG has a first child, that child stays first. */
  lemma FirstChildIsFirst(system: seq<Task>, user: seq<Task>, d: nat, services: Names)
    requires Rooted(system, user) && d < |user| && IsDag(user[d])
    ensures var children := system[0].children + ChildrenOf(OwnTasks(user, services));
      children != [] && FirstChildAt(system, user, d, services) == children[0].uuid
  {
    var names := NamesOf(user);
    HasFirstChild(system, user, d, services, names);
    DagChildren(system[0], user[..d], services, names);
    OwnPrefix(user, services, d);
    ChildrenLength(OwnTasks(user[..d], services));
    ChildrenLength(OwnTasks(user, services));
  }

  lemma {:induction false} DagRest(dag: Task, user: seq<Task>, services: Names, names: Names)
    ensures var m := MergedDag(dag, user, services, names); m == dag.(children := m.children, edges := m.edges)
  {
    if user != [] {
      DagRest(dag, user[..|user|-1], services, names);
    }
  }

  /** The merged DAG, put together from the user's own tasks and its one DAG. */
  lemma MergedDagIs(system: seq<Task>, user: seq<Task>, d: nat, services: Names)
    requires Rooted(system, user) && OnlyDag(user, d) && user[d].children != []
    ensures var children := system[0].children + ChildrenOf(OwnTasks(user, services));
      children != [] &&
      MergedDag(system[0], user, services, NamesOf(user)) == system[0].(
        children := children,
        edges := [FirstEdge(children[0].uuid, user[d], NamesOf(user))] + PointAll(user[d].edges, NamesOf(user)))
  {
    var names := NamesOf(user);
    HasFirstChild(system, user, d, services, names);
    DagChildren(system[0], user, services, names);
    DagEdges(system[0], user, d, services, names);
    FirstChildIsFirst(system, user, d, services);
    DagRest(system[0], user, services, names);
  }

  /** The merged runbook does not depend on where in the user's list the DAG stands. */
  lemma DagPositionIrrelevant(system: seq<Task>, user: seq<Task>, d: nat, other: seq<Task>, c: nat, services: Names)
    requires Rooted(system, user) && Rooted(system, other)
    requires UniqueTasks(user) && UniqueTasks(other) && OnlyDag(user, d) && OnlyDag(other, c)
    requires user[d] == other[c] && Others(user, d) == Others(other, c) && user[d].children != []
    ensures MergedTasks(system, user, services) == MergedTasks(system, other, services)
  {
    hide MergedDag, OwnTasks, NamesOf, FirstEdge, PointAll;
    OwnOfOthers(user, d, services);
    OwnOfOthers(other, c, services);
    OthersMembers(user, d);
    OthersMembers(other, c);
    NamesByTask(user, other);
    MergedDagIs(system, user, d, services);
    MergedDagIs(system, other, c, services);
  }

  /**
   A system DAG without a child of its own takes the user's first listed task as its first child. If
   that is also the task the user's DAG starts with, the merged DAG has a loop although the user's
   edges had none.
   */
  lemma NoSystemChildMakesLoop(services: Names)
    ensures var dag := Task("dag", "u0", "DAG", None, [], [], None, None);
      var a := Task("a", "ua", "EXEC", None, [], [], None, None);
      var d := Task("d", "ud", "DAG", None, [Child("a", "ua")], [], None, None);
      && Acyclic(NameEdges(d.edges)) && Rooted([dag], [a, d]) && Closed([a, d])
      && !Acyclic(MergedGraph([dag], [a, d], services))
  {
    var dag := Task("dag", "u0", "DAG", None, [], [], None, None);
    var a := Task("a", "ua", "EXEC", None, [], [], None, None);
    var d := Task("d", "ud", "DAG", None, [Child("a", "ua")], [], None, None);
    SmallNames(a, d);
    forall i | 0 <= i < 2 && IsDag([a, d][i]) ensures exists k | 0 <= k < i :: !IsDag([a, d][k]) {
      assert i == 1 && !IsDag([a, d][0]);
    }
    NoEdges();
    SmallGraph(dag, a, d, services);
    assert Cycle(MergedGraph([dag], [a, d], services), ["ua", "ua"]);
  }

  lemma SmallNames(a: Task, d: Task)
    requires a.name != d.name
    ensures NamesOf([a, d]) == map[a.name := a.uuid, d.name := d.uuid]
  {
    assert [a, d][..1] == [a] && [a][..0] == [];
    assert NamesOf([a]) == map[a.name := a.uuid];
  }

  lemma SmallGraph(dag: Task, a: Task, d: Task, services: Names)
    requires dag.children == [] && !IsDag(a) && IsDag(d) && a.target == None && a.name != d.name
    requires d.children == [Child(a.name, a.uuid)] && d.edges == []
    ensures Rooted([dag], [a, d]) && (a.uuid, a.uuid) in MergedGraph([dag], [a, d], services)
  {
    hide MergedDag;
    SmallNames(a, d);
    forall i | 0 <= i < 2 && IsDag([a, d][i]) ensures exists k | 0 <= k < i :: !IsDag([a, d][k]) {
      assert i == 1 && !IsDag([a, d][0]);
    }
    MergedGraphIs([dag], [a, d], 1, services);
    FirstChildIsFirst([dag], [a, d], 1, services);
    assert [a, d][..1] == [a] && [a][..0] == [];
    assert OwnTasks([a], services) == OwnTasks([], services) + [a];
    assert OwnTasks([a, d], services) == OwnTasks([a], services) + [];
    ChildrenLength([a]);
  }

  lemma NoEdges()
    ensures Acyclic(NameEdges([]))
  {
    forall p: seq<string> ensures !Cycle(NameEdges([]), p) {
      if |p| > 1 {
        assert (p[0], p[1]) !in NameEdges([]);
      }
    }
  }

  // ----- whole profiles

  /** What `strip_patch_config_tasks` takes from one config. */
  function TasksOf(c: Config): seq<Task> {
    match c.runbook case None => [] case Some(r) => r.tasks
  }

  function ConfigTasks(configs: seq<Config>): map<string, seq<Task>> {
    if configs == [] then map[]
    else ConfigTasks(configs[..|configs|-1])[configs[|configs|-1].name := TasksOf(configs[|configs|-1])]
  }

  type ProfileTasks = map<string, map<string, seq<Task>>>

  function TasksByName(profiles: seq<Profile>): ProfileTasks {
    if profiles == [] then map[]
    else
      var p := profiles[|profiles|-1];
      TasksByName(profiles[..|profiles|-1])[p.name := ConfigTasks(p.configs)]
  }

  predicate UniqueConfigs(configs: seq<Config>) {
    forall i, k | 0 <= i < k < |configs| :: configs[i].name != configs[k].name
  }

  predicate UniqueProfiles(profiles: seq<Profile>) {
    && (forall i, k | 0 <= i < k < |profiles| :: profiles[i].name != profiles[k].name)
    && (forall p <- profiles :: UniqueConfigs(p.configs))
  }

  lemma {:induction false} ConfigTasksByName(configs: seq<Config>, i: nat)
    requires UniqueConfigs(configs) && i < |configs|
    ensures configs[i].name in ConfigTasks(configs) && ConfigTasks(configs)[configs[i].name] == TasksOf(configs[i])
  {
    if i < |configs| - 1 {
      ConfigTasksByName(configs[..|configs|-1], i);
    }
  }

  lemma {:induction false} ProfileTasksByName(profiles: seq<Profile>, i: nat)
    requires UniqueProfiles(profiles) && i < |profiles|
    ensures profiles[i].name in TasksByName(profiles)
    ensures TasksByName(profiles)[profiles[i].name] == ConfigTasks(profiles[i].configs)
  {
    if i < |profiles| - 1 {
      ProfileTasksByName(profiles[..|profiles|-1], i);
    }
  }

  /** The user tasks found for a config the server reports: by profile name, then by config name. */
  function UserTasks(tasks: ProfileTasks, profile: string, config: string): Option<seq<Task>> {
    if profile in tasks && config in tasks[profile] then Some(tasks[profile][config]) else None
  }

  predicate ServicesKnown(user: seq<Task>, services: Names) {
    forall t <- user :: !Unplaced(t, services)
  }

  /** Merging a reported config needs its tasks, a first system task, and what `MergeConfig` needs. */
  predicate Mergeable(c: Config, profile: string, tasks: ProfileTasks) {
    c.runbook.Some? ==>
      && UserTasks(tasks, profile, c.name).Some?
      && Rooted(c.runbook.value.tasks, UserTasks(tasks, profile, c.name).value)
      && Closed(UserTasks(tasks, profile, c.name).value)
  }

  predicate AllMergeable(status: seq<Profile>, tasks: ProfileTasks) {
    forall p <- status, c <- p.configs :: Mergeable(c, p.name, tasks)
  }

  function MergedConfig(c: Config, profile: string, tasks: ProfileTasks, services: Names): Config
    requires Mergeable(c, profile, tasks)
  {
    match c.runbook
    case None => c
    case Some(r) =>
      var merged := MergedTasks(r.tasks, UserTasks(tasks, profile, c.name).value, services);
      c.(runbook := Some(Runbook(merged, None, None)))
  }

  function MergedProfile(p: Profile, tasks: ProfileTasks, services: Names): Profile
    requires forall c <- p.configs :: Mergeable(c, p.name, tasks)
  {
    p.(configs := seq(|p.configs|, i requires 0 <= i < |p.configs| =>
      MergedConfig(p.configs[i], p.name, tasks, services)))
  }

  /** The configs whose tasks name a service the server does not know stop the whole merge. */
  ghost predicate AllPlaced(status: seq<Profile>, tasks: ProfileTasks, services: Names) {
    forall p <- status, c <- p.configs ::
      c.runbook.Some? && UserTasks(tasks, p.name, c.name).Some? ==>
        ServicesKnown(UserTasks(tasks, p.name, c.name).value, services)
  }

  /** The two loops over the profiles the server reports. */
  method MergeProfiles(status: seq<Profile>, tasks: ProfileTasks, services: Names)
    returns (result: Outcome<seq<Profile>>)
    requires AllMergeable(status, tasks)
    ensures result.Done? <==> AllPlaced(status, tasks, services)
    ensures result.Done? ==> |result.value| == |status|
    ensures result.Done? ==>
              forall i | 0 <= i < |status| :: result.value[i] == MergedProfile(status[i], tasks, services)
  {
    var merged := status;
    var i := 0;
    while i < |status|
      invariant i <= |status| && |merged| == |status|
      invariant forall k | 0 <= k < i :: merged[k] == MergedProfile(status[k], tasks, services)
      invariant forall k | i <= k < |status| :: merged[k] == status[k]
      invariant AllPlaced(status[..i], tasks, services)
    {
      assert status[i] in status;
      var configs := MergeConfigs(status[i], tasks, services);
      if configs.ServiceMissing? {
        return ServiceMissing(configs.service);
      }
      merged := merged[i := merged[i].(configs := configs.value)];
      assert merged[i].configs == MergedProfile(status[i], tasks, services).configs;
      assert status[..i+1] == status[..i] + [status[i]];
      i := i + 1;
    }
    assert status[..i] == status;
    result := Done(merged);
  }

  method MergeConfigs(profile: Profile, tasks: ProfileTasks, services: Names) returns (result: Outcome<seq<Config>>)
    requires forall c <- profile.configs :: Mergeable(c, profile.name, tasks)
    ensures result.Done? <==> AllPlaced([profile], tasks, services)
    ensures result.Done? ==> result.value == MergedProfile(profile, tasks, services).configs
  {
    hide MergedTasks, Rooted, Closed;
    var configs := profile.configs;
    var i := 0;
    while i < |profile.configs|
      invariant i <= |profile.configs| && |configs| == |profile.configs|
      invariant forall k | 0 <= k < i :: configs[k] == MergedConfig(profile.configs[k], profile.name, tasks, services)
      invariant forall k | i <= k < |configs| :: configs[k] == profile.configs[k]
      invariant forall k | 0 <= k < i && profile.configs[k].runbook.Some? ::
                  UserTasks(tasks, profile.name, profile.configs[k].name).Some?
                  && ServicesKnown(UserTasks(tasks, profile.name, profile.configs[k].name).value, services)
    {
      var config := configs[i];
      assert config in profile.configs;
      if config.runbook.Some? {
        var user := UserTasks(tasks, profile.name, config.name).value;
        var merge := MergeConfig(config.runbook.value.tasks, user, services);
        if merge.ServiceMissing? {
          assert !ServicesKnown(user, services);
          assert profile in [profile];
          return ServiceMissing(merge.service);
        }
        configs := configs[i := config.(runbook := Some(Runbook(merge.value, None, None)))];
      }
      i := i + 1;
    }
    result := Done(configs);
  }

  /** A runbook was reported for every config, at its own position. */
  predicate AllReported(spec: seq<Profile>, merged: seq<Profile>) {
    |spec| <= |merged| && forall i | 0 <= i < |spec| :: RowReported(spec[i].configs, merged[i].configs)
  }

  predicate RowReported(configs: seq<Config>, merged: seq<Config>) {
    |configs| <= |merged| && forall k | 0 <= k < |configs| :: merged[k].runbook.Some?
  }

  /**
   The attachment: each spec config takes the runbook at its own position in the merged status, or
   an error is raised.
   */
  method AttachByPosition(spec: seq<Profile>, merged: seq<Profile>) returns (attached: Option<seq<Profile>>)
    ensures attached.Some? <==> AllReported(spec, merged)
    ensures attached.Some? ==> |attached.value| == |spec|
    ensures attached.Some? ==> forall i | 0 <= i < |spec| ::
                attached.value[i].name == spec[i].name
                    && IsAttached(attached.value[i].configs, spec[i].configs, merged[i].configs)
  {
    var profiles := spec;
    var i := 0;
    while i < |spec|
      invariant i <= |spec| && |profiles| == |spec|
      invariant i <= |merged| && forall m | 0 <= m < i :: RowReported(spec[m].configs, merged[m].configs)
      invariant forall m | i <= m < |spec| :: profiles[m] == spec[m]
      invariant forall m | 0 <= m < i ::
                  profiles[m].name == spec[m].name
                      && IsAttached(profiles[m].configs, spec[m].configs, merged[m].configs)
    {
      if i >= |merged| {
        return None;
      }
      var configs := AttachRow(spec[i].configs, merged[i].configs);
      if configs.None? {
        return None;
      }
      profiles := profiles[i := profiles[i].(configs := configs.value)];
      i := i + 1;
    }
    attached := Some(profiles);
  }

  /** Each config keeps all but its runbook. */
  predicate IsAttached(attached: seq<Config>, configs: seq<Config>, merged: seq<Config>) {
    && |attached| == |configs| <= |merged|
    && forall k | 0 <= k < |configs| :: attached[k] == configs[k].(runbook := merged[k].runbook)
  }

  method AttachRow(configs: seq<Config>, merged: seq<Config>) returns (attached: Option<seq<Config>>)
    ensures attached.Some? <==> RowReported(configs, merged)
    ensures attached.Some? ==> IsAttached(attached.value, configs, merged)
  {
    var row := configs;
    var k := 0;
    while k < |configs|
      invariant k <= |configs| == |row| && k <= |merged|
      invariant forall m | 0 <= m < k :: merged[m].runbook.Some?
      invariant forall m | k <= m < |configs| :: row[m] == configs[m]
      invariant forall m | 0 <= m < k :: row[m] == configs[m].(runbook := merged[m].runbook)
    {
      if k >= |merged| || merged[k].runbook.None? {
        return None;
      }
      row := row[k := row[k].(runbook := merged[k].runbook)];
      k := k + 1;
    }
    attached := Some(row);
  }

  /** The server reports the profiles and configs it was sent, in the same order. */
  predicate SameOrder(sent: seq<Profile>, status: seq<Profile>) {
    && |sent| == |status|
    && forall i | 0 <= i < |sent| ::
         && sent[i].name == status[i].name && |sent[i].configs| == |status[i].configs|
         && forall k | 0 <= k < |sent[i].configs| :: sent[i].configs[k].name == status[i].configs[k].name
  }

  /**
   Although user tasks are found by name and runbooks are attached by position: with unique names
   and one order, the config the user wrote at a position ends with the system's runbook for that
   position, extended by exactly the tasks the user wrote there.
   */
  lemma NameAndPositionAgree(profiles: seq<Profile>, status: seq<Profile>, services: Names, i: nat, k: nat)
    requires UniqueProfiles(profiles) && SameOrder(profiles, status)
    requires AllMergeable(status, TasksByName(profiles))
    requires i < |profiles| && k < |profiles[i].configs| && status[i].configs[k].runbook.Some?
    ensures forall c <- status[i].configs :: Mergeable(c, status[i].name, TasksByName(profiles))
    ensures status[i].configs[k].runbook.value.tasks != []
    ensures MergedProfile(status[i], TasksByName(profiles), services).configs[k].runbook
         == Some(Runbook(
                   MergedTasks(status[i].configs[k].runbook.value.tasks, TasksOf(profiles[i].configs[k]), services),
                   None, None))
  {
    hide MergedTasks;
    ProfileTasksByName(profiles, i);
    ConfigTasksByName(profiles[i].configs, k);
    assert status[i] in status && status[i].configs[k] in status[i].configs;
    assert Mergeable(status[i].configs[k], status[i].name, TasksByName(profiles));
  }
}
