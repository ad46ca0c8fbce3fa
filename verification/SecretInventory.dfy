/**
 Which secrets a payload has, place by place: names of members, paths and contexts are written out,
 and nothing is said about the order in which the strip comes to them. `SecretWalk` finds just these.
 */
module SecretInventory {
  import opened Options
  import opened JsonTree
  import opened SecretSites
  import opened SecretWalk
  import opened SecretEntities

  /** What was decompiled under a context. */
  function Under(decompiled: Decompiled, context: string): Known {
    if context in decompiled then decompiled[context] else map[]
  }

  predicate Typed(j: Json, k: string, name: string) {
    j.Obj? && k in j.fields && j.fields[k] == Str(name)
  }

  function NameOf(j: Json): string {
    if j.Obj? && "name" in j.fields && j.fields["name"].Str? then j.fields["name"].s else ""
  }

  /** Variables of an object without a name are recorded under the context itself. */
  function ListContext(obj: Json, field: string, context: string): string {
    if NameOf(obj) == "" then context else context + "." + NameOf(obj) + "." + field
  }

  // ----- variables

  /** A SECRET variable, header or argument. */
  predicate IsSecret(s: Site, v: Json, p: Path, f: Path, known: Known) {
    Typed(v, "type", "SECRET") && s == Site(Variable, p, f, OrNull(Get(v, "name")), Get(v, "value"), known)
  }

  /** The password of the HTTP task that fills a dynamic variable; nothing is ever known of it. */
  predicate IsOptionPassword(s: Site, v: Json, p: Path, f: Path) {
    var own := [Key("options"), Key("attrs"), Key("authentication")];
    var auth := Node(v, own);
    var password := [Key("basic_auth"), Key("password")];
    && Typed(auth, "auth_type", "basic")
    && s == Site(OptionPassword, p + (own + password), f + (own + password),
                 Node(auth, [Key("basic_auth"), Key("username")]),
                 Get(Node(auth, password), "value"), map[])
  }

  predicate OfVariable(s: Site, v: Json, p: Path, f: Path, known: Known) {
    IsSecret(s, v, p, f, known) || IsOptionPassword(s, v, p, f)
  }

  predicate OfRow(s: Site, rows: seq<Json>, i: nat, p: Path, f: Path, known: Known) {
    i < |rows| && OfVariable(s, rows[i], p + [Idx(i)], f + [Idx(i)], known)
  }

  /** One of the variables in list `field`. */
  ghost predicate OfList(s: Site, obj: Json, field: string, p: Path, f: Path, known: Known) {
    exists i: nat :: OfRow(s, Elements(obj, field), i, p + [Key(field)], f + [Key(field)], known)
  }

  // ----- actions

  /** The password of an HTTP task of an action. */
  predicate IsTaskPassword(s: Site, task: Json, p: Path, decompiled: Decompiled, context: string) {
    var auth := Node(task, [Key("attrs"), Key("authentication")]);
    var own := [Key("attrs"), Key("authentication"), Key("basic_auth"), Key("password")];
    && Typed(auth, "auth_type", "basic")
    && s == Site(TaskPassword, p + own, p + own, Node(auth, [Key("basic_auth"), Key("username")]),
                 Get(Node(auth, [Key("basic_auth"), Key("password")]), "value"), Under(decompiled, context
                                                                      + ".basic_auth"))
  }

  ghost predicate OfTask(s: Site, task: Json, p: Path, decompiled: Decompiled, context: string) {
    var here := context + "." + NameOf(task);
    Typed(task, "type", "HTTP")
    && (IsTaskPassword(s, task, p, decompiled, here)
        || OfList(s, OrNull(Get(task, "attrs")), "headers", p + [Key("attrs")], p + [Key("attrs")],
                  Under(decompiled, here + ".headers")))
  }

  ghost predicate OfTaskRow(s: Site, tasks: seq<Json>, t: nat, p: Path, decompiled: Decompiled, context: string) {
    t < |tasks| && OfTask(s, tasks[t], p + [Idx(t)], decompiled, context)
  }

  /** A variable or a task of an action's runbook. */
  ghost predicate OfRunbook(s: Site, runbook: Json, p: Path, decompiled: Decompiled, context: string) {
    || OfList(s, runbook, "variable_list", p, p, Under(decompiled, ListContext(runbook, "variable_list", context)))
    || exists t: nat ::
         OfTaskRow(s, Elements(runbook, "task_definition_list"), t, p + [Key("task_definition_list")], decompiled,
                   context + "." + NameOf(runbook) + ".task_definition_list")
  }

  /** The walk ends at the first action without a runbook. */
  predicate Reached(actions: seq<Json>, a: nat) {
    a < |actions| && forall b | 0 <= b <= a :: Truthy(OrNull(Get(actions[b], "runbook")))
  }

  ghost predicate OfAction(s: Site, actions: seq<Json>, a: nat, p: Path, decompiled: Decompiled, context: string) {
    Reached(actions, a)
    && OfRunbook(s, OrNull(Get(actions[a], "runbook")), p + [Idx(a)] + [Key("runbook")], decompiled,
                 context + "." + NameOf(actions[a]) + ".runbook")
  }

  ghost predicate OfActions(s: Site, obj: Json, p: Path, decompiled: Decompiled, context: string) {
    exists a: nat :: OfAction(s, Elements(obj, "action_list"), a, p + [Key("action_list")], decompiled, context)
  }

  // ----- authentication, and tasks of a runbook

  /** The password directly below `authentication`, filed below its `basic_auth`. */
  predicate IsAuthPassword(s: Site, obj: Json, p: Path, f: Path, decompiled: Decompiled, context: string) {
    var auth := Node(obj, [Key("authentication")]);
    var password := OrNull(Get(auth, "password"));
    && Typed(auth, "auth_type", "basic")
    && s == Site(AuthPassword, p + [Key("authentication"), Key("password")],
                 f + [Key("authentication")] + [Key("basic_auth"), Key("password")],
                 OrNull(Get(password, "name")), Get(password, "value"),
                 Under(decompiled, context + "." + NameOf(obj) + ".basic_auth"))
  }

  /** Secrets of the task at index `i`; those of a task with basic authentication are filed below an extra step. */
  ghost predicate OfRunbookTask(s: Site, tasks: seq<Json>, i: nat, p: Path, decompiled: Decompiled, context: string) {
    && i < |tasks|
    && var attrs := OrNull(Get(tasks[i], "attrs"));
       var at := p + [Key("task_definition_list"), Idx(i), Key("attrs")];
       var basic := Typed(Node(attrs, [Key("authentication")]), "auth_type", "basic");
       var filed := (if basic then p + [Key("runbook")] else p) + [Key("task_definition_list"), Idx(i), Key("attrs")];
       var here := context + "." + NameOf(tasks[i]);
       || (Typed(tasks[i], "type", "RT_OPERATION")
           && OfList(s, attrs, "inarg_list", at, at, Under(decompiled, ListContext(attrs, "inarg_list", ""))))
       || (Typed(tasks[i], "type", "HTTP")
           && (IsAuthPassword(s, attrs, at, filed, decompiled, here)
               || OfList(s, attrs, "headers", at, filed, Under(decompiled, here + ".headers"))))
  }

  // ----- objects and payloads

  /** All secrets of one object: variables, actions, tasks and authentication. */
  ghost predicate OfObject(s: Site, obj: Json, p: Path, decompiled: Decompiled, head: string) {
    var name := head + "." + NameOf(obj);
    || OfList(s, obj, "variable_list", p, p, Under(decompiled, ListContext(obj, "variable_list", head)))
    || OfActions(s, obj, p, decompiled, name + ".action_list")
    || (exists i: nat ::
          OfRunbookTask(s, Elements(obj, "task_definition_list"), i, p, decompiled, name + ".task_definition_list"))
    || IsAuthPassword(s, obj, p, p, decompiled, head)
  }

  ghost predicate OfEntity(s: Site, j: Json, k: string, i: nat, decompiled: Decompiled) {
    i < |Elements(j, k)| && OfObject(s, Elements(j, k)[i], [Key(k), Idx(i)], decompiled, k)
  }

  /** All secrets of a blueprint, runbook or endpoint, those of credentials and endpoint authentication aside. */
  ghost predicate OfPayload(s: Site, j: Json, lists: seq<string>, objects: seq<string>, decompiled: Decompiled) {
    || (exists k, i: nat | k in lists :: OfEntity(s, j, k, i, decompiled))
    || (exists k | k in objects :: OfObject(s, Node(j, [Key(k)]), [Key(k)], decompiled, k))
  }

  /** The same for a provider. */
  ghost predicate OfProvider(s: Site, j: Json, decompiled: Decompiled) {
    || (exists i: nat :: OfType(s, Elements(j, "resource_type_list"), i, decompiled))
    || OfList(s, j, "variable_list", [], [], Under(decompiled, ListContext(j, "variable_list", "variable_list")))
    || OfList(s, j, "auth_schema_list", [], [],
              Under(decompiled, ListContext(j, "auth_schema_list", "auth_schema_list")))
    || OfSection(s, j, [Key("endpoint_schema")], decompiled, "endpoint_schema_list")
    || OfSection(s, j, [Key("test_account"), Key("data")], decompiled, "test_account_variable_list")
    || OfActions(s, j, [], decompiled, "action_list")
  }

  ghost predicate OfType(s: Site, rows: seq<Json>, i: nat, decompiled: Decompiled) {
    && i < |rows|
    && var p := [Key("resource_type_list"), Idx(i)];
       || OfObject(s, rows[i], p, decompiled, "resource_type_list")
       || OfList(s, rows[i], "schema_list", p, p,
                 Under(decompiled, ListContext(rows[i], "schema_list", "resource_type_list")))
  }

  ghost predicate OfSection(s: Site, j: Json, p: Path, decompiled: Decompiled, context: string) {
    OfList(s, Node(j, p), "variable_list", p, p, Under(decompiled, ListContext(Node(j, p), "variable_list", context)))
  }

  // ----- from the inside out

  lemma TaskInRunbook(s: Site, runbook: Json, t: nat, p: Path, decompiled: Decompiled, context: string)
    requires t < |Elements(runbook, "task_definition_list")|
    requires OfTask(s, Elements(runbook, "task_definition_list")[t], p + [Key("task_definition_list")] + [Idx(t)],
                    decompiled,
                    context + "." + NameOf(runbook) + ".task_definition_list")
    ensures OfRunbook(s, runbook, p, decompiled, context)
  {
    hide OfTask, NameOf;
    assert OfTaskRow(s, Elements(runbook, "task_definition_list"), t, p + [Key("task_definition_list")], decompiled,
                     context + "." + NameOf(runbook) + ".task_definition_list");
  }

  lemma RunbookInObject(s: Site, obj: Json, a: nat, p: Path, decompiled: Decompiled, head: string)
    requires Reached(Elements(obj, "action_list"), a)
    requires var action := Elements(obj, "action_list")[a];
      OfRunbook(s, OrNull(Get(action, "runbook")), p + [Key("action_list")] + [Idx(a)] + [Key("runbook")], decompiled,
                head + "." + NameOf(obj) + ".action_list" + "." + NameOf(action) + ".runbook")
    ensures OfObject(s, obj, p, decompiled, head)
  {
    hide OfRunbook, NameOf, Reached;
    assert OfAction(s, Elements(obj, "action_list"), a, p + [Key("action_list")], decompiled,
                    head + "." + NameOf(obj) + ".action_list");
  }

  lemma ObjectInPayload(s: Site, j: Json, lists: seq<string>, objects: seq<string>, decompiled: Decompiled, k: string,
                        i: nat)
    requires k in lists && i < |Elements(j, k)| && OfObject(s, Elements(j, k)[i], [Key(k), Idx(i)], decompiled, k)
    ensures OfPayload(s, j, lists, objects, decompiled)
  {
    hide OfObject;
    assert OfEntity(s, j, k, i, decompiled);
  }

  // ----- the walk finds them, and nothing else

  lemma Read(j: Json)
    ensures NameOf(j) == Text(j, "name")
    ensures forall name :: Typed(j, "type", name) == HasType(j, name)
    ensures Typed(j, "auth_type", "basic") == IsBasic(j)
  {
  }

  lemma VariableIs(v: Json, p: Path, f: Path, known: Known, s: Site)
    requires Completes(VariableSites(v, p, f, known))
    ensures s in VariableSites(v, p, f, known) <==> OfVariable(s, v, p, f, known)
  {
    CompletesBoth(OwnSites(v, p, f, known), OptionSites(v, p, f));
    OwnIs(v, p, f, known, s);
    OptionIs(v, p, f, s);
    hide OwnSites, OptionSites, IsSecret, IsOptionPassword;
  }

  lemma OwnIs(v: Json, p: Path, f: Path, known: Known, s: Site)
    requires Completes(OwnSites(v, p, f, known))
    ensures s in OwnSites(v, p, f, known) <==> IsSecret(s, v, p, f, known)
  {
    Read(v);
    var sites := OwnSites(v, p, f, known);
    assert !VariableFits(v) ==> MissingAt(p, f) in sites;
  }

  lemma OptionIs(v: Json, p: Path, f: Path, s: Site)
    requires Completes(OptionSites(v, p, f))
    ensures s in OptionSites(v, p, f) <==> IsOptionPassword(s, v, p, f)
  {
    Read(Node(v, OPTION_AUTH));
    hide Lookup;
    var sites := OptionSites(v, p, f);
    assert !OptionFits(v) ==> MissingAt(p + (OPTION_AUTH + BASIC_PASSWORD), f
                                        + (OPTION_AUTH + BASIC_PASSWORD)) in sites;
  }

  lemma {:induction false} ListIs(rows: seq<Json>, p: Path, f: Path, known: Known, s: Site)
    requires Completes(ListSites(rows, p, f, known))
    ensures s in ListSites(rows, p, f, known) <==> exists i: nat :: OfRow(s, rows, i, p, f, known)
  {
    hide VariableSites, OfVariable, AllBased, Rows;
    if rows != [] {
      var n := |rows| - 1;
      var here := VariableSites(rows[n], p + [Idx(n)], f + [Idx(n)], known);
      CompletesBoth(ListSites(rows[..n], p, f, known), here);
      ListIs(rows[..n], p, f, known, s);
      VariableIs(rows[n], p + [Idx(n)], f + [Idx(n)], known, s);
      assert forall i: nat | i < n :: OfRow(s, rows, i, p, f, known) == OfRow(s, rows[..n], i, p, f, known);
      assert OfRow(s, rows, n, p, f, known) <==> s in here;
      assert forall i: nat :: OfRow(s, rows, i, p, f, known) ==> i <= n;
    }
  }

  lemma EntityIs(obj: Json, p: Path, f: Path, decompiled: Decompiled, field: string, context: string, s: Site)
    requires Completes(EntitySites(obj, p, f, decompiled, field, context))
    ensures var known := Under(decompiled, if field == "headers" then context else ListContext(obj, field, context));
      s in EntitySites(obj, p, f, decompiled, field, context) <==> OfList(s, obj, field, p, f, known)
  {
    Read(obj);
    PassedFits(obj, p, f, decompiled, field, context);
    hide ListSites, OfRow, EntityFits;
    ListIs(Elements(obj, field), p + [Key(field)], f + [Key(field)],
           SecretsOf(decompiled, EntityContext(obj, field, context)), s);
  }

  lemma PassedFits(obj: Json, p: Path, f: Path, decompiled: Decompiled, field: string, context: string)
    requires Completes(EntitySites(obj, p, f, decompiled, field, context))
    ensures EntityFits(obj, field)
    ensures EntitySites(obj, p, f, decompiled, field, context)
         == ListSites(Elements(obj, field), p + [Key(field)], f + [Key(field)],
                      SecretsOf(decompiled, EntityContext(obj, field, context)))
  {
    hide EntityFits, ListSites;
    var sites := EntitySites(obj, p, f, decompiled, field, context);
    assert !EntityFits(obj, field) ==> MissingAt(p + [Key(field)], f + [Key(field)]) in sites;
  }

  lemma HeadersAre(attrs: Json, p: Path, f: Path, decompiled: Decompiled, context: string, s: Site)
    requires Completes(HeaderSites(attrs, p, f, decompiled, context))
    ensures s in HeaderSites(attrs, p, f, decompiled, context)
            <==> OfList(s, attrs, "headers", p, f, Under(decompiled, context))
  {
    if Truthy(OrNull(Get(attrs, "headers"))) {
      hide EntitySites;
      EntityIs(attrs, p, f, decompiled, "headers", context, s);
    } else {
      assert Elements(attrs, "headers") == [];
    }
  }

  lemma TaskPasswordIs(task: Json, p: Path, decompiled: Decompiled, context: string, s: Site)
    requires Completes(TaskAuthSites(task, p, decompiled, context))
    ensures s in TaskAuthSites(task, p, decompiled, context) <==> IsTaskPassword(s, task, p, decompiled, context)
  {
    Read(Node(task, TASK_AUTH));
    assert TASK_AUTH + BASIC_PASSWORD == [Key("attrs"), Key("authentication"), Key("basic_auth"), Key("password")];
    hide Lookup;
    var sites := TaskAuthSites(task, p, decompiled, context);
    assert !TaskAuthFits(task) ==> MissingAt(p + (TASK_AUTH + BASIC_PASSWORD), p
                                             + (TASK_AUTH + BASIC_PASSWORD)) in sites;
  }

  lemma TaskIs(task: Json, p: Path, decompiled: Decompiled, context: string, s: Site)
    requires Completes(ActionTaskSites(task, p, decompiled, context))
    ensures s in ActionTaskSites(task, p, decompiled, context) <==> OfTask(s, task, p, decompiled, context)
  {
    Read(task);
    var sites := ActionTaskSites(task, p, decompiled, context);
    if sites != [] {
      assert sites[0] in sites && !Fails(sites[0]);
    }
    hide IsTaskPassword, OfList, TaskAuthSites, HeaderSites;
    if task.Obj? && HasType(task, "HTTP") && IsText(task, "name") {
      var attrs, here := OrNull(Get(task, "attrs")), context + "." + Text(task, "name");
      var auth, headers := TaskAuthSites(task, p, decompiled, here),
            HeaderSites(attrs, p + [ATTRS], p + [ATTRS], decompiled, here + ".headers");
      CompletesBoth(auth, headers);
      TaskPasswordIs(task, p, decompiled, here, s);
      HeadersAre(attrs, p + [ATTRS], p + [ATTRS], decompiled, here + ".headers", s);
    }
  }

  lemma {:induction false} TasksAre(tasks: seq<Json>, p: Path, decompiled: Decompiled, context: string, s: Site)
    requires Completes(ActionTaskListSites(tasks, p, decompiled, context))
    ensures s in ActionTaskListSites(tasks, p, decompiled, context)
       <==> exists t: nat :: OfTaskRow(s, tasks, t, p, decompiled, context)
  {
    hide ActionTaskSites, OfTask, AllBased, Rows;
    if tasks != [] {
      var n := |tasks| - 1;
      var here := ActionTaskSites(tasks[n], p + [Idx(n)], decompiled, context);
      CompletesBoth(ActionTaskListSites(tasks[..n], p, decompiled, context), here);
      TasksAre(tasks[..n], p, decompiled, context, s);
      TaskIs(tasks[n], p + [Idx(n)], decompiled, context, s);
      assert forall t: nat | t < n ::
          OfTaskRow(s, tasks, t, p, decompiled, context) == OfTaskRow(s, tasks[..n], t, p, decompiled, context);
      assert OfTaskRow(s, tasks, n, p, decompiled, context) <==> s in here;
      assert forall t: nat :: OfTaskRow(s, tasks, t, p, decompiled, context) ==> t <= n;
    }
  }

  lemma RunbookIs(runbook: Json, p: Path, decompiled: Decompiled, context: string, s: Site)
    requires Completes(ActionRunbookSites(runbook, p, decompiled, context))
    ensures s in ActionRunbookSites(runbook, p, decompiled, context) <==> OfRunbook(s, runbook, p, decompiled, context)
  {
    Read(runbook);
    var tasks := ActionTasksSites(runbook, p, decompiled, context);
    CompletesBoth(EntitySites(runbook, p, p, decompiled, "variable_list", context), tasks);
    assert !IsText(runbook, "name") || !Iterable(Get(runbook, TASKS.key))
        ==> MissingAt(p + [TASKS], p + [TASKS]) in tasks;
    hide EntitySites, OfList, OfTaskRow, ActionTaskListSites;
    EntityIs(runbook, p, p, decompiled, "variable_list", context, s);
    TasksAre(Elements(runbook, TASKS.key), p + [TASKS], decompiled, context + "." + Text(runbook, "name")
             + ".task_definition_list", s);
  }

  lemma ActionIs(action: Json, p: Path, decompiled: Decompiled, context: string, s: Site)
    requires Completes(OneActionSites(action, p, decompiled, context))
    ensures s in OneActionSites(action, p, decompiled, context)
       <==> OfRunbook(s, OrNull(Get(action, "runbook")), p + [Key("runbook")], decompiled, context + "."
                      + NameOf(action) + ".runbook")
  {
    Read(action);
    hide ActionRunbookSites, OfRunbook;
    var sites := OneActionSites(action, p, decompiled, context);
    assert !IsText(action, "name") ==> MissingAt(p, p) in sites;
    RunbookIs(RunbookOf(action), p + [Key("runbook")], decompiled, context + "." + Text(action, "name") + ".runbook",
              s);
  }

  lemma {:induction false} ActionListIs(actions: seq<Json>, p: Path, decompiled: Decompiled, context: string, s: Site)
    requires Completes(ActionListSites(actions, p, decompiled, context))
    ensures s in ActionListSites(actions, p, decompiled, context)
       <==> exists a: nat :: OfOneAction(s, actions, a, p, decompiled, context)
  {
    hide OneActionSites, OfRunbook, AllBased, Rows;
    if actions != [] {
      var n := |actions| - 1;
      var here := OneActionSites(actions[n], p + [Idx(n)], decompiled, context);
      CompletesBoth(ActionListSites(actions[..n], p, decompiled, context), here);
      ActionListIs(actions[..n], p, decompiled, context, s);
      ActionIs(actions[n], p + [Idx(n)], decompiled, context, s);
      assert forall a: nat | a < n ::
          OfOneAction(s, actions, a, p, decompiled, context) == OfOneAction(s, actions[..n], a, p, decompiled, context);
      assert OfOneAction(s, actions, n, p, decompiled, context) <==> s in here;
      assert forall a: nat :: OfOneAction(s, actions, a, p, decompiled, context) ==> a <= n;
    }
  }

  ghost predicate OfOneAction(s: Site, actions: seq<Json>, a: nat, p: Path, decompiled: Decompiled, context: string) {
    && a < |actions|
    && OfRunbook(s, OrNull(Get(actions[a], "runbook")), p + [Idx(a)] + [Key("runbook")], decompiled,
                 context + "." + NameOf(actions[a]) + ".runbook")
  }

  lemma ReachedIs(actions: seq<Json>, a: nat)
    ensures Reached(actions, a) <==> a < Walked(actions)
  {
    var n := Walked(actions);
    if n <= a < |actions| {
      assert !Truthy(OrNull(Get(actions[n], "runbook")));
    }
  }

  lemma ActionsAre(obj: Json, p: Path, decompiled: Decompiled, context: string, s: Site)
    requires Completes(ActionSites(obj, p, decompiled, context))
    ensures s in ActionSites(obj, p, decompiled, context) <==> OfActions(s, obj, p, decompiled, context)
  {
    var actions, q := Elements(obj, "action_list"), p + [Key("action_list")];
    var walked := actions[..Walked(actions)];
    var list, stop := ActionListSites(walked, q, decompiled, context), StopSites(actions, q);
    PassedActions(obj, p, decompiled, context);
    hide ActionSites, ActionListSites, OfRunbook, StopSites;
    CompletesBoth(list, stop);
    assert forall t | t in stop :: Fails(t);
    ActionListIs(walked, q, decompiled, context, s);
    forall a: nat
      ensures OfOneAction(s, walked, a, q, decompiled, context) <==> OfAction(s, actions, a, q, decompiled, context)
    {
      ReachedIs(actions, a);
      assert a < |walked| ==> walked[a] == actions[a];
    }
  }

  lemma PassedActions(obj: Json, p: Path, decompiled: Decompiled, context: string)
    requires Completes(ActionSites(obj, p, decompiled, context))
    ensures var actions, q := Elements(obj, "action_list"), p + [Key("action_list")];
      ActionSites(obj, p, decompiled, context)
      == ActionListSites(actions[..Walked(actions)], q, decompiled, context) + StopSites(actions, q)
  {
    hide ActionListSites, StopSites, Walked;
    var sites := ActionSites(obj, p, decompiled, context);
    assert !obj.Obj? || !Listable(Get(obj, "action_list"))
        ==> MissingAt(p + [Key("action_list")], p + [Key("action_list")]) in sites;
  }

  lemma AuthIs(obj: Json, p: Path, f: Path, decompiled: Decompiled, context: string, s: Site)
    requires Completes(AuthSites(obj, p, f, decompiled, context))
    ensures s in AuthSites(obj, p, f, decompiled, context) <==> IsAuthPassword(s, obj, p, f, decompiled, context)
  {
    Read(Node(obj, [Key("authentication")]));
    Read(obj);
    hide Lookup;
    var sites := AuthSites(obj, p, f, decompiled, context);
    assert !AuthFits(obj) ==> MissingAt(p + [Key("authentication"), Key("password")], f
                                        + [Key("authentication"), Key("password")]) in sites;
  }

  lemma RunbookTaskIs(tasks: seq<Json>, i: nat, p: Path, decompiled: Decompiled, context: string, s: Site)
    requires i < |tasks| && Completes(RunbookTaskSites(tasks[i], p, i, decompiled, context))
    ensures s in RunbookTaskSites(tasks[i], p, i, decompiled, context)
            <==> OfRunbookTask(s, tasks, i, p, decompiled, context)
  {
    var task := tasks[i];
    var attrs, at := OrNull(Get(task, "attrs")), p + [TASKS, Idx(i), ATTRS];
    var filed, here := TaskFile(attrs, p, i), context + "." + Text(task, "name");
    var sites := RunbookTaskSites(task, p, i, decompiled, context);
    Read(task);
    Read(Node(attrs, [Key("authentication")]));
    if sites != [] {
      assert sites[0] in sites && !Fails(sites[0]);
    }
    hide Lookup, AuthSites, HeaderSites, EntitySites, IsAuthPassword, OfList;
    if HasType(task, "RT_OPERATION") {
      EntityIs(attrs, at, at, decompiled, "inarg_list", "", s);
    } else if HasType(task, "HTTP") {
      CompletesBoth(AuthSites(attrs, at, filed, decompiled, here),
                    HeaderSites(attrs, at, filed, decompiled, here + ".headers"));
      AuthIs(attrs, at, filed, decompiled, here, s);
      HeadersAre(attrs, at, filed, decompiled, here + ".headers", s);
    }
  }

  lemma {:induction false} RunbookTasksAre(tasks: seq<Json>, p: Path, decompiled: Decompiled, context: string, s: Site)
    requires Completes(RunbookListSites(tasks, p, decompiled, context))
    ensures s in RunbookListSites(tasks, p, decompiled, context)
       <==> exists i: nat :: OfRunbookTask(s, tasks, i, p, decompiled, context)
  {
    hide RunbookTaskSites, IsAuthPassword, OfList, Rows, Headed, FiledAtRow;
    if tasks != [] {
      var n := |tasks| - 1;
      var here := RunbookTaskSites(tasks[n], p, n, decompiled, context);
      CompletesBoth(RunbookListSites(tasks[..n], p, decompiled, context), here);
      RunbookTasksAre(tasks[..n], p, decompiled, context, s);
      RunbookTaskIs(tasks, n, p, decompiled, context, s);
      assert forall i: nat | i < n ::
          OfRunbookTask(s, tasks, i, p, decompiled, context) == OfRunbookTask(s, tasks[..n], i, p, decompiled, context);
      assert forall i: nat :: OfRunbookTask(s, tasks, i, p, decompiled, context) ==> i <= n;
    }
  }

  /** The sites of an object are its secrets. */
  lemma ObjectIs(obj: Json, p: Path, decompiled: Decompiled, head: string, s: Site)
    requires Completes(AllSites(obj, p, decompiled, head))
    ensures s in AllSites(obj, p, decompiled, head) <==> OfObject(s, obj, p, decompiled, head)
  {
    var name := head + "." + NameOf(obj);
    PassedObject(obj, p, decompiled, head);
    hide AllSites, EntitySites, ActionSites, RunbookSites, AuthSites, RunbookListSites, OfList, OfActions,
         OfRunbookTask, IsAuthPassword;
    EntityIs(obj, p, p, decompiled, "variable_list", head, s);
    ActionsAre(obj, p, decompiled, name + ".action_list", s);
    RunbookTasksAre(Elements(obj, "task_definition_list"), p, decompiled, name + ".task_definition_list", s);
    AuthIs(obj, p, p, decompiled, head, s);
  }

  lemma PassedObject(obj: Json, p: Path, decompiled: Decompiled, head: string)
    requires Completes(AllSites(obj, p, decompiled, head))
    ensures var name := head + "." + NameOf(obj);
      var a, b := EntitySites(obj, p, p, decompiled, "variable_list", head),
            ActionSites(obj, p, decompiled, name + ".action_list");
      var c := RunbookListSites(Elements(obj, "task_definition_list"), p, decompiled, name + ".task_definition_list");
      var d := AuthSites(obj, p, p, decompiled, head);
      && AllSites(obj, p, decompiled, head) == a + b + c + d
      && Completes(a) && Completes(b) && Completes(c) && Completes(d)
  {
    hide EntitySites, ActionSites, RunbookListSites, AuthSites;
    Read(obj);
    var sites := AllSites(obj, p, decompiled, head);
    assert !IsText(obj, "name") ==> MissingAt(p + [Key("action_list")], p + [Key("action_list")]) in sites;
    var name := head + "." + NameOf(obj);
    var a, b := EntitySites(obj, p, p, decompiled, "variable_list", head),
          ActionSites(obj, p, decompiled, name + ".action_list");
    var c, d := RunbookSites(obj, p, decompiled, name + ".task_definition_list"),
          AuthSites(obj, p, p, decompiled, head);
    CompletesBoth(a, b);
    CompletesBoth(a + b, c);
    CompletesBoth(a + b + c, d);
    assert !Iterable(Get(obj, TASKS.key)) ==> MissingAt(p + [TASKS], p + [TASKS]) in c;
  }

  // ----- payloads

  lemma {:induction false} RowSitesAre(rows: seq<Json>, k: string, decompiled: Decompiled, s: Site)
    requires Completes(RowSites(rows, k, decompiled))
    ensures s in RowSites(rows, k, decompiled) <==> exists i: nat :: OfRowObject(s, rows, k, i, decompiled)
  {
    hide AllSites, OfObject;
    if rows != [] {
      var n := |rows| - 1;
      var here := AllSites(rows[n], [Key(k), Idx(n)], decompiled, k);
      CompletesBoth(RowSites(rows[..n], k, decompiled), here);
      RowSitesAre(rows[..n], k, decompiled, s);
      ObjectIs(rows[n], [Key(k), Idx(n)], decompiled, k, s);
      assert forall i: nat | i < n ::
          OfRowObject(s, rows, k, i, decompiled) == OfRowObject(s, rows[..n], k, i, decompiled);
      assert OfRowObject(s, rows, k, n, decompiled) <==> s in here;
      assert forall i: nat :: OfRowObject(s, rows, k, i, decompiled) ==> i <= n;
    }
  }

  ghost predicate OfRowObject(s: Site, rows: seq<Json>, k: string, i: nat, decompiled: Decompiled) {
    i < |rows| && OfObject(s, rows[i], [Key(k), Idx(i)], decompiled, k)
  }

  lemma OneListIs(j: Json, k: string, decompiled: Decompiled, s: Site)
    requires Completes(OneListSites(j, k, decompiled))
    ensures s in OneListSites(j, k, decompiled) <==> exists i: nat :: OfEntity(s, j, k, i, decompiled)
  {
    hide RowSites, OfObject;
    CompletesBoth(ListFault(j, k), RowSites(Elements(j, k), k, decompiled));
    RowSitesAre(Elements(j, k), k, decompiled, s);
    assert forall i: nat :: OfRowObject(s, Elements(j, k), k, i, decompiled) == OfEntity(s, j, k, i, decompiled);
    assert forall t | t in ListFault(j, k) :: Fails(t);
  }

  lemma {:induction false} ListsAre(j: Json, lists: seq<string>, decompiled: Decompiled, s: Site)
    requires Completes(ListsSites(j, lists, decompiled))
    ensures s in ListsSites(j, lists, decompiled) <==> exists k, i: nat | k in lists :: OfEntity(s, j, k, i, decompiled)
  {
    hide OneListSites, OfEntity;
    if lists != [] {
      var n := |lists| - 1;
      CompletesBoth(ListsSites(j, lists[..n], decompiled), OneListSites(j, lists[n], decompiled));
      ListsAre(j, lists[..n], decompiled, s);
      OneListIs(j, lists[n], decompiled, s);
      assert forall k :: k in lists <==> k in lists[..n] || k == lists[n];
    }
  }

  lemma {:induction false} ObjectsAre(j: Json, objects: seq<string>, decompiled: Decompiled, s: Site)
    requires Completes(ObjectsSites(j, objects, decompiled))
    ensures s in ObjectsSites(j, objects, decompiled)
       <==> exists k | k in objects :: OfObject(s, Node(j, [Key(k)]), [Key(k)], decompiled, k)
  {
    hide AllSites, OfObject, Lookup;
    if objects != [] {
      var n := |objects| - 1;
      CompletesBoth(ObjectsSites(j, objects[..n], decompiled),
                    AllSites(Node(j, [Key(objects[n])]), [Key(objects[n])], decompiled, objects[n]));
      ObjectsAre(j, objects[..n], decompiled, s);
      ObjectIs(Node(j, [Key(objects[n])]), [Key(objects[n])], decompiled, objects[n], s);
      assert forall k :: k in objects <==> k in objects[..n] || k == objects[n];
    }
  }

  /** What the strip of a payload stops at are exactly the secrets of the payload. */
  lemma PayloadSitesAre(j: Json, lists: seq<string>, objects: seq<string>, decompiled: Decompiled, s: Site)
    requires Completes(PayloadSites(j, lists, objects, decompiled))
    ensures s in PayloadSites(j, lists, objects, decompiled) <==> OfPayload(s, j, lists, objects, decompiled)
  {
    hide ListsSites, ObjectsSites, OfEntity, OfObject, Lookup;
    CompletesBoth(ListsSites(j, lists, decompiled), ObjectsSites(j, objects, decompiled));
    ListsAre(j, lists, decompiled, s);
    ObjectsAre(j, objects, decompiled, s);
  }

  /** A blueprint has five lists of objects. */
  lemma BlueprintSitesAre(j: Json, decompiled: Decompiled, s: Site)
    requires Completes(PayloadSites(j, BLUEPRINT_LISTS, [], decompiled))
    ensures s in PayloadSites(j, BLUEPRINT_LISTS, [], decompiled) <==>
      exists k, i: nat | k in {"service_definition_list", "package_definition_list", "substrate_definition_list",
                               "app_profile_list", "credential_definition_list"} :: OfEntity(s, j, k, i, decompiled)
  {
    hide OfEntity, PayloadSites;
    PayloadSitesAre(j, BLUEPRINT_LISTS, [], decompiled, s);
  }

  // ----- providers

  lemma TypeIs(row: Json, n: nat, decompiled: Decompiled, s: Site)
    requires Completes(ResourceTypeSites(row, [Key("resource_type_list"), Idx(n)], decompiled))
    ensures s in ResourceTypeSites(row, [Key("resource_type_list"), Idx(n)], decompiled)
       <==> OfType(s, seq(n + 1, i => row), n, decompiled)
  {
    var p := [Key("resource_type_list"), Idx(n)];
    hide AllSites, EntitySites, OfObject, OfList;
    CompletesBoth(AllSites(row, p, decompiled, "resource_type_list"),
                  EntitySites(row, p, p, decompiled, "schema_list", "resource_type_list"));
    ObjectIs(row, p, decompiled, "resource_type_list", s);
    EntityIs(row, p, p, decompiled, "schema_list", "resource_type_list", s);
  }

  lemma {:induction false} TypesAre(rows: seq<Json>, decompiled: Decompiled, s: Site)
    requires Completes(ResourceTypeListSites(rows, decompiled))
    ensures s in ResourceTypeListSites(rows, decompiled) <==> exists i: nat :: OfType(s, rows, i, decompiled)
  {
    hide ResourceTypeSites, OfObject, OfList;
    if rows != [] {
      var n := |rows| - 1;
      var here := ResourceTypeSites(rows[n], [Key("resource_type_list"), Idx(n)], decompiled);
      CompletesBoth(ResourceTypeListSites(rows[..n], decompiled), here);
      TypesAre(rows[..n], decompiled, s);
      TypeIs(rows[n], n, decompiled, s);
      assert forall i: nat | i < n :: OfType(s, rows, i, decompiled) == OfType(s, rows[..n], i, decompiled);
      assert OfType(s, rows, n, decompiled) <==> s in here;
      assert forall i: nat :: OfType(s, rows, i, decompiled) ==> i <= n;
    }
  }

  lemma TypesSitesAre(j: Json, decompiled: Decompiled, s: Site)
    requires Completes(TypesSites(j, decompiled))
    ensures s in TypesSites(j, decompiled)
            <==> exists i: nat :: OfType(s, Elements(j, "resource_type_list"), i, decompiled)
  {
    hide ResourceTypeListSites, OfType;
    CompletesBoth(ListFault(j, "resource_type_list"),
                  ResourceTypeListSites(Elements(j, "resource_type_list"), decompiled));
    TypesAre(Elements(j, "resource_type_list"), decompiled, s);
    assert forall t | t in ListFault(j, "resource_type_list") :: Fails(t);
  }

  lemma SectionIs(j: Json, p: Path, decompiled: Decompiled, context: string, s: Site)
    requires Completes(SectionSites(j, p, decompiled, context))
    ensures s in SectionSites(j, p, decompiled, context) <==> OfSection(s, j, p, decompiled, context)
  {
    hide EntitySites, Lookup;
    if Lookup(j, p).Some? {
      EntityIs(Node(j, p), p, p, decompiled, "variable_list", context, s);
    } else {
      assert Elements(Node(j, p), "variable_list") == [];
    }
  }

  lemma AccountIs(j: Json, decompiled: Decompiled, s: Site)
    requires Completes(AccountSites(j, decompiled))
    ensures s in AccountSites(j, decompiled)
       <==> OfSection(s, j, [Key("test_account"), Key("data")], decompiled, "test_account_variable_list")
  {
    hide SectionSites, OfSection;
    var sites := AccountSites(j, decompiled);
    var q := ACCOUNT_DATA + [Key("variable_list")];
    assert !ObjOrAbsent(Get(j, "test_account")) ==> MissingAt(q, q) in sites;
    SectionIs(j, ACCOUNT_DATA, decompiled, "test_account_variable_list", s);
  }

  /** What the strip of a provider stops at are exactly its secrets. */
  lemma ProviderSitesAre(j: Json, decompiled: Decompiled, s: Site)
    requires Completes(ProviderSites(j, decompiled))
    ensures s in ProviderSites(j, decompiled) <==> OfProvider(s, j, decompiled)
  {
    var a, b := TypesSites(j, decompiled), EntitySites(j, [], [], decompiled, "variable_list", "variable_list");
    var c := EntitySites(j, [], [], decompiled, "auth_schema_list", "auth_schema_list");
    var d, e := SectionSites(j, ENDPOINT_SCHEMA, decompiled, "endpoint_schema_list"), AccountSites(j, decompiled);
    var f := ActionSites(j, [], decompiled, "action_list");
    assert ProviderSites(j, decompiled) == a + b + c + d + e + f;
    hide TypesSites, EntitySites, SectionSites, AccountSites, ActionSites, ProviderSites, OfType, OfList, OfSection,
         OfActions;
    CompletesBoth(a + b + c + d + e, f);
    CompletesBoth(a + b + c + d, e);
    CompletesBoth(a + b + c, d);
    CompletesBoth(a + b, c);
    CompletesBoth(a, b);
    TypesSitesAre(j, decompiled, s);
    EntityIs(j, [], [], decompiled, "variable_list", "variable_list", s);
    EntityIs(j, [], [], decompiled, "auth_schema_list", "auth_schema_list", s);
    SectionIs(j, ENDPOINT_SCHEMA, decompiled, "endpoint_schema_list", s);
    AccountIs(j, decompiled, s);
    ActionsAre(j, [], decompiled, "action_list", s);
  }
}
