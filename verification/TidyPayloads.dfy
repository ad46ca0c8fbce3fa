/**
 Payloads whose members have the types their names promise, and in which basic authentication stands
 only where it is read from: nothing raises an error on them, and nothing but clashing names is lost.
 */
module TidyPayloads {
  import opened Options
  import opened JsonTree
  import opened SecretSites
  import opened SecretWalk
  import opened SecretRoundTrip
  import opened SecretPlaces
  import opened SecretPayload
  import opened SecretLaw
  import opened SecretEntities
  import opened SecretInventory

  predicate Named(v: Json) {
    v.Obj? && "name" in v.fields
  }

  predicate IsVariable(v: Json) {
    v.Obj? && "type" in v.fields && (Typed(v, "type", "SECRET") ==> "value" in v.fields)
  }

  /** Arguments of an operation are among its attributes. */
  predicate IsTask(v: Json) {
    Named(v) && (Typed(v, "type", "RT_OPERATION") ==> "attrs" in v.fields && v.fields["attrs"].Obj?)
  }

  predicate IsPassword(v: Json) {
    v.Obj? && "value" in v.fields && v.fields.Keys <= {"value", "attrs"}
  }

  /** A member of the type its name promises. */
  predicate Apt(k: string, v: Json) {
    && (k in {"name", "type", "auth_type", "username"} ==> v.Str?)
    && (k in {"attrs", "options"} ==> v.Obj? || v == Null)
    && (k == "runbook" ==> Named(v) || v == Null)
    && (k == "authentication" ==> v.Obj?)
    && (k == "password" ==> IsPassword(v))
    && (k in {"variable_list", "headers", "inarg_list"} ==> v.Arr? && forall x | x in v.items :: IsVariable(x))
    && (k == "action_list" ==> v.Arr? && forall x | x in v.items :: Named(x))
    && (k == "task_definition_list" ==> v.Arr? && forall x | x in v.items :: IsTask(x))
  }

  /** Basic authentication says with which password. */
  predicate Armed(v: Json) {
    Typed(v, "auth_type", "basic") ==> Lookup(v, [Key("basic_auth"), Key("password")]).Some?
  }

  /** All of the tree is so. */
  predicate Tidy(j: Json) {
    match j
    case Obj(fields) => Armed(j) && forall k | k in fields :: Apt(k, fields[k]) && Tidy(fields[k])
    case Arr(items) => forall x | x in items :: Tidy(x)
    case _ => true
  }

  predicate Basic(auth: Json) {
    Typed(auth, "auth_type", "basic")
  }

  /** Neither the object nor a task directly below it uses basic authentication. */
  predicate NotBasic(obj: Json) {
    && !Basic(Node(obj, [Key("authentication")]))
    && forall t | t in Elements(obj, "task_definition_list") ::
         Typed(t, "type", "HTTP") ==> !Basic(Node(t, [Key("attrs"), Key("authentication")]))
  }

  /** The lists and objects to walk, and what goes by name. */
  predicate Walkable(j: Json, lists: seq<string>, objects: seq<string>) {
    && (forall k | k in lists ::
          Get(j, k).None? || (Get(j, k).value.Arr? && forall x | x in Get(j, k).value.items :: Named(x) && NotBasic(x)))
    && (forall k | k in objects :: Named(Node(j, [Key(k)])) && NotBasic(Node(j, [Key(k)])))
  }

  predicate NamesTidy(j: Json) {
    var auth := OrNull(Get(j, "authentication"));
    && j.Obj?
    && (Get(j, "credential_definition_list").Some? ==> Get(j, "credential_definition_list").value.Arr?)
    && (forall c | c in Elements(j, "credential_definition_list") ::
          Named(c) && Lookup(c, [Key("secret"), Key("value")]).Some?)
    && (Typed(auth, "type", "basic") ==> "username" in auth.fields && "password" in auth.fields)
  }

  // ----- below a tidy node

  /** What is at a path of a tidy tree. */
  lemma {:induction false} TidyBelow(j: Json, p: Path)
    requires Tidy(j) && Lookup(j, p).Some?
    ensures Tidy(Lookup(j, p).value)
    ensures p != [] && p[|p|-1].Key? ==> Apt(p[|p|-1].key, Lookup(j, p).value)
  {
    hide Apt, Armed;
    if p != [] {
      var c := Child(j, p[0]).value;
      assert j.Arr? ==> c in j.items;
      TidyBelow(c, p[1..]);
      assert |p| > 1 ==> p[|p|-1] == p[1..][|p|-2];
    }
  }

  lemma TidyMember(j: Json, k: string)
    requires Tidy(j)
    ensures Get(j, k).Some? ==> Tidy(Get(j, k).value) && Apt(k, Get(j, k).value)
    ensures forall x | x in Elements(j, k) :: Tidy(x)
  {
    hide Apt, Armed;
  }

  lemma TextMember(j: Json, k: string)
    requires Tidy(j) && k in {"name", "username"}
    ensures Get(j, k).Some? ==> Get(j, k).value.Str?
  {
    TidyMember(j, k);
    hide Tidy;
  }

  lemma ObjectMember(j: Json, k: string)
    requires Tidy(j) && k in {"attrs", "authentication"}
    ensures Tidy(OrNull(Get(j, k)))
    ensures Get(j, k).Some? ==> Get(j, k).value.Obj? || (k == "attrs" && Get(j, k).value == Null)
  {
    TidyMember(j, k);
    TidyChild(j, k);
    hide Tidy;
  }

  lemma TidyNull()
    ensures Tidy(Null)
  {
  }

  lemma TidyChild(j: Json, k: string)
    requires Tidy(j)
    ensures Tidy(OrNull(Get(j, k)))
  {
    TidyNull();
    TidyMember(j, k);
    hide Tidy;
  }

  // ----- every site is found whole

  predicate Good(s: Site) {
    && s.kind != Missing && s.filed == s.path && s.value.Some?
    && (s.kind == Variable || (s.path != [] && s.path[|s.path|-1] == Key("password")))
  }

  predicate AllGood(sites: seq<Site>) {
    forall s | s in sites :: Good(s)
  }

  lemma GoodBoth(a: seq<Site>, b: seq<Site>)
    requires AllGood(a) && AllGood(b)
    ensures AllGood(a + b)
  {
    hide Good;
    assert forall s :: s in a + b <==> s in a || s in b;
  }

  /** The password of an authentication that is basic. */
  lemma ArmedPassword(auth: Json)
    requires Tidy(auth) && Basic(auth)
    ensures var password := [Key("basic_auth"), Key("password")];
      && Lookup(auth, password).Some? && IsPassword(Lookup(auth, password).value)
      && Hashable(Node(auth, [Key("basic_auth"), Key("username")]))
  {
    var password, user := [Key("basic_auth"), Key("password")], [Key("basic_auth"), Key("username")];
    assert Armed(auth);
    TidyBelow(auth, password);
    if Lookup(auth, user).Some? {
      TidyBelow(auth, user);
    }
    hide Lookup;
  }

  lemma AuthsAre(j: Json, p: Path)
    requires Tidy(j)
    ensures p != [] && p[|p|-1] == Key("authentication") ==> ObjOrFalsy(Node(j, p))
    ensures p != [] && (p[|p|-1] == Key("attrs") || p[|p|-1] == Key("options")) ==> ObjOrFalsy(Node(j, p))
    ensures Tidy(Node(j, p))
  {
    TidyNull();
    if Lookup(j, p).Some? {
      TidyBelow(j, p);
    }
    hide Lookup, Tidy;
  }

  lemma VariableGood(v: Json, p: Path, known: Known)
    requires Tidy(v) && IsVariable(v)
    ensures AllGood(VariableSites(v, p, p, known))
  {
    OwnGood(v, p, known);
    OptionGood(v, p);
    hide OwnSites, OptionSites, AllGood;
    GoodBoth(OwnSites(v, p, p, known), OptionSites(v, p, p));
  }

  lemma OwnGood(v: Json, p: Path, known: Known)
    requires Tidy(v) && IsVariable(v)
    ensures AllGood(OwnSites(v, p, p, known))
  {
    TidyMember(v, "name");
    hide Tidy;
  }

  lemma OptionGood(v: Json, p: Path)
    requires Tidy(v)
    ensures AllGood(OptionSites(v, p, p))
  {
    OptionFitting(v);
    hide Lookup, Tidy, OptionFits;
    var path := p + (OPTION_AUTH + BASIC_PASSWORD);
    assert path[|path|-1] == Key("password");
  }

  lemma OptionFitting(v: Json)
    requires Tidy(v)
    ensures OptionFits(v)
    ensures IsBasic(Node(v, OPTION_AUTH)) ==> Get(Node(Node(v, OPTION_AUTH), BASIC_PASSWORD), "value").Some?
  {
    var auth := Node(v, OPTION_AUTH);
    OptionNodes(v);
    if Basic(auth) {
      ArmedPassword(auth);
    }
    hide Lookup, Tidy, ObjOrFalsy;
  }

  lemma OptionNodes(v: Json)
    requires Tidy(v)
    ensures ObjOrFalsy(Node(v, OPTION_AUTH[..1])) && ObjOrFalsy(Node(v, OPTION_AUTH[..2]))
    ensures ObjOrFalsy(Node(v, OPTION_AUTH)) && Tidy(Node(v, OPTION_AUTH))
  {
    hide Lookup, Tidy, ObjOrFalsy;
    assert OPTION_AUTH[..1] == [Key("options")] && OPTION_AUTH[..2] == [Key("options"), Key("attrs")];
    AuthsAre(v, OPTION_AUTH[..1]);
    AuthsAre(v, OPTION_AUTH[..2]);
    AuthsAre(v, OPTION_AUTH);
  }

  lemma {:induction false} ListGood(rows: seq<Json>, p: Path, known: Known)
    requires forall x | x in rows :: Tidy(x) && IsVariable(x)
    ensures AllGood(ListSites(rows, p, p, known))
  {
    hide Tidy, IsVariable, VariableSites, Good;
    if rows != [] {
      var n := |rows| - 1;
      assert rows == rows[..n] + [rows[n]];
      ListGood(rows[..n], p, known);
      VariableGood(rows[n], p + [Idx(n)], known);
      GoodBoth(ListSites(rows[..n], p, p, known), VariableSites(rows[n], p + [Idx(n)], p + [Idx(n)], known));
    }
  }

  lemma EntityGood(obj: Json, p: Path, decompiled: Decompiled, field: string, context: string)
    requires Tidy(obj) && obj.Obj? && field in {"variable_list", "headers", "inarg_list"}
    ensures AllGood(EntitySites(obj, p, p, decompiled, field, context))
  {
    TidyMember(obj, field);
    TidyMember(obj, "name");
    ListGood(Elements(obj, field), p + [Key(field)], SecretsOf(decompiled, EntityContext(obj, field, context)));
    hide Tidy, IsVariable, ListSites, AllGood;
  }

  lemma HeadersGood(attrs: Json, p: Path, decompiled: Decompiled, context: string)
    requires Tidy(attrs)
    ensures AllGood(HeaderSites(attrs, p, p, decompiled, context))
  {
    if attrs.Obj? {
      EntityGood(attrs, p, decompiled, "headers", context);
    }
    hide EntitySites, Good;
  }

  // ----- actions

  lemma TaskAuthGood(task: Json, p: Path, decompiled: Decompiled, context: string)
    requires Tidy(task)
    ensures AllGood(TaskAuthSites(task, p, decompiled, context))
  {
    TaskFits(task);
    hide Lookup, Tidy, TaskAuthFits;
    var path := p + (TASK_AUTH + BASIC_PASSWORD);
    assert path[|path|-1] == Key("password");
  }

  lemma TaskFits(task: Json)
    requires Tidy(task)
    ensures TaskAuthFits(task)
    ensures IsBasic(Node(task, TASK_AUTH)) ==> Get(Node(Node(task, TASK_AUTH), BASIC_PASSWORD), "value").Some?
  {
    var auth := Node(task, TASK_AUTH);
    TaskNodes(task);
    if Basic(auth) {
      ArmedPassword(auth);
    }
    hide Lookup, Tidy, ObjOrFalsy;
  }

  lemma TaskNodes(task: Json)
    requires Tidy(task)
    ensures ObjOrFalsy(Node(task, TASK_AUTH[..1])) && ObjOrFalsy(Node(task, TASK_AUTH)) && Tidy(Node(task, TASK_AUTH))
  {
    hide Lookup, Tidy, ObjOrFalsy;
    assert TASK_AUTH[..1] == [Key("attrs")];
    AuthsAre(task, TASK_AUTH[..1]);
    AuthsAre(task, TASK_AUTH);
  }

  lemma ActionTaskGood(task: Json, p: Path, decompiled: Decompiled, context: string)
    requires Tidy(task) && Named(task)
    ensures AllGood(ActionTaskSites(task, p, decompiled, context))
  {
    TidyMember(task, "name");
    TidyChild(task, "attrs");
    var here, attrs := context + "." + Text(task, "name"), OrNull(Get(task, "attrs"));
    TaskAuthGood(task, p, decompiled, here);
    HeadersGood(attrs, p + [ATTRS], decompiled, here + ".headers");
    hide Tidy, TaskAuthSites, HeaderSites, AllGood;
    GoodBoth(TaskAuthSites(task, p, decompiled, here),
             HeaderSites(attrs, p + [ATTRS], p + [ATTRS], decompiled, here + ".headers"));
    NoneGood();
  }

  lemma NoneGood()
    ensures AllGood([])
  {
  }

  lemma {:induction false} ActionTaskListGood(tasks: seq<Json>, p: Path, decompiled: Decompiled, context: string)
    requires forall t | t in tasks :: Tidy(t) && Named(t)
    ensures AllGood(ActionTaskListSites(tasks, p, decompiled, context))
  {
    hide Tidy, Named, ActionTaskSites, Good;
    if tasks != [] {
      var n := |tasks| - 1;
      assert tasks == tasks[..n] + [tasks[n]];
      ActionTaskListGood(tasks[..n], p, decompiled, context);
      ActionTaskGood(tasks[n], p + [Idx(n)], decompiled, context);
      GoodBoth(ActionTaskListSites(tasks[..n], p, decompiled, context),
               ActionTaskSites(tasks[n], p + [Idx(n)], decompiled, context));
    }
  }

  lemma ActionRunbookGood(runbook: Json, p: Path, decompiled: Decompiled, context: string)
    requires Tidy(runbook) && Named(runbook)
    ensures AllGood(ActionRunbookSites(runbook, p, decompiled, context))
  {
    TidyMember(runbook, "name");
    TidyMember(runbook, TASKS.key);
    EntityGood(runbook, p, decompiled, "variable_list", context);
    ActionTaskListGood(Elements(runbook, TASKS.key), p + [TASKS], decompiled,
                       context + "." + Text(runbook, "name") + ".task_definition_list");
    hide Tidy, EntitySites, ActionTaskListSites, AllGood;
    GoodBoth(EntitySites(runbook, p, p, decompiled, "variable_list", context),
             ActionTasksSites(runbook, p, decompiled, context));
  }

  lemma OneActionGood(action: Json, p: Path, decompiled: Decompiled, context: string)
    requires Tidy(action) && Named(action) && Truthy(RunbookOf(action))
    ensures AllGood(OneActionSites(action, p, decompiled, context))
  {
    TidyMember(action, "name");
    TidyMember(action, "runbook");
    hide Tidy, ActionRunbookSites, AllGood;
    ActionRunbookGood(RunbookOf(action), p + [Key("runbook")], decompiled,
                      context + "." + Text(action, "name") + ".runbook");
  }

  lemma {:induction false} ActionListGood(actions: seq<Json>, p: Path, decompiled: Decompiled, context: string)
    requires forall a | a in actions :: Tidy(a) && Named(a) && Truthy(RunbookOf(a))
    ensures AllGood(ActionListSites(actions, p, decompiled, context))
  {
    hide Tidy, Named, RunbookOf, OneActionSites, Good;
    if actions != [] {
      var n := |actions| - 1;
      assert actions == actions[..n] + [actions[n]];
      ActionListGood(actions[..n], p, decompiled, context);
      OneActionGood(actions[n], p + [Idx(n)], decompiled, context);
      GoodBoth(ActionListSites(actions[..n], p, decompiled, context),
               OneActionSites(actions[n], p + [Idx(n)], decompiled, context));
    }
  }

  lemma ActionsGood(obj: Json, p: Path, decompiled: Decompiled, context: string)
    requires Tidy(obj) && obj.Obj?
    ensures AllGood(ActionSites(obj, p, decompiled, context))
  {
    var actions, q := Elements(obj, "action_list"), p + [Key("action_list")];
    TidyMember(obj, "action_list");
    var walked := actions[..Walked(actions)];
    forall a | a in walked ensures a in actions && Truthy(RunbookOf(a)) {
    }
    ActionListGood(walked, q, decompiled, context);
    assert StopSites(actions, q) == [] by {
      NamesAreText(actions);
    }
    hide Tidy, ActionListSites, AllGood;
    assert ActionListSites(walked, q, decompiled, context) + [] == ActionListSites(walked, q, decompiled, context);
  }

  lemma NamesAreText(rows: seq<Json>)
    requires forall x | x in rows :: Tidy(x) && Named(x)
    ensures forall i | 0 <= i < |rows| :: IsText(rows[i], "name")
  {
    forall i | 0 <= i < |rows| ensures IsText(rows[i], "name") {
      TidyMember(rows[i], "name");
    }
  }

  // ----- objects

  lemma RunbookTaskGood(task: Json, p: Path, i: nat, decompiled: Decompiled, context: string)
    requires Tidy(task) && IsTask(task)
    requires Typed(task, "type", "HTTP") ==> !Basic(Node(task, [Key("attrs"), Key("authentication")]))
    ensures AllGood(RunbookTaskSites(task, p, i, decompiled, context))
  {
    var attrs, at := OrNull(Get(task, "attrs")), p + [TASKS, Idx(i), ATTRS];
    NoneGood();
    ObjectMember(task, "attrs");
    if HasType(task, "RT_OPERATION") {
      EntityGood(attrs, at, decompiled, "inarg_list", "");
    } else if HasType(task, "HTTP") {
      TextMember(task, "name");
      HttpTaskGood(task, p, i, decompiled, context);
    }
    hide Tidy, EntitySites, HttpTaskSites, AllGood;
  }

  lemma HttpTaskGood(task: Json, p: Path, i: nat, decompiled: Decompiled, context: string)
    requires Tidy(task) && IsTask(task) && HasType(task, "HTTP")
    requires !Basic(Node(task, [Key("attrs"), Key("authentication")]))
    ensures var attrs, at := OrNull(Get(task, "attrs")), p + [TASKS, Idx(i), ATTRS];
      && HttpTaskFits(task)
      && AllGood(HttpTaskSites(attrs, at, TaskFile(attrs, p, i), decompiled, context + "." + Text(task, "name")))
  {
    var attrs, at := OrNull(Get(task, "attrs")), p + [TASKS, Idx(i), ATTRS];
    var here := context + "." + Text(task, "name");
    TextMember(task, "name");
    ObjectMember(task, "attrs");
    ObjectMember(attrs, "authentication");
    TextMember(attrs, "name");
    HeadersGood(attrs, at, decompiled, here + ".headers");
    NoAuth(task);
    OneStep(attrs, Key("authentication"));
    hide Tidy, HeaderSites, AllGood, Lookup, IsTask, Basic;
    assert TaskFile(attrs, p, i) == at;
    assert AuthSites(attrs, at, at, decompiled, here) == [];
    assert [] + HeaderSites(attrs, at, at, decompiled, here + ".headers")
        == HeaderSites(attrs, at, at, decompiled, here + ".headers");
  }

  lemma NoAuth(task: Json)
    requires !Basic(Node(task, [Key("attrs"), Key("authentication")]))
    ensures !IsBasic(Node(OrNull(Get(task, "attrs")), [Key("authentication")]))
  {
    var attrs, auth := [Key("attrs")], [Key("authentication")];
    assert [Key("attrs"), Key("authentication")] == attrs + auth;
    LookupSplit(task, attrs, auth);
    OneStep(task, attrs[0]);
  }

  lemma {:induction false} RunbookListGood(tasks: seq<Json>, p: Path, decompiled: Decompiled, context: string)
    requires forall t | t in tasks :: Tidy(t) && IsTask(t)
    requires forall t | t in tasks ::
                Typed(t, "type", "HTTP") ==> !Basic(Node(t, [Key("attrs"), Key("authentication")]))
    ensures AllGood(RunbookListSites(tasks, p, decompiled, context))
  {
    hide Tidy, IsTask, RunbookTaskSites, Good, Basic, Typed, Lookup;
    if tasks != [] {
      var n := |tasks| - 1;
      assert tasks == tasks[..n] + [tasks[n]];
      RunbookListGood(tasks[..n], p, decompiled, context);
      RunbookTaskGood(tasks[n], p, n, decompiled, context);
      GoodBoth(RunbookListSites(tasks[..n], p, decompiled, context),
               RunbookTaskSites(tasks[n], p, n, decompiled, context));
    }
  }

  lemma ObjectGood(obj: Json, p: Path, decompiled: Decompiled, head: string)
    requires Tidy(obj) && Named(obj) && NotBasic(obj)
    ensures AllGood(AllSites(obj, p, decompiled, head))
  {
    var name := head + "." + Text(obj, "name");
    TidyMember(obj, "name");
    EntityGood(obj, p, decompiled, "variable_list", head);
    ActionsGood(obj, p, decompiled, name + ".action_list");
    TasksGood(obj, p, decompiled, name + ".task_definition_list");
    NoObjectAuth(obj, p, decompiled, head);
    hide Tidy, NotBasic, EntitySites, ActionSites, RunbookSites, AuthSites, AllGood;
    var variables := EntitySites(obj, p, p, decompiled, "variable_list", head);
    var actions := ActionSites(obj, p, decompiled, name + ".action_list");
    var tasks := RunbookSites(obj, p, decompiled, name + ".task_definition_list");
    GoodBoth(variables, actions);
    GoodBoth(variables + actions, tasks);
    assert variables + actions + tasks + [] == variables + actions + tasks;
  }

  lemma TasksGood(obj: Json, p: Path, decompiled: Decompiled, context: string)
    requires Tidy(obj) && NotBasic(obj)
    ensures AllGood(RunbookSites(obj, p, decompiled, context))
  {
    TidyMember(obj, TASKS.key);
    RunbookListGood(Elements(obj, TASKS.key), p, decompiled, context);
    hide Tidy, NotBasic, RunbookListSites, AllGood;
  }

  lemma NoObjectAuth(obj: Json, p: Path, decompiled: Decompiled, head: string)
    requires Tidy(obj) && Named(obj) && NotBasic(obj)
    ensures AuthSites(obj, p, p, decompiled, head) == []
  {
    TidyMember(obj, "name");
    TidyMember(obj, "authentication");
    OneStep(obj, Key("authentication"));
    hide Tidy, Elements;
  }

  // ----- payloads

  lemma {:induction false} RowsGood(rows: seq<Json>, k: string, decompiled: Decompiled)
    requires forall x | x in rows :: Tidy(x) && Named(x) && NotBasic(x)
    ensures AllGood(RowSites(rows, k, decompiled))
  {
    hide Tidy, Named, NotBasic, AllSites, Good;
    if rows != [] {
      var n := |rows| - 1;
      assert rows == rows[..n] + [rows[n]];
      RowsGood(rows[..n], k, decompiled);
      ObjectGood(rows[n], [Key(k), Idx(n)], decompiled, k);
      GoodBoth(RowSites(rows[..n], k, decompiled), AllSites(rows[n], [Key(k), Idx(n)], decompiled, k));
    }
  }

  lemma {:induction false} ListsGood(j: Json, lists: seq<string>, decompiled: Decompiled)
    requires Tidy(j) && Walkable(j, lists, [])
    ensures AllGood(ListsSites(j, lists, decompiled))
  {
    if lists != [] {
      var n := |lists| - 1;
      assert lists[n] in lists;
      TidyMember(j, lists[n]);
      RowsGood(Elements(j, lists[n]), lists[n], decompiled);
      hide Tidy, Named, NotBasic, RowSites, AllGood, Apt;
      NoneGood();
      ListsGood(j, lists[..n], decompiled);
      assert OneListSites(j, lists[n], decompiled) == RowSites(Elements(j, lists[n]), lists[n], decompiled);
      GoodBoth(ListsSites(j, lists[..n], decompiled), OneListSites(j, lists[n], decompiled));
    }
  }

  lemma {:induction false} ObjectsGood(j: Json, objects: seq<string>, decompiled: Decompiled)
    requires Tidy(j) && Walkable(j, [], objects)
    ensures AllGood(ObjectsSites(j, objects, decompiled))
  {
    if objects != [] {
      var n := |objects| - 1;
      assert objects[n] in objects;
      OneStep(j, Key(objects[n]));
      TidyMember(j, objects[n]);
      var obj := Node(j, [Key(objects[n])]);
      ObjectGood(obj, [Key(objects[n])], decompiled, objects[n]);
      hide Tidy, Named, NotBasic, AllSites, Good;
      ObjectsGood(j, objects[..n], decompiled);
      GoodBoth(ObjectsSites(j, objects[..n], decompiled), AllSites(obj, [Key(objects[n])], decompiled, objects[n]));
    }
  }

  lemma TidyNames(j: Json)
    requires Tidy(j) && NamesTidy(j)
    ensures NamesFit(j, true)
  {
    TidyCredentials(j);
    TidyAuthentication(j);
    hide CredentialsStrippable, CredentialsPatchable, AuthStrippable, AuthPatchable, Tidy, NamesTidy;
  }

  lemma TidyCredentials(j: Json)
    requires Tidy(j) && NamesTidy(j)
    ensures CredentialsStrippable(j) && CredentialsPatchable(j)
  {
    TidyMember(j, "credential_definition_list");
    forall c | c in Elements(j, "credential_definition_list") ensures CredentialFits(c) && NameFits(c) {
      TextMember(c, "name");
    }
    hide Tidy, CredentialFits, NameFits, Apt, Named, Lookup;
  }

  lemma TidyAuthentication(j: Json)
    requires Tidy(j) && NamesTidy(j)
    ensures AuthStrippable(OrNull(Get(j, "authentication"))) && AuthPatchable(Get(j, "authentication"))
  {
    ObjectMember(j, "authentication");
    TextMember(OrNull(Get(j, "authentication")), "username");
    hide Tidy, Apt, Named, Lookup, Elements;
  }

  /** A site found whole in a tidy tree is walked to, and fits. */
  lemma GoodFits(j: Json, sites: seq<Site>, s: Site)
    requires Tidy(j) && WellPlaced(j, sites) && s in sites && Good(s)
    ensures Walks(j, s.filed) && Fitting(j, s)
  {
    assert Truthful(j, s);
    WalksToObject(j, s.path);
    if s.kind != Variable {
      PasswordBelow(j, s.path);
    }
    hide Lookup, Walks, Tidy, Arranged;
  }

  lemma {:induction false} PasswordBelow(j: Json, p: Path)
    requires Tidy(j) && Lookup(j, p).Some? && p != [] && p[|p|-1] == Key("password")
    ensures IsPassword(Lookup(j, p).value)
  {
    TidyBelow(j, p);
    hide Tidy, Lookup;
  }

  /**
   The client passes every such payload without an error, and gives it back, with only `attrs` of
   secrets set, if and only if no two secrets that go by name clash.
   */
  lemma TidyLaw(j: Json, lists: seq<string>, objects: seq<string>, decompiled: Decompiled)
    requires EntityNames(lists, objects)
    requires Tidy(j) && NamesTidy(j) && Walkable(j, lists, objects)
    ensures PayloadOutcome(j, lists, objects, decompiled).Some?
    ensures PayloadOutcome(j, lists, objects, decompiled)
            == Some(Marked(j, PayloadSites(j, lists, objects, decompiled)))
            <==> Unclashing(Holders(j, decompiled, true))
  {
    var sites := PayloadSites(j, lists, objects, decompiled);
    TidyNames(j);
    ListsGood(j, lists, decompiled);
    ObjectsGood(j, objects, decompiled);
    GoodBoth(ListsSites(j, lists, decompiled), ObjectsSites(j, objects, decompiled));
    hide ListsSites, ObjectsSites, Tidy, NamesTidy, Walkable, Named, NotBasic, NamesFit, Marked, Holders, Unclashing,
         WellPlaced, Walks, Fitting, PayloadOutcome;
    PayloadWellPlaced(j, lists, objects, decompiled);
    PayloadLaw(j, lists, objects, decompiled);
    forall s | s in sites ensures Walks(j, s.filed) && Fitting(j, s) {
      GoodFits(j, sites, s);
    }
  }
}
