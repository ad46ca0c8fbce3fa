/** The strip pass as the client runs it, changing one payload in place; it ends at the first error it raises. */
module SecretStripper {
  import opened Options
  import opened JsonTree
  import opened SecretSites
  import opened SecretWalk
  import opened SecretPlaces
  import opened SecretPayload
  import opened SecretEntities
  import opened StripPasses

  /**
   Every method reports whether the client passed it without an error; what is in the fields after
   an error is of no use to anyone, since the upload ends with it.
   */
  class Stripper {
    var tree: Json
    var secretMap: map<string, Json>
    var secretVariables: seq<SecretRecord>
    var notStripped: seq<KeptRecord>
    const decompiled: Decompiled

    constructor (resources: Json, decompiled: Decompiled)
      ensures State() == Work(resources, map[], [], []) && this.decompiled == decompiled
    {
      tree := resources;
      this.decompiled := decompiled;
      secretMap, secretVariables, notStripped := map[], [], [];
    }

    function State(): Work
      reads this
    {
      Work(tree, secretMap, secretVariables, notStripped)
    }

    method StripSecretVariable(at: Path, filed: Path, known: Known) returns (ok: bool)
      modifies this
      ensures ok == Completes(OwnSites(Node(old(tree), at), at, filed, known))
      ensures ok ==> State() == After(old(State()), OwnSites(Node(old(tree), at), at, filed, known))
    {
      var variable := Node(tree, at);
      if !VariableFits(variable) {
        OneFails([], at);
        ghost var sites := OwnSites(variable, at, filed, known);
        assert Fails(sites[0]);
        return false;
      }
      if HasType(variable, "SECRET") {
        var name, value := OrNull(Get(variable, "name")), OrNull(Get(variable, "value"));
        ghost var site := Site(Variable, at, filed, name, Get(variable, "value"), known);
        assert site in [site];
        OneSite(State(), site);
        if IsModified(known, name, value) {
          if Get(variable, "value").None? {
            return false;
          }
          secretVariables := secretVariables + [SecretRecord(filed, value, name)];
          ApplyTwo(tree, SiteStrip(site));
          tree := Write(tree, at + [VALUE], None);
          tree := Write(tree, at + [ATTRS], Some(UNSET_REFERENCE));
        } else if Truthy(value) {
          notStripped := notStripped + [KeptRecord(filed, value)];
        }
      } else {
        Nothing(State());
      }
      ok := true;
    }

    method StripOptionPassword(at: Path, filed: Path) returns (ok: bool)
      modifies this
      ensures ok == Completes(OptionSites(Node(old(tree), at), at, filed))
      ensures ok ==> State() == After(old(State()), OptionSites(Node(old(tree), at), at, filed))
    {
      var variable := Node(tree, at);
      var auth := Node(variable, OPTION_AUTH);
      if !OptionFits(variable) {
        ghost var sites := OptionSites(variable, at, filed);
        assert Fails(sites[0]);
        return false;
      }
      if IsBasic(auth) {
        var password := Node(auth, BASIC_PASSWORD);
        var p := at + (OPTION_AUTH + BASIC_PASSWORD);
        var f := filed + (OPTION_AUTH + BASIC_PASSWORD);
        ghost var site := Site(OptionPassword, p, f, Node(auth, BASIC_USERNAME), Get(password, "value"), map[]);
        OneSite(State(), site);
        OneEdit(tree, SiteStrip(site)[0]);
        WriteTwice(tree, p, None, Placeholder(OptionPassword));
        tree := Write(tree, p, None);
        secretVariables := secretVariables
            + [SecretRecord(f, OrNull(Get(password, "value")), Node(auth, BASIC_USERNAME))];
        tree := Write(tree, p, Some(Placeholder(OptionPassword)));
      } else {
        Nothing(State());
      }
      ok := true;
    }

    /** One turn of the loop of `strip_entity_secret_variables`. */
    method StripVariable(at: Path, filed: Path, known: Known) returns (ok: bool)
      modifies this
      ensures ok == Completes(VariableSites(Node(old(tree), at), at, filed, known))
      ensures ok ==> State() == After(old(State()), VariableSites(Node(old(tree), at), at, filed, known))
    {
      ghost var w := State();
      ghost var own, options := OwnSites(Node(tree, at), at, filed, known), OptionSites(Node(tree, at), at, filed);
      CompletesBoth(own, options);
      OptionsStay(w.tree, own, at, filed);
      hide OwnSites, OptionSites, Completes, After;
      ok := StripSecretVariable(at, filed, known);
      if !ok {
        return;
      }
      AfterTree(w, own);
      ok := StripOptionPassword(at, filed);
      Compose(w, own, options);
    }

    method StripEntity(at: Path, filed: Path, field: string, context: string) returns (ok: bool)
      modifies this
      ensures ok == Completes(EntitySites(Node(old(tree), at), at, filed, decompiled, field, context))
      ensures ok ==> State() == After(old(State()),
                                      EntitySites(Node(old(tree), at), at, filed, decompiled, field, context))
    {
      hide VariableSites, StripEdits, Records, Kept, Apply, Lookup, EntityContext;
      ghost var w := State();
      var obj := Node(tree, at);
      var p, f := at + [Key(field)], filed + [Key(field)];
      if !EntityFits(obj, field) {
        ghost var sites := EntitySites(obj, at, filed, decompiled, field, context);
        assert Fails(sites[0]);
        return false;
      }
      var known := SecretsOf(decompiled, EntityContext(obj, field, context));
      var variables := Elements(obj, field);
      ElementsAt(tree, at, field);
      Nothing(w);
      var i := 0;
      while i < |variables|
        invariant i <= |variables|
        invariant State() == After(w, ListSites(variables[..i], p, f, known))
        invariant Completes(ListSites(variables[..i], p, f, known))
      {
        ListTurn(w, variables, i, p, f, known);
        VariableFails(variables, i, p, f, known);
        ok := StripVariable(p + [Idx(i)], f + [Idx(i)], known);
        if !ok {
          return;
        }
        i := i + 1;
      }
      WholePrefix(variables, i);
      ok := true;
    }

    /** The headers of a task, when it has any. */
    method StripHeaders(at: Path, filed: Path, context: string) returns (ok: bool)
      modifies this
      ensures ok == Completes(HeaderSites(Node(old(tree), at), at, filed, decompiled, context))
      ensures ok ==> State() == After(old(State()), HeaderSites(Node(old(tree), at), at, filed, decompiled, context))
    {
      if !Truthy(OrNull(Get(Node(tree, at), "headers"))) {
        Nothing(State());
        return true;
      }
      ok := StripEntity(at, filed, "headers", context);
    }

    /** The password of an action's HTTP task. */
    method StripTaskPassword(at: Path, context: string) returns (ok: bool)
      modifies this
      ensures ok == Completes(TaskAuthSites(Node(old(tree), at), at, decompiled, context))
      ensures ok ==> State() == After(old(State()), TaskAuthSites(Node(old(tree), at), at, decompiled, context))
    {
      var task := Node(tree, at);
      var auth := Node(task, TASK_AUTH);
      if !TaskAuthFits(task) {
        ghost var sites := TaskAuthSites(task, at, decompiled, context);
        assert Fails(sites[0]);
        return false;
      }
      if !IsBasic(auth) {
        Nothing(State());
        return true;
      }
      var password := Node(auth, BASIC_PASSWORD);
      var p := at + (TASK_AUTH + BASIC_PASSWORD);
      var known := SecretsOf(decompiled, context + ".basic_auth");
      TaskPasswordExists(tree, at);
      ok := StripPassword(Site(TaskPassword, p, p, Node(auth, BASIC_USERNAME), Get(password, "value"), known));
    }

    /** Pop the value of a password node and replace the node, or note that it stays. */
    method StripPassword(site: Site) returns (ok: bool)
      requires site.kind == TaskPassword || site.kind == AuthPassword
      requires Lookup(tree, site.path).Some?
      modifies this
      ensures ok == Completes([site])
      ensures ok ==> State() == After(old(State()), [site])
    {
      assert site in [site];
      var value := OrNull(site.value);
      OneSite(State(), site);
      if IsModified(site.known, site.name, value) {
        if site.value.None? {
          return false;
        }
        OneEdit(tree, Edit(site.path, Some(Placeholder(site.kind))));
        PopThenAssign(tree, site.path, Placeholder(site.kind));
        secretVariables := secretVariables + [SecretRecord(site.filed, value, site.name)];
        tree := Write(tree, site.path + [VALUE], None);
        tree := Write(tree, site.path, Some(Placeholder(site.kind)));
      } else if Truthy(value) {
        notStripped := notStripped + [KeptRecord(site.filed, value)];
      }
      ok := true;
    }

    method StripActionTask(at: Path, context: string) returns (ok: bool)
      modifies this
      ensures ok == Completes(ActionTaskSites(Node(old(tree), at), at, decompiled, context))
      ensures ok ==> State() == After(old(State()), ActionTaskSites(Node(old(tree), at), at, decompiled, context))
    {
      hide StripEdits, Records, Kept, Apply, Lookup, HeaderSites, TaskAuthSites, After;
      ghost var w := State();
      var task := Node(tree, at);
      OneFails([], at);
      if !task.Obj? {
        return false;
      }
      if !HasType(task, "HTTP") {
        Nothing(w);
        return true;
      }
      if !IsText(task, "name") {
        return false;
      }
      var here := context + "." + Text(task, "name");
      ghost var auth := TaskAuthSites(task, at, decompiled, here);
      ghost var headers := HeaderSites(OrNull(Get(task, "attrs")), at + [ATTRS], at + [ATTRS], decompiled, here
                                       + ".headers");
      CompletesBoth(auth, headers);
      HeadersStay(w.tree, auth, at, decompiled, here + ".headers");
      ChildBelow(w.tree, at, "attrs");
      ok := StripTaskPassword(at, here);
      if !ok {
        return;
      }
      AfterTree(w, auth);
      ok := StripHeaders(at + [ATTRS], at + [ATTRS], here + ".headers");
      Compose(w, auth, headers);
    }

    /** The tasks of an action's runbook. */
    method StripActionTasks(at: Path, context: string) returns (ok: bool)
      modifies this
      ensures ok == Completes(ActionTasksSites(Node(old(tree), at), at, decompiled, context))
      ensures ok ==> State() == After(old(State()), ActionTasksSites(Node(old(tree), at), at, decompiled, context))
    {
      ghost var w := State();
      var runbook := Node(tree, at);
      var p := at + [TASKS];
      if !IsText(runbook, "name") || !Iterable(Get(runbook, TASKS.key)) {
        OneFails([], p);
        return false;
      }
      var here := context + "." + Text(runbook, "name") + ".task_definition_list";
      var tasks := Elements(runbook, TASKS.key);
      ElementsAt(tree, at, TASKS.key);
      Nothing(w);
      hide ActionTaskSites, StripEdits, Records, Kept, Apply, Lookup;
      var i := 0;
      while i < |tasks|
        invariant i <= |tasks|
        invariant State() == After(w, ActionTaskListSites(tasks[..i], p, decompiled, here))
        invariant Completes(ActionTaskListSites(tasks[..i], p, decompiled, here))
      {
        ActionTaskTurn(w.tree, tasks, i, p, decompiled, here);
        TaskFails(tasks, i, p, decompiled, here);
        ok := StripActionTask(p + [Idx(i)], here);
        if !ok {
          return;
        }
        Compose(w, ActionTaskListSites(tasks[..i], p, decompiled, here),
                ActionTaskSites(tasks[i], p + [Idx(i)], decompiled, here));
        i := i + 1;
      }
      WholePrefix(tasks, i);
      ok := true;
    }

    method StripActionRunbook(at: Path, context: string) returns (ok: bool)
      modifies this
      ensures ok == Completes(ActionRunbookSites(Node(old(tree), at), at, decompiled, context))
      ensures ok ==> State() == After(old(State()), ActionRunbookSites(Node(old(tree), at), at, decompiled, context))
    {
      ghost var w := State();
      ghost var runbook := Node(tree, at);
      ghost var variables := EntitySites(runbook, at, at, decompiled, "variable_list", context);
      ghost var tasks := ActionTasksSites(runbook, at, decompiled, context);
      CompletesBoth(variables, tasks);
      VariablesLeaveTasks(w.tree, at, decompiled, context);
      hide EntitySites, ActionTasksSites, Completes, After;
      ok := StripEntity(at, at, "variable_list", context);
      if !ok {
        return;
      }
      AfterTree(w, variables);
      ok := StripActionTasks(at, context);
      Compose(w, variables, tasks);
    }

    /** One turn of the loop over actions, for an action with a runbook. */
    method StripOneAction(at: Path, context: string) returns (ok: bool)
      modifies this
      ensures ok == Completes(OneActionSites(Node(old(tree), at), at, decompiled, context))
      ensures ok ==> State() == After(old(State()), OneActionSites(Node(old(tree), at), at, decompiled, context))
    {
      var action := Node(tree, at);
      ChildBelow(tree, at, "runbook");
      if !IsText(action, "name") {
        OneFails([], at);
        return false;
      }
      ok := StripActionRunbook(at + [Key("runbook")], context + "." + Text(action, "name") + ".runbook");
    }

    /** `strip_action_secret_variables`; with no context given, the object's name is needed to build one. */
    method StripActions(at: Path, head: string, context: string) returns (ok: bool)
      modifies this
      ensures ok == ((context == "" ==> IsText(Node(old(tree), at), "name"))
                     && Completes(ActionSites(Node(old(tree), at), at, decompiled,
                                              ActionContext(Node(old(tree), at), head, context))))
      ensures ok ==>
                var here := ActionContext(Node(old(tree), at), head, context);
                State() == After(old(State()), ActionSites(Node(old(tree), at), at, decompiled, here))
    {
      ghost var w := State();
      var obj := Node(tree, at);
      if context == "" && !IsText(obj, "name") {
        return false;
      }
      var here := ActionContext(obj, head, context);
      var p := at + [Key("action_list")];
      if !obj.Obj? || !Listable(Get(obj, "action_list")) {
        OneFails([], p);
        return false;
      }
      ElementsAt(tree, at, "action_list");
      ok := StripActionList(Elements(obj, "action_list"), p, here);
    }

    /** The loop over actions, up to the first one without a runbook. */
    method StripActionList(actions: seq<Json>, p: Path, context: string) returns (ok: bool)
      requires ListAt(tree, p, actions)
      modifies this
      ensures var sites := ActionListSites(actions[..Walked(actions)], p, decompiled, context) + StopSites(actions, p);
        ok == Completes(sites) && (ok ==> State() == After(old(State()), sites))
    {
      ghost var w := State();
      Nothing(w);
      hide OneActionSites, StripEdits, Records, Kept, Apply, Lookup, IsText;
      ghost var walked, stop := ActionListSites(actions[..Walked(actions)], p, decompiled, context),
            StopSites(actions, p);
      CompletesBoth(walked, stop);
      hide StopSites;
      var i := 0;
      while i < |actions|
        invariant i <= Walked(actions)
        invariant State() == After(w, ActionListSites(actions[..i], p, decompiled, context))
        invariant Completes(ActionListSites(actions[..i], p, decompiled, context))
      {
        ActionTurn(w.tree, actions, i, p, decompiled, context);
        WalkStops(actions, i);
        var action := Node(tree, p + [Idx(i)]);
        if !IsText(action, "name") {
          ActionsFail(actions, i, p, decompiled, context);
          return false;
        }
        if !Truthy(RunbookOf(action)) {
          WalkEnds(w, actions, p, decompiled, context);
          return true;
        }
        OneActionFails(actions, i, p, decompiled, context);
        ok := StripOneAction(p + [Idx(i)], context);
        if !ok {
          return;
        }
        Compose(w, ActionListSites(actions[..i], p, decompiled, context),
                OneActionSites(actions[i], p + [Idx(i)], decompiled, context));
        i := i + 1;
      }
      WalkStops(actions, i);
      WalkEnds(w, actions, p, decompiled, context);
      ok := true;
    }

    /** `strip_authentication_secret_variables` */
    method StripAuthentication(at: Path, filed: Path, context: string) returns (ok: bool)
      modifies this
      ensures ok == Completes(AuthSites(Node(old(tree), at), at, filed, decompiled, context))
      ensures ok ==> State() == After(old(State()), AuthSites(Node(old(tree), at), at, filed, decompiled, context))
    {
      var obj := Node(tree, at);
      var auth := Node(obj, [Key("authentication")]);
      var p := at + [Key("authentication"), Key("password")];
      if !AuthFits(obj) {
        ghost var sites := AuthSites(obj, at, filed, decompiled, context);
        assert Fails(sites[0]);
        return false;
      }
      if !IsBasic(auth) {
        Nothing(State());
        return true;
      }
      var password := OrNull(Get(auth, "password"));
      var f := filed + [Key("authentication")] + BASIC_PASSWORD;
      var known := SecretsOf(decompiled, context + "." + Text(obj, "name") + ".basic_auth");
      AuthPasswordExists(tree, at);
      NodeOfKey(obj, "authentication");
      ok := StripPassword(Site(AuthPassword, p, f, OrNull(Get(password, "name")), Get(password, "value"), known));
    }

    method StripHttpTask(at: Path, filed: Path, context: string) returns (ok: bool)
      modifies this
      ensures ok == Completes(HttpTaskSites(Node(old(tree), at), at, filed, decompiled, context))
      ensures ok ==> State() == After(old(State()), HttpTaskSites(Node(old(tree), at), at, filed, decompiled, context))
    {
      ghost var w := State();
      ghost var auth := AuthSites(Node(tree, at), at, filed, decompiled, context);
      ghost var headers := HeaderSites(Node(tree, at), at, filed, decompiled, context + ".headers");
      CompletesBoth(auth, headers);
      AuthHeads(auth, at);
      MembersStay(w.tree, auth, at, {"headers"});
      NodeKindStays(w.tree, auth, at);
      HeadersSame(Node(w.tree, at), Node(Apply(w.tree, StripEdits(auth)), at), at, filed, decompiled, context
                  + ".headers");
      hide AuthSites, HeaderSites, Completes, After;
      ok := StripAuthentication(at, filed, context);
      if !ok {
        return;
      }
      AfterTree(w, auth);
      ok := StripHeaders(at, filed, context + ".headers");
      Compose(w, auth, headers);
    }

    /** `strip_runbook_secret_variables` of an object that has a name. */
    method StripRunbook(at: Path, head: string) returns (ok: bool)
      modifies this
      ensures ok == Completes(RunbookSites(Node(old(tree), at), at, decompiled,
                                           head + "." + Text(Node(old(tree), at), "name") + ".task_definition_list"))
      ensures ok ==>
                var here := head + "." + Text(Node(old(tree), at), "name") + ".task_definition_list";
                State() == After(old(State()), RunbookSites(Node(old(tree), at), at, decompiled, here))
    {
      ghost var w := State();
      var obj := Node(tree, at);
      var context := head + "." + Text(obj, "name") + ".task_definition_list";
      if !Iterable(Get(obj, TASKS.key)) {
        OneFails([], at + [TASKS]);
        return false;
      }
      var tasks := Elements(obj, TASKS.key);
      ElementsAt(tree, at, TASKS.key);
      Nothing(w);
      hide RunbookTaskSites, StripEdits, Records, Kept, Apply, Lookup;
      var i := 0;
      while i < |tasks|
        invariant i <= |tasks|
        invariant State() == After(w, RunbookListSites(tasks[..i], at, decompiled, context))
        invariant Completes(RunbookListSites(tasks[..i], at, decompiled, context))
      {
        RunbookTurn(w.tree, tasks, i, at, decompiled, context);
        RunbookTaskFails(tasks, i, at, decompiled, context);
        var task := Node(tree, at + [TASKS] + [Idx(i)]);
        ok := StripRunbookTask(task, at, i, context);
        if !ok {
          return;
        }
        Compose(w, RunbookListSites(tasks[..i], at, decompiled, context),
                RunbookTaskSites(task, at, i, decompiled, context));
        i := i + 1;
      }
      WholePrefix(tasks, i);
      ok := true;
    }

    /** One turn of the loop of `strip_runbook_secret_variables`. */
    method StripRunbookTask(task: Json, at: Path, i: nat, context: string) returns (ok: bool)
      requires Node(tree, at + [TASKS, Idx(i), ATTRS]) == OrNull(Get(task, "attrs"))
      modifies this
      ensures ok == Completes(RunbookTaskSites(task, at, i, decompiled, context))
      ensures ok ==> State() == After(old(State()), RunbookTaskSites(task, at, i, decompiled, context))
    {
      var q := at + [TASKS, Idx(i), ATTRS];
      OneFails([], q);
      hide EntitySites, HttpTaskSites, Apply, Lookup, StripEdits, Records, Kept;
      if !task.Obj? {
        return false;
      }
      if HasType(task, "RT_OPERATION") {
        ok := StripEntity(q, q, "inarg_list", "");
      } else if !HasType(task, "HTTP") {
        Nothing(State());
        return true;
      } else if !HttpTaskFits(task) {
        return false;
      } else {
        ok := StripHttpTask(q, TaskFile(OrNull(Get(task, "attrs")), at, i), context + "." + Text(task, "name"));
      }
    }

    /** `strip_all_secret_variables` */
    method StripAll(at: Path, head: string) returns (ok: bool)
      modifies this
      ensures ok == Completes(AllSites(Node(old(tree), at), at, decompiled, head))
      ensures ok ==> State() == After(old(State()), AllSites(Node(old(tree), at), at, decompiled, head))
    {
      hide EntitySites, ActionSites, RunbookSites, AuthSites, AllSites, StripEdits, Records, Kept, Apply, Lookup,
           Completes, After;
      ghost var w, obj := State(), Node(tree, at);
      AllCompletes(obj, at, decompiled, head);
      ok := StripEntity(at, at, "variable_list", head);
      if !ok {
        return;
      }
      AfterTree(w, EntitySites(obj, at, at, decompiled, "variable_list", head));
      EntityLeaves(w.tree, at, decompiled, "variable_list", head);
      ghost var w1 := State();
      ghost var here := head + "." + Text(obj, "name") + ".action_list";
      ActionSame(Node(w1.tree, at), obj, at, decompiled, here);
      ok := StripActions(at, head, "");
      if !ok {
        return;
      }
      AfterTree(w1, ActionSites(obj, at, decompiled, here));
      ActionsLeave(w1.tree, at, decompiled, here);
      ghost var w2 := State();
      RunbookSame(Node(w2.tree, at), obj, at, decompiled, head + "." + Text(obj, "name") + ".task_definition_list");
      ok := StripRunbook(at, head);
      if !ok {
        return;
      }
      AfterTree(w2, RunbookSites(obj, at, decompiled, head + "." + Text(obj, "name") + ".task_definition_list"));
      RunbookLeaves(w2.tree, at, decompiled, head + "." + Text(obj, "name") + ".task_definition_list");
      ghost var w3 := State();
      AuthSame(Node(w3.tree, at), obj, at, at, decompiled, head);
      ok := StripAuthentication(at, at, head);
      AllInFour(w, obj, at, decompiled, head);
    }

    /** One turn of the loop of `strip_credentials`. */
    method StripCredential(i: nat) returns (ok: bool)
      modifies this
      ensures ok == CredentialFits(Node(old(tree), [Key(CREDENTIALS), Idx(i)]))
      ensures ok ==> var h := CredentialHolder(Node(old(tree), [Key(CREDENTIALS), Idx(i)]), i,
                                               SecretsOf(decompiled, CREDENTIALS));
        State() == HeldHere(old(State()), h)
    {
      var credential := Node(tree, [Key(CREDENTIALS), Idx(i)]);
      if !CredentialFits(credential) {
        return false;
      }
      var known := SecretsOf(decompiled, CREDENTIALS);
      var name, value := Text(credential, "name"), Node(credential, [Key("secret"), Key("value")]);
      if IsModified(known, OrNull(Get(credential, "name")), value) {
        var p := [Key(CREDENTIALS), Idx(i), Key("secret")];
        WriteTwice(tree, p, None, CREDENTIAL_PLACEHOLDER);
        secretMap := secretMap[name := Popped(Get(credential, "secret"))];
        tree := Write(tree, p, None);
        tree := Write(tree, p, Some(CREDENTIAL_PLACEHOLDER));
      }
      ok := true;
    }

    /** `strip_credentials` */
    method StripCredentials() returns (ok: bool)
      modifies this
      ensures ok == CredentialsStrippable(old(tree))
      ensures ok ==>
                var holders := CredentialHolders(Elements(old(tree), CREDENTIALS), SecretsOf(decompiled, CREDENTIALS));
                State() == Held(old(State()), holders)
    {
      hide CredentialHolder, HolderStrip, SecretMap, Apply, Lookup, IsModified, CredentialFits;
      ghost var w := State();
      if !tree.Obj? || !Listable(Get(tree, CREDENTIALS)) {
        return false;
      }
      var credentials := Elements(tree, CREDENTIALS);
      ghost var known := SecretsOf(decompiled, CREDENTIALS);
      NoneHeld(w);
      var i := 0;
      while i < |credentials|
        invariant i <= |credentials|
        invariant State() == Held(w, CredentialHolders(credentials[..i], known))
        invariant forall k | 0 <= k < i :: CredentialFits(credentials[k])
      {
        CredentialTurn(w, credentials, i, known);
        assert credentials[i] in credentials;
        ok := StripCredential(i);
        if !ok {
          return;
        }
        i := i + 1;
      }
      WholePrefix(credentials, i);
      ok := true;
    }

    /** The endpoint authentication of `strip_secrets`. */
    method StripEndpointAuthentication() returns (ok: bool)
      modifies this
      ensures ok == AuthStrippable(OrNull(Get(old(tree), "authentication")))
      ensures ok ==> State() == Held(old(State()),
                                     AuthHolders(old(tree), SecretsOf(decompiled, "authentication"), true))
    {
      ghost var w := State();
      var auth := OrNull(Get(tree, "authentication"));
      if !AuthStrippable(auth) {
        return false;
      }
      var known := SecretsOf(decompiled, "authentication");
      ghost var holders := AuthHolders(tree, known, true);
      HeldOne(w, holders);
      if HasType(auth, "basic") {
        var username, password := Get(auth, "username"), Get(auth, "password");
        if IsModified(known, OrNull(username), OrNull(password)) {
          WriteTwice(tree, AUTH_PASSWORD, None, AUTH_PLACEHOLDER);
          secretMap := secretMap[Text(auth, "username") := Popped(password)];
          tree := Write(tree, AUTH_PASSWORD, None);
          tree := Write(tree, AUTH_PASSWORD, Some(AUTH_PLACEHOLDER));
        }
      }
      ok := true;
    }

    method StripRows(k: string) returns (ok: bool)
      modifies this
      ensures ok == Completes(OneListSites(old(tree), k, decompiled))
      ensures ok ==> State() == After(old(State()), OneListSites(old(tree), k, decompiled))
    {
      hide AllSites, StripEdits, Records, Kept, Apply, Lookup;
      ghost var w := State();
      CompletesBoth(ListFault(tree, k), RowSites(Elements(tree, k), k, decompiled));
      if !Listable(Get(tree, k)) {
        ghost var fault := ListFault(tree, k);
        assert Fails(fault[0]);
        return false;
      }
      var rows := Elements(tree, k);
      RootList(tree, k);
      Nothing(w);
      NoFault(tree, k, decompiled);
      var i := 0;
      while i < |rows|
        invariant i <= |rows|
        invariant State() == After(w, RowSites(rows[..i], k, decompiled))
        invariant Completes(RowSites(rows[..i], k, decompiled))
      {
        RowTurn(w, rows, i, k, decompiled);
        RowFails(rows, i, k, decompiled);
        ok := StripAll([Key(k), Idx(i)], k);
        if !ok {
          return;
        }
        i := i + 1;
      }
      WholePrefix(rows, i);
      ok := true;
    }

    /** `strip_secrets` */
    method StripSecrets(lists: seq<string>, objects: seq<string>) returns (ok: bool)
      requires EntityNames(lists, objects)
      modifies this
      ensures ok == (NamesStrippable(old(tree), true) && Completes(PayloadSites(old(tree), lists, objects, decompiled)))
      ensures ok ==> State() == After(Held(old(State()), Holders(old(tree), decompiled, true)),
                                      PayloadSites(old(tree), lists, objects, decompiled))
    {
      hide ListsSites, ObjectsSites, Completes, After, Held, CredentialHolders, AuthHolders;
      ghost var w := State();
      ok := StripCredentials();
      if !ok {
        return;
      }
      HeldTree(w, CredentialHolders(Elements(w.tree, CREDENTIALS), SecretsOf(decompiled, CREDENTIALS)));
      CredentialsLeave(w.tree, SecretsOf(decompiled, CREDENTIALS), "authentication");
      CredentialsLeaveAuth(w.tree, SecretsOf(decompiled, CREDENTIALS), SecretsOf(decompiled, "authentication"), true);
      ok := StripEndpointAuthentication();
      if !ok {
        return;
      }
      HeldTwice(w, CredentialHolders(Elements(w.tree, CREDENTIALS), SecretsOf(decompiled, CREDENTIALS)),
                AuthHolders(w.tree, SecretsOf(decompiled, "authentication"), true));
      HeldTree(w, Holders(w.tree, decompiled, true));

      ghost var w1 := State();
      NamesOfLists(lists, objects);
      PayloadSame(w.tree, lists, objects, decompiled);
      CompletesBoth(ListsSites(w1.tree, lists, decompiled), ObjectsSites(w1.tree, objects, decompiled));
      ok := StripLists(lists);
      if !ok {
        return;
      }
      AfterTree(w1, ListsSites(w1.tree, lists, decompiled));
      ok := StripObjects(w1.tree, lists, objects);
      Compose(w1, ListsSites(w1.tree, lists, decompiled), ObjectsSites(w1.tree, objects, decompiled));
    }

    method StripLists(lists: seq<string>) returns (ok: bool)
      requires (forall i, k | 0 <= i < k < |lists| :: lists[i] != lists[k]) && "authentication" !in lists
      modifies this
      ensures ok == Completes(ListsSites(old(tree), lists, decompiled))
      ensures ok ==> State() == After(old(State()), ListsSites(old(tree), lists, decompiled))
    {
      hide OneListSites, StripEdits, Records, Kept, Apply, Lookup;
      ghost var w := State();
      Nothing(w);
      var i := 0;
      while i < |lists|
        invariant i <= |lists|
        invariant State() == After(w, ListsSites(w.tree, lists[..i], decompiled))
        invariant Completes(ListsSites(w.tree, lists[..i], decompiled))
      {
        ListsTurn(w.tree, lists, i, decompiled);
        ListFails(w.tree, lists, i, decompiled);
        OneListSame(w.tree, tree, lists[i], decompiled);
        ok := StripRows(lists[i]);
        if !ok {
          return;
        }
        Compose(w, ListsSites(w.tree, lists[..i], decompiled), OneListSites(w.tree, lists[i], decompiled));
        i := i + 1;
      }
      WholePrefix(lists, i);
      ok := true;
    }

    method StripObjects(ghost start: Json, lists: seq<string>, objects: seq<string>) returns (ok: bool)
      requires EntityNames(lists, objects)
      requires tree == Apply(start, StripEdits(ListsSites(start, lists, decompiled)))
      modifies this
      ensures ok == Completes(ObjectsSites(start, objects, decompiled))
      ensures ok ==> State() == After(old(State()), ObjectsSites(start, objects, decompiled))
    {
      hide AllSites, StripEdits, Records, Kept, Apply, Lookup;
      ghost var w := State();
      Nothing(w);
      var i := 0;
      while i < |objects|
        invariant i <= |objects|
        invariant State() == After(w, ObjectsSites(start, objects[..i], decompiled))
        invariant Completes(ObjectsSites(start, objects[..i], decompiled))
      {
        ObjectsTurn(start, lists, objects, i, decompiled);
        ObjectFails(start, objects, i, decompiled);
        ok := StripAll([Key(objects[i])], objects[i]);
        if !ok {
          return;
        }
        Compose(w, ObjectsSites(start, objects[..i], decompiled),
                AllSites(Node(start, [Key(objects[i])]), [Key(objects[i])], decompiled, objects[i]));
        i := i + 1;
      }
      WholePrefix(objects, i);
      ok := true;
    }

    /** One turn of the loop over resource types in `strip_provider_secrets`. */
    method StripResourceType(i: nat) returns (ok: bool)
      modifies this
      ensures var sites := ResourceTypeSites(Node(old(tree), [Key(TYPES), Idx(i)]), [Key(TYPES), Idx(i)], decompiled);
        ok == Completes(sites) && (ok ==> State() == After(old(State()), sites))
    {
      hide AllSites, EntitySites, Completes, After;
      ghost var w := State();
      var p := [Key(TYPES), Idx(i)];
      ghost var obj := Node(tree, p);
      ghost var all, schema := AllSites(obj, p, decompiled, TYPES),
            EntitySites(obj, p, p, decompiled, "schema_list", TYPES);
      CompletesBoth(all, schema);
      AllLeaveSchema(w.tree, p, decompiled);
      ok := StripAll(p, TYPES);
      if !ok {
        return;
      }
      AfterTree(w, all);
      EntitySame(obj, Node(tree, p), p, p, decompiled, "schema_list", TYPES);
      ok := StripEntity(p, p, "schema_list", TYPES);
      Compose(w, all, schema);
    }

    method StripResourceTypes() returns (ok: bool)
      modifies this
      ensures ok == Completes(TypesSites(old(tree), decompiled))
      ensures ok ==> State() == After(old(State()), TypesSites(old(tree), decompiled))
    {
      hide ResourceTypeSites, StripEdits, Records, Kept, Apply, Lookup;
      ghost var w := State();
      CompletesBoth(ListFault(tree, TYPES), ResourceTypeListSites(Elements(tree, TYPES), decompiled));
      if !Listable(Get(tree, TYPES)) {
        ghost var fault := ListFault(tree, TYPES);
        assert Fails(fault[0]);
        return false;
      }
      var rows := Elements(tree, TYPES);
      RootList(tree, TYPES);
      Nothing(w);
      assert ListFault(tree, TYPES) + ResourceTypeListSites(rows, decompiled)
          == ResourceTypeListSites(rows, decompiled);
      var i := 0;
      while i < |rows|
        invariant i <= |rows|
        invariant State() == After(w, ResourceTypeListSites(rows[..i], decompiled))
        invariant Completes(ResourceTypeListSites(rows[..i], decompiled))
      {
        ResourceTypeTurn(w, rows, i, decompiled);
        TypeFails(rows, i, decompiled);
        ok := StripResourceType(i);
        if !ok {
          return;
        }
        i := i + 1;
      }
      WholePrefix(rows, i);
      ok := true;
    }

    /** The variables of a part of a provider that need not be there. */
    method StripSection(at: Path, context: string) returns (ok: bool)
      modifies this
      ensures ok == Completes(SectionSites(old(tree), at, decompiled, context))
      ensures ok ==> State() == After(old(State()), SectionSites(old(tree), at, decompiled, context))
    {
      if Lookup(tree, at).None? {
        Nothing(State());
        return true;
      }
      ok := StripEntity(at, at, "variable_list", context);
    }

    method StripAccount() returns (ok: bool)
      modifies this
      ensures ok == Completes(AccountSites(old(tree), decompiled))
      ensures ok ==> State() == After(old(State()), AccountSites(old(tree), decompiled))
    {
      if !ObjOrAbsent(Get(tree, "test_account")) {
        OneFails([], ACCOUNT_DATA + [Key("variable_list")]);
        return false;
      }
      ok := StripSection(ACCOUNT_DATA, "test_account_variable_list");
    }

    /** `strip_provider_secrets` */
    method StripProviderSecrets() returns (ok: bool)
      modifies this
      ensures ok == (CredentialsStrippable(old(tree)) && Completes(ProviderSites(old(tree), decompiled)))
      ensures ok ==>
        State() == After(Held(old(State()),
                              CredentialHolders(Elements(old(tree), CREDENTIALS), SecretsOf(decompiled, CREDENTIALS))),
                         ProviderSites(old(tree), decompiled))
    {
      hide TypesSites, EntitySites, SectionSites, AccountSites, ActionSites, ProviderSites, Completes, After, Held,
           CredentialHolders;
      ghost var w := State();
      ok := StripCredentials();
      if !ok {
        return;
      }
      ghost var w0 := State();
      HeldTree(w, CredentialHolders(Elements(w.tree, CREDENTIALS), SecretsOf(decompiled, CREDENTIALS)));
      CredentialsLeaveProvider(w.tree, SecretsOf(decompiled, CREDENTIALS), decompiled);
      ProviderCompletes(w0.tree, decompiled);
      ok := StripProviderParts(w0);
    }

    /** The six passes after the credentials. */
    method StripProviderParts(ghost w0: Work) returns (ok: bool)
      requires w0 == State()
      modifies this
      ensures ok == Completes(ProviderSites(w0.tree, decompiled))
      ensures ok ==> State() == After(w0, ProviderSites(w0.tree, decompiled))
    {
      hide TypesSites, EntitySites, SectionSites, AccountSites, ActionSites, ProviderSites, Completes, After, SameFrom;
      ghost var j := w0.tree;
      ProviderCompletes(j, decompiled);
      ok := StripResourceTypes();
      if !ok {
        return;
      }
      ghost var w1 := State();
      AfterTree(w0, TypesSites(j, decompiled));
      TypesLeave(j, decompiled);
      VariablesStep(j, w1.tree, decompiled);
      ok := StripEntity([], [], "variable_list", "variable_list");
      if !ok {
        return;
      }
      ghost var w2 := State();
      AfterTree(w1, EntitySites(j, [], [], decompiled, "variable_list", "variable_list"));
      SchemaStep(j, w2.tree, decompiled);
      ok := StripEntity([], [], "auth_schema_list", "auth_schema_list");
      if !ok {
        return;
      }
      ghost var w3 := State();
      AfterTree(w2, EntitySites(j, [], [], decompiled, "auth_schema_list", "auth_schema_list"));
      EndpointStep(j, w3.tree, decompiled);
      ok := StripSection(ENDPOINT_SCHEMA, "endpoint_schema_list");
      if !ok {
        return;
      }
      ghost var w4 := State();
      AfterTree(w3, SectionSites(j, ENDPOINT_SCHEMA, decompiled, "endpoint_schema_list"));
      AccountStep(j, w4.tree, decompiled);
      ok := StripAccount();
      if !ok {
        return;
      }
      ghost var w5 := State();
      AfterTree(w4, AccountSites(j, decompiled));
      LastMember(j, w5.tree, decompiled);
      ok := StripActions([], "", "action_list");
      if ok {
        ProviderInSix(w0, w1, w2, w3, w4, w5, State(), decompiled);
      }
    }
  }
}
