/** Where the strip pass stops: the sites of variables, actions, runbooks and authentications. */
module SecretWalk {
  import opened Options
  import opened JsonTree
  import opened SecretSites

  type Decompiled = map<string, Known>

  const OPTION_AUTH: Path := [Key("options"), Key("attrs"), Key("authentication")]
  const BASIC_PASSWORD: Path := [Key("basic_auth"), Key("password")]
  const BASIC_USERNAME: Path := [Key("basic_auth"), Key("username")]
  const TASK_AUTH: Path := [Key("attrs"), Key("authentication")]
  const TASKS := Key("task_definition_list")

  /** The decompiled secrets recorded for one context. */
  function SecretsOf(decompiled: Decompiled, context: string): Known {
    if context in decompiled then decompiled[context] else map[]
  }

  /** A string member as Python concatenates it into a context. */
  function Text(j: Json, k: string): string {
    match Get(j, k)
    case Some(Str(s)) => s
    case _ => ""
  }

  predicate HasType(j: Json, name: string) {
    Get(j, "type") == Some(Str(name))
  }

  predicate IsBasic(auth: Json) {
    Get(auth, "auth_type") == Some(Str("basic"))
  }

  function EntityContext(obj: Json, field: string, context: string): string {
    if field != "headers" && Text(obj, "name") != "" then context + "." + Text(obj, "name") + "." + field
    else context
  }

  // ----- what the walk must find, or raise an error

  predicate IsText(j: Json, k: string) {
    Get(j, k).Some? && Get(j, k).value.Str?
  }

  /** `... or {}` gives an object. */
  predicate ObjOrFalsy(j: Json) {
    j.Obj? || !Truthy(j)
  }

  predicate ObjOrAbsent(v: Option<Json>) {
    v.None? || v.value.Obj?
  }

  /** `get(k, []) or []` can be walked as a list of objects. */
  predicate Listable(v: Option<Json>) {
    v.None? || v.value.Arr? || !Truthy(v.value)
  }

  /** `get(k, [])` can be walked as a list of objects: an empty string or object ends the loop at once. */
  predicate Iterable(v: Option<Json>) {
    v.None? || v.value.Arr? || v.value == Str("") || v.value == Obj(map[])
  }

  /** A value that can be looked up in a dict. */
  predicate Hashable(j: Json) {
    !j.Arr? && !j.Obj?
  }

  predicate EntityFits(obj: Json, field: string) {
    && obj.Obj? && Listable(Get(obj, field))
    && (field == "headers" || IsText(obj, "name") || !Truthy(OrNull(Get(obj, "name"))))
  }

  predicate VariableFits(variable: Json) {
    Get(variable, "type").Some? && (HasType(variable, "SECRET") ==> Hashable(OrNull(Get(variable, "name"))))
  }

  predicate OptionFits(variable: Json) {
    && ObjOrFalsy(Node(variable, OPTION_AUTH[..1])) && ObjOrFalsy(Node(variable, OPTION_AUTH[..2]))
    && ObjOrFalsy(Node(variable, OPTION_AUTH))
    && (IsBasic(Node(variable, OPTION_AUTH)) ==> Node(Node(variable, OPTION_AUTH), BASIC_PASSWORD).Obj?)
  }

  predicate TaskAuthFits(task: Json) {
    && ObjOrFalsy(Node(task, TASK_AUTH[..1])) && ObjOrFalsy(Node(task, TASK_AUTH))
    && (IsBasic(Node(task, TASK_AUTH)) ==>
          Node(Node(task, TASK_AUTH), BASIC_PASSWORD).Obj? && Hashable(Node(Node(task, TASK_AUTH), BASIC_USERNAME)))
  }

  predicate AuthFits(obj: Json) {
    var auth := Get(obj, "authentication");
    && ObjOrFalsy(obj) && ObjOrAbsent(auth) && (Get(obj, "name").None? || IsText(obj, "name"))
    && (IsBasic(OrNull(auth)) ==>
          OrNull(Get(OrNull(auth), "password")).Obj?
              && Hashable(OrNull(Get(OrNull(Get(OrNull(auth), "password")), "name"))))
  }

  predicate HttpTaskFits(task: Json) {
    var attrs := OrNull(Get(task, "attrs"));
    IsText(task, "name") && ObjOrFalsy(attrs) && ObjOrFalsy(OrNull(Get(attrs, "authentication")))
  }

  function MissingAt(p: Path, f: Path): Site {
    Site(Missing, p, f, Null, None, map[])
  }

  // ----- placement of sites below a node

  /** The site lies below `p` and is filed at the same place below `f`. */
  predicate Based(s: Site, p: Path, f: Path) {
    p <= s.path && s.filed == f + s.path[|p|..]
  }

  ghost predicate AllBased(sites: seq<Site>, p: Path, f: Path) {
    forall s <- sites :: Based(s, p, f)
  }

  /** Every site goes on from `p` with step `x`. */
  ghost predicate Headed(sites: seq<Site>, p: Path, x: Step) {
    forall s <- sites :: p < s.path && s.path[|p|] == x
  }

  /** Every site goes on from `p` with a list index below `n`. */
  ghost predicate Rows(sites: seq<Site>, p: Path, n: nat) {
    forall s <- sites :: p < s.path && s.path[|p|].Idx? && s.path[|p|].idx < n
  }

  lemma BasedUp(sites: seq<Site>, p: Path, f: Path, x: Step)
    requires AllBased(sites, p + [x], f + [x])
    ensures AllBased(sites, p, f) && Headed(sites, p, x)
  {
    forall s <- sites ensures Based(s, p, f) && p < s.path && s.path[|p|] == x {
      assert s.path[..|p|] == (p + [x])[..|p|] == p;
      assert s.path[|p|..] == [x] + s.path[|p|+1..];
    }
  }

  // ----- variables

  /** A dynamic variable whose values come from an HTTP task with basic authentication. */
  function OptionSites(variable: Json, p: Path, f: Path): (sites: seq<Site>)
    ensures AllBased(sites, p, f)
    ensures forall s <- sites :: s.kind in {OptionPassword, Missing} && s.path == p + OPTION_AUTH + BASIC_PASSWORD
  {
    var auth := Node(variable, OPTION_AUTH);
    var rest := OPTION_AUTH + BASIC_PASSWORD;
    assert (p + rest)[|p|..] == rest && p + rest == p + OPTION_AUTH + BASIC_PASSWORD;
    if !OptionFits(variable) then [MissingAt(p + rest, f + rest)]
    else if IsBasic(auth) then
      [Site(OptionPassword, p + rest, f + rest, Node(auth, BASIC_USERNAME), Get(Node(auth, BASIC_PASSWORD), "value"),
            map[])]
    else []
  }

  function OwnSites(variable: Json, p: Path, f: Path, known: Known): (sites: seq<Site>)
    ensures AllBased(sites, p, f)
    ensures forall s <- sites :: s.kind in {Variable, Missing} && s.path == p
  {
    if !VariableFits(variable) then [MissingAt(p, f)]
    else if HasType(variable, "SECRET") then
      [Site(Variable, p, f, OrNull(Get(variable, "name")), Get(variable, "value"), known)]
    else []
  }

  function VariableSites(variable: Json, p: Path, f: Path, known: Known): (sites: seq<Site>)
    ensures AllBased(sites, p, f)
  {
    OwnSites(variable, p, f, known) + OptionSites(variable, p, f)
  }

  function ListSites(variables: seq<Json>, p: Path, f: Path, known: Known): (sites: seq<Site>)
    ensures AllBased(sites, p, f) && Rows(sites, p, |variables|)
  {
    if variables == [] then []
    else
      var n := |variables| - 1;
      var last := VariableSites(variables[n], p + [Idx(n)], f + [Idx(n)], known);
      BasedUp(last, p, f, Idx(n));
      ListSites(variables[..n], p, f, known) + last
  }

  /** `strip_entity_secret_variables`. */
  function EntitySites(obj: Json, p: Path, f: Path, decompiled: Decompiled, field: string,
                       context: string): (sites: seq<Site>)
    ensures AllBased(sites, p, f) && Headed(sites, p, Key(field))
  {
    var sites :=
      if !EntityFits(obj, field) then [MissingAt(p + [Key(field)], f + [Key(field)])]
      else ListSites(Elements(obj, field), p + [Key(field)], f + [Key(field)],
                     SecretsOf(decompiled, EntityContext(obj, field, context)));
    BasedUp(sites, p, f, Key(field));
    sites
  }

  /** The headers of a task are walked only when there are any. */
  function HeaderSites(attrs: Json, p: Path, f: Path, decompiled: Decompiled, context: string): (sites: seq<Site>)
    ensures AllBased(sites, p, f) && Headed(sites, p, Key("headers"))
  {
    if Truthy(OrNull(Get(attrs, "headers"))) then EntitySites(attrs, p, f, decompiled, "headers", context) else []
  }

  // ----- actions

  function TaskAuthSites(task: Json, p: Path, decompiled: Decompiled, context: string): (sites: seq<Site>)
    ensures AllBased(sites, p, p)
    ensures forall s <- sites :: s.kind in {TaskPassword, Missing} && s.path == p + TASK_AUTH + BASIC_PASSWORD
  {
    var auth := Node(task, TASK_AUTH);
    var rest := TASK_AUTH + BASIC_PASSWORD;
    assert (p + rest)[|p|..] == rest && p + rest == p + TASK_AUTH + BASIC_PASSWORD;
    if !TaskAuthFits(task) then [MissingAt(p + rest, p + rest)]
    else if IsBasic(auth) then
      [Site(TaskPassword, p + rest, p + rest, Node(auth, BASIC_USERNAME), Get(Node(auth, BASIC_PASSWORD), "value"),
            SecretsOf(decompiled, context + ".basic_auth"))]
    else []
  }

  function ActionTaskSites(task: Json, p: Path, decompiled: Decompiled, context: string): (sites: seq<Site>)
    ensures AllBased(sites, p, p)
  {
    if !task.Obj? then [MissingAt(p, p)]
    else if !HasType(task, "HTTP") then []
    else if !IsText(task, "name") then [MissingAt(p, p)]
    else
      var here := context + "." + Text(task, "name");
      var headers := HeaderSites(OrNull(Get(task, "attrs")), p + [ATTRS], p + [ATTRS], decompiled, here + ".headers");
      BasedUp(headers, p, p, ATTRS);
      TaskAuthSites(task, p, decompiled, here) + headers
  }

  function ActionTaskListSites(tasks: seq<Json>, p: Path, decompiled: Decompiled, context: string): (sites: seq<Site>)
    ensures AllBased(sites, p, p) && Rows(sites, p, |tasks|)
  {
    if tasks == [] then []
    else
      var n := |tasks| - 1;
      var last := ActionTaskSites(tasks[n], p + [Idx(n)], decompiled, context);
      BasedUp(last, p, p, Idx(n));
      ActionTaskListSites(tasks[..n], p, decompiled, context) + last
  }

  /** The tasks of an action's runbook, which lies at `p`. */
  function ActionTasksSites(runbook: Json, p: Path, decompiled: Decompiled, context: string): (sites: seq<Site>)
    ensures AllBased(sites, p, p) && Headed(sites, p, TASKS)
  {
    var tasks :=
      if !IsText(runbook, "name") || !Iterable(Get(runbook, TASKS.key)) then [MissingAt(p + [TASKS], p + [TASKS])]
      else ActionTaskListSites(Elements(runbook, TASKS.key), p + [TASKS], decompiled,
                               context + "." + Text(runbook, "name") + ".task_definition_list");
    BasedUp(tasks, p, p, TASKS);
    tasks
  }

  /** Sites below one action's runbook, which lies at `p`. */
  function ActionRunbookSites(runbook: Json, p: Path, decompiled: Decompiled, context: string): (sites: seq<Site>)
    ensures AllBased(sites, p, p)
  {
    EntitySites(runbook, p, p, decompiled, "variable_list", context) + ActionTasksSites(runbook, p, decompiled, context)
  }

  function RunbookOf(action: Json): Json {
    OrNull(Get(action, "runbook"))
  }

  /** How many actions are walked: the walk returns at the first one without a runbook. */
  function Walked(actions: seq<Json>): (n: nat)
    ensures n <= |actions|
    ensures forall i | 0 <= i < n :: Truthy(RunbookOf(actions[i]))
    ensures n < |actions| ==> !Truthy(RunbookOf(actions[n]))
  {
    if actions == [] || !Truthy(RunbookOf(actions[0])) then 0 else Walked(actions[1..]) + 1
  }

  /** One walked action, which lies at `p`. */
  function OneActionSites(action: Json, p: Path, decompiled: Decompiled, context: string): (sites: seq<Site>)
    ensures AllBased(sites, p, p)
  {
    if !IsText(action, "name") then [MissingAt(p, p)]
    else
      var sites := ActionRunbookSites(RunbookOf(action), p + [Key("runbook")], decompiled,
                                      context + "." + Text(action, "name") + ".runbook");
      BasedUp(sites, p, p, Key("runbook"));
      sites
  }

  function ActionListSites(actions: seq<Json>, p: Path, decompiled: Decompiled, context: string): (sites: seq<Site>)
    ensures AllBased(sites, p, p) && Rows(sites, p, |actions|)
  {
    if actions == [] then []
    else
      var n := |actions| - 1;
      var last := OneActionSites(actions[n], p + [Idx(n)], decompiled, context);
      BasedUp(last, p, p, Idx(n));
      ActionListSites(actions[..n], p, decompiled, context) + last
  }

  /** The action that ends the walk still needs a name. */
  function StopSites(actions: seq<Json>, p: Path): (sites: seq<Site>)
    ensures AllBased(sites, p, p)
    ensures forall s <- sites :: p < s.path && s.kind == Missing
  {
    var n := Walked(actions);
    if n < |actions| && !IsText(actions[n], "name") then [MissingAt(p + [Idx(n)], p + [Idx(n)])] else []
  }

  /** `strip_action_secret_variables`. */
  function ActionSites(obj: Json, p: Path, decompiled: Decompiled, context: string): (sites: seq<Site>)
    ensures AllBased(sites, p, p) && Headed(sites, p, Key("action_list"))
  {
    var actions := Elements(obj, "action_list");
    var q := p + [Key("action_list")];
    var sites :=
      if !obj.Obj? || !Listable(Get(obj, "action_list")) then [MissingAt(q, q)]
      else ActionListSites(actions[..Walked(actions)], q, decompiled, context) + StopSites(actions, q);
    BasedUp(sites, p, p, Key("action_list"));
    sites
  }

  // ----- authentication and runbook tasks, whose secrets may be filed elsewhere

  /** `strip_authentication_secret_variables`: found at `authentication.password`, filed below `basic_auth`. */
  function AuthSites(obj: Json, p: Path, f: Path, decompiled: Decompiled, context: string): (sites: seq<Site>)
    ensures forall s <- sites ::
              && s.path == p + [Key("authentication"), Key("password")]
              && (s == MissingAt(s.path, f + [Key("authentication"), Key("password")])
                  || (&& s.kind == AuthPassword
                      && s.filed == f + [Key("authentication")] + BASIC_PASSWORD
                      && IsBasic(Node(obj, [Key("authentication")]))))
  {
    var auth := Node(obj, [Key("authentication")]);
    var password := OrNull(Get(auth, "password"));
    var own := [Key("authentication"), Key("password")];
    if !AuthFits(obj) then [MissingAt(p + own, f + own)]
    else if IsBasic(auth) then
      [Site(AuthPassword, p + own, f + [Key("authentication")] + BASIC_PASSWORD,
            OrNull(Get(password, "name")), Get(password, "value"),
            SecretsOf(decompiled, context + "." + Text(obj, "name") + ".basic_auth"))]
    else []
  }

  /** The HTTP task whose `attrs` lie at `at`; its secrets are filed below `filed`. */
  function HttpTaskSites(attrs: Json, at: Path, filed: Path, decompiled: Decompiled,
                         context: string): (sites: seq<Site>)
    ensures forall s <- sites :: at <= s.path && filed <= s.filed
    ensures filed == at && !IsBasic(Node(attrs, [Key("authentication")])) ==> forall s <- sites :: s.filed == s.path
  {
    AuthSites(attrs, at, filed, decompiled, context)
    + HeaderSites(attrs, at, filed, decompiled, context + ".headers")
  }

  /** Where the secrets of an HTTP task are filed: below a `runbook` step when it uses basic authentication. */
  function TaskFile(attrs: Json, p: Path, i: nat): (filed: Path)
    ensures IsBasic(Node(attrs, [Key("authentication")])) ==> filed == p + [Key("runbook"), TASKS, Idx(i), ATTRS]
    ensures !IsBasic(Node(attrs, [Key("authentication")])) ==> filed == p + [TASKS, Idx(i), ATTRS]
  {
    (if IsBasic(Node(attrs, [Key("authentication")])) then p + [Key("runbook")] else p) + [TASKS, Idx(i), ATTRS]
  }

  /** The task at index `i` of the runbook-like object at `p`. */
  function RunbookTaskSites(task: Json, p: Path, i: nat, decompiled: Decompiled, context: string): (sites: seq<Site>)
    ensures forall s <- sites :: p + [TASKS, Idx(i), ATTRS] <= s.path
    ensures forall s <- sites :: s.filed == s.path || p + [Key("runbook"), TASKS, Idx(i), ATTRS] <= s.filed
  {
    var attrs := OrNull(Get(task, "attrs"));
    var at := p + [TASKS, Idx(i), ATTRS];
    if !task.Obj? then [MissingAt(at, at)]
    else if HasType(task, "RT_OPERATION") then
      EntitySites(attrs, at, at, decompiled, "inarg_list", "")
    else if !HasType(task, "HTTP") then []
    else if !HttpTaskFits(task) then [MissingAt(at, at)]
    else HttpTaskSites(attrs, at, TaskFile(attrs, p, i), decompiled, context + "." + Text(task, "name"))
  }

  /** Filed where it was found, or below a `runbook` step at the row of its own task. */
  predicate FiledAtRow(s: Site, p: Path) {
    |s.path| > |p| + 1 && p <= s.filed
        && (s.filed == s.path || p + [Key("runbook"), TASKS, s.path[|p|+1], ATTRS] <= s.filed)
  }

  lemma TaskRows(last: seq<Site>, p: Path, n: nat)
    requires forall s <- last :: p + [TASKS, Idx(n), ATTRS] <= s.path
    requires forall s <- last :: s.filed == s.path || p + [Key("runbook"), TASKS, Idx(n), ATTRS] <= s.filed
    ensures Rows(last, p + [TASKS], n + 1) && Headed(last, p, TASKS)
    ensures forall s <- last :: FiledAtRow(s, p)
  {
    forall s <- last
      ensures p + [TASKS] < s.path && s.path[|p|+1] == Idx(n) && s.path[|p|] == TASKS && FiledAtRow(s, p)
    {
      var rest := s.path[|p|+3..];
      assert s.path == p + [TASKS, Idx(n), ATTRS] + rest == p + [TASKS] + ([Idx(n), ATTRS] + rest);
      if s.filed != s.path {
        assert s.filed == p + ([Key("runbook"), TASKS, Idx(n), ATTRS] + s.filed[|p|+4..]);
      }
    }
  }

  function RunbookListSites(tasks: seq<Json>, p: Path, decompiled: Decompiled, context: string): (sites: seq<Site>)
    ensures Rows(sites, p + [TASKS], |tasks|) && Headed(sites, p, TASKS)
    ensures forall s <- sites :: FiledAtRow(s, p)
  {
    if tasks == [] then []
    else
      var n := |tasks| - 1;
      var last := RunbookTaskSites(tasks[n], p, n, decompiled, context);
      TaskRows(last, p, n);
      RunbookListSites(tasks[..n], p, decompiled, context) + last
  }

  lemma RowsBelowRunbook(sites: seq<Site>, p: Path)
    requires forall s <- sites :: FiledAtRow(s, p)
    ensures forall s <- sites :: p <= s.filed && (s.filed == s.path || p + [Key("runbook")] <= s.filed)
  {
    forall s <- sites ensures s.filed == s.path || p + [Key("runbook")] <= s.filed {
      if s.filed != s.path {
        assert p + [Key("runbook"), TASKS, s.path[|p|+1], ATTRS] == p + [Key("runbook")]
            + [TASKS, s.path[|p|+1], ATTRS];
      }
    }
  }

  /** `strip_runbook_secret_variables`. */
  function RunbookSites(obj: Json, p: Path, decompiled: Decompiled, context: string): (sites: seq<Site>)
    ensures Headed(sites, p, TASKS)
    ensures forall s <- sites :: p <= s.filed && (s.filed == s.path || p + [Key("runbook")] <= s.filed)
  {
    if !Iterable(Get(obj, TASKS.key)) then [MissingAt(p + [TASKS], p + [TASKS])]
    else
      var sites := RunbookListSites(Elements(obj, TASKS.key), p, decompiled, context);
      RowsBelowRunbook(sites, p);
      sites
  }

  /** `strip_all_secret_variables` for the object at `p`, whose path starts with the key `head`. */
  function AllSites(obj: Json, p: Path, decompiled: Decompiled, head: string): (sites: seq<Site>) {
    var variables := EntitySites(obj, p, p, decompiled, "variable_list", head);
    if !IsText(obj, "name") then variables + [MissingAt(p + [Key("action_list")], p + [Key("action_list")])]
    else
      variables
      + ActionSites(obj, p, decompiled, head + "." + Text(obj, "name") + ".action_list")
      + RunbookSites(obj, p, decompiled, head + "." + Text(obj, "name") + ".task_definition_list")
      + AuthSites(obj, p, p, decompiled, head)
  }
}
