/**
 Payloads whose secrets do not come back: passwords looked for, or filed, where they are not, and
 names used twice.
 */
module SecretLosses {
  import opened Options
  import opened JsonTree
  import opened SecretSites
  import opened SecretWalk
  import opened SecretRoundTrip
  import opened SecretPayload
  import opened SecretLaw
  import opened SecretEntities
  import opened StripPasses

  lemma {:induction false} InTasks(tasks: seq<Json>, p: Path, decompiled: Decompiled, context: string, t: nat, s: Site)
    requires t < |tasks| && s in RunbookTaskSites(tasks[t], p, t, decompiled, context)
    ensures s in RunbookListSites(tasks, p, decompiled, context)
  {
    hide RunbookTaskSites;
    var n := |tasks| - 1;
    if t < n {
      InTasks(tasks[..n], p, decompiled, context, t, s);
    }
  }

  lemma {:induction false} InObjects(j: Json, objects: seq<string>, k: string, decompiled: Decompiled)
    requires k in objects
    ensures forall s | s in AllSites(Node(j, [Key(k)]), [Key(k)], decompiled, k) ::
            s in ObjectsSites(j, objects, decompiled)
  {
    hide AllSites, Lookup;
    var n := |objects| - 1;
    if objects[n] != k {
      InObjects(j, objects[..n], k, decompiled);
    }
  }

  // ----- tasks of a runbook that use basic authentication

  function TaskAuth(task: Json): Json {
    Node(OrNull(Get(task, "attrs")), [Key("authentication")])
  }

  predicate UsesBasic(task: Json) {
    HasType(task, "HTTP") && IsBasic(TaskAuth(task))
  }

  function TasksOfMember(j: Json, k: string): seq<Json> {
    Elements(Node(j, [Key(k)]), TASKS.key)
  }

  /**
   What the strip makes of such a task when decompilation recorded nothing: an error, certainly when
   no password stands directly below `authentication`, or a secret that is filed elsewhere.
   */
  lemma BasicTaskSite(task: Json, p: Path, t: nat, context: string) returns (s: Site)
    requires UsesBasic(task)
    ensures s in RunbookTaskSites(task, p, t, map[], context)
    ensures !Fails(s) ==> Stripped(s) && s.filed != s.path
    ensures !OrNull(Get(TaskAuth(task), "password")).Obj? ==> Fails(s)
  {
    var attrs := OrNull(Get(task, "attrs"));
    var at := p + [TASKS, Idx(t), ATTRS];
    var here := context + "." + Text(task, "name");
    assert "HTTP" != "RT_OPERATION" && !HasType(task, "RT_OPERATION");
    if !HttpTaskFits(task) {
      s := MissingAt(at, at);
    } else {
      assert SecretsOf(map[], here + "." + Text(attrs, "name") + ".basic_auth") == map[];
      var sites := AuthSites(attrs, at, TaskFile(attrs, p, t), map[], here);
      NodeOfKey(attrs, "authentication");
      FiledElsewhere(attrs, p, t);
      s := sites[0];
      hide HeaderSites, AuthSites, TaskFile;
      assert s in HttpTaskSites(attrs, at, TaskFile(attrs, p, t), map[], here);
    }
  }

  lemma FiledElsewhere(attrs: Json, p: Path, t: nat)
    requires IsBasic(Node(attrs, [Key("authentication")]))
    ensures TaskFile(attrs, p, t) + [Key("authentication")] + BASIC_PASSWORD != p + [TASKS, Idx(t), ATTRS]
            + [Key("authentication"), Key("password")]
  {
    assert (TaskFile(attrs, p, t) + [Key("authentication")] + BASIC_PASSWORD)[|p|] == Key("runbook");
    assert (p + [TASKS, Idx(t), ATTRS] + [Key("authentication"), Key("password")])[|p|] == TASKS;
  }

  /** If the strip passes the payload, it stops at every task of a runbook in it. */
  lemma TaskInPayload(j: Json, lists: seq<string>, objects: seq<string>, k: string, t: nat, s: Site)
    requires k in objects && t < |TasksOfMember(j, k)|
    requires var context := k + "." + Text(Node(j, [Key(k)]), "name") + ".task_definition_list";
      s in RunbookTaskSites(TasksOfMember(j, k)[t], [Key(k)], t, map[], context)
    ensures Completes(PayloadSites(j, lists, objects, map[])) ==> s in PayloadSites(j, lists, objects, map[])
  {
    var obj, p := Node(j, [Key(k)]), [Key(k)];
    var context := k + "." + Text(obj, "name") + ".task_definition_list";
    InObjects(j, objects, k, map[]);
    InTasks(TasksOfMember(j, k), p, map[], context, t, s);
    AllCompletes(obj, p, map[], k);
    if Completes(PayloadSites(j, lists, objects, map[])) {
      PassedAll(j, lists, objects, k);
      OneFails([], p + [TASKS]);
      hide EntitySites, ActionSites, AuthSites, RunbookListSites, Completes, ListsSites, ObjectsSites;
      assert s in RunbookSites(obj, p, map[], context);
      assert s in AllSites(obj, p, map[], k);
    }
  }

  lemma PassedAll(j: Json, lists: seq<string>, objects: seq<string>, k: string)
    requires k in objects && Completes(PayloadSites(j, lists, objects, map[]))
    ensures Completes(AllSites(Node(j, [Key(k)]), [Key(k)], map[], k))
  {
    InObjects(j, objects, k, map[]);
    hide AllSites, ListsSites, ObjectsSites;
  }

  lemma Misfits(j: Json, s: Site)
    requires Stripped(s) && s.filed != s.path
    ensures !Fitting(j, s)
  {
  }

  /** A payload with such a task never comes back as it was: the client stops, or the password is lost. */
  lemma BasicTaskLost(j: Json, lists: seq<string>, objects: seq<string>, k: string, t: nat)
    requires EntityNames(lists, objects) && k in objects && t < |TasksOfMember(j, k)|
             && UsesBasic(TasksOfMember(j, k)[t])
    ensures PayloadOutcome(j, lists, objects, map[]) != Some(Marked(j, PayloadSites(j, lists, objects, map[])))
    ensures !OrNull(Get(TaskAuth(TasksOfMember(j, k)[t]), "password")).Obj?
            ==> PayloadOutcome(j, lists, objects, map[]) == None
  {
    var context := k + "." + Text(Node(j, [Key(k)]), "name") + ".task_definition_list";
    var s := BasicTaskSite(TasksOfMember(j, k)[t], [Key(k)], t, context);
    hide PayloadOutcome, PayloadSites, Marked, Fitting, Fails, Stripped, NamesFit, AllWalk;
    TaskInPayload(j, lists, objects, k, t, s);
    if !Fails(s) {
      Misfits(j, s);
    }
    PayloadLaw(j, lists, objects, map[]);
  }

  /** A runbook of one HTTP task. */
  function OneTaskRunbook(auth: Json): Json {
    var task := Obj(map["name" := Str("call"), "type" := Str("HTTP"), "attrs" := Obj(map["authentication" := auth])]);
    Obj(map["runbook" := Obj(map["name" := Str("r"), "task_definition_list" := Arr([task])])])
  }

  lemma OneTask(auth: Json)
    ensures var j := OneTaskRunbook(auth);
      && TasksOfMember(j, "runbook")
          == [Obj(map["name" := Str("call"), "type" := Str("HTTP"), "attrs" := Obj(map["authentication" := auth])])]
      && TaskAuth(TasksOfMember(j, "runbook")[0]) == auth
      && EntityNames([], ["runbook"])
  {
    OneStep(OneTaskRunbook(auth), Key("runbook"));
    OneStep(Obj(map["authentication" := auth]), Key("authentication"));
    assert [] + ["runbook"] == ["runbook"] && "runbook" != "authentication";
  }

  /**
   The task as the client's own builder writes it for a credential, with the password below
   `basic_auth`: the upload of a runbook with it raises an error, whatever the credential.
   */
  lemma BuilderTaskRaises(username: string, password: string)
    ensures var auth := Obj(map["auth_type" := Str("basic"), "basic_auth" := Obj(map["username" := Str(username),
        "password" := Obj(map["value" := Str(password), "attrs" := MODIFIED])])]);
      PayloadOutcome(OneTaskRunbook(auth), [], ["runbook"], map[]) == None
  {
    var auth := Obj(map["auth_type" := Str("basic"), "basic_auth" := Obj(map["username" := Str(username),
      "password" := Obj(map["value" := Str(password), "attrs" := MODIFIED])])]);
    OneTask(auth);
    hide PayloadOutcome, PayloadSites, OneTaskRunbook;
    BasicTaskLost(OneTaskRunbook(auth), [], ["runbook"], "runbook", 0);
  }

  /** With the password directly below `authentication`, no payload with the password in its place comes out. */
  lemma BasicRunbookLost(password: string)
    ensures var auth := Obj(map["auth_type" := Str("basic"), "password" := Obj(map["value" := Str(password)])]);
      var j := OneTaskRunbook(auth);
      PayloadOutcome(j, [], ["runbook"], map[]) != Some(Marked(j, PayloadSites(j, [], ["runbook"], map[])))
  {
    var auth := Obj(map["auth_type" := Str("basic"), "password" := Obj(map["value" := Str(password)])]);
    OneTask(auth);
    hide PayloadOutcome, PayloadSites, OneTaskRunbook, Marked;
    BasicTaskLost(OneTaskRunbook(auth), [], ["runbook"], "runbook", 0);
  }

  // ----- a kept password whose file path is blocked

  /** The object's own authentication has a password that was decompiled with this very value. */
  predicate KeepsBasic(obj: Json, known: Known) {
    var password := OrNull(Get(Node(obj, [Key("authentication")]), "password"));
    && IsText(obj, "name") && AuthFits(obj) && IsBasic(Node(obj, [Key("authentication")]))
    && Truthy(OrNull(Get(password, "value")))
        && !IsModified(known, OrNull(Get(password, "name")), OrNull(Get(password, "value")))
  }

  /** `basic_auth`, or the `password` in it, is there but cannot take a key: it is null, say. */
  predicate Blocked(auth: Json) {
    match Get(auth, "basic_auth")
    case None => false
    case Some(basic) => !basic.Obj? || (Get(basic, "password").Some? && !Get(basic, "password").value.Obj?)
  }

  lemma BlockedWalk(j: Json, k: string)
    requires j.Obj? && Blocked(Node(Node(j, [Key(k)]), [Key("authentication")]))
    ensures !Walks(j, [Key(k), Key("authentication"), Key("basic_auth"), Key("password")])
  {
    var obj := Node(j, [Key(k)]);
    var auth := Node(obj, [Key("authentication")]);
    OneStep(j, Key(k));
    OneStep(obj, Key("authentication"));
    var p := [Key(k), Key("authentication"), Key("basic_auth"), Key("password")];
    var q := [Key("authentication"), Key("basic_auth"), Key("password")];
    var r := [Key("basic_auth"), Key("password")];
    assert p[1..] == q && q[1..] == r && r[1..] == [Key("password")] && r[1..][1..] == [];
    BlockedBelow(auth, r);
  }

  lemma BlockedBelow(auth: Json, r: Path)
    requires Blocked(auth) && r == [Key("basic_auth"), Key("password")]
    ensures auth.Obj? && !Walks(auth, r)
  {
    assert r[1..] == [Key("password")] && r[1..][1..] == [];
    var basic := Get(auth, "basic_auth").value;
    assert !Walks(basic, r[1..]);
  }

  /** The patch files its mark below `basic_auth`, and raises an error there, though the strip took nothing. */
  lemma KeptBasicRaises(j: Json, lists: seq<string>, objects: seq<string>, decompiled: Decompiled, k: string)
    requires EntityNames(lists, objects) && k in objects
    requires var obj := Node(j, [Key(k)]);
      KeepsBasic(obj, SecretsOf(decompiled, k + "." + Text(obj, "name") + ".basic_auth"))
          && Blocked(Node(obj, [Key("authentication")]))
    ensures PayloadOutcome(j, lists, objects, decompiled) == None
  {
    var obj := Node(j, [Key(k)]);
    var s := AuthSites(obj, [Key(k)], [Key(k)], decompiled, k)[0];
    assert s.filed == [Key(k), Key("authentication"), Key("basic_auth"), Key("password")];
    assert KeptInPlace(s) && s in AllSites(obj, [Key(k)], decompiled, k);
    InObjects(j, objects, k, decompiled);
    OneStep(j, Key(k));
    BlockedWalk(j, k);
    hide PayloadOutcome, Marked, NamesFit, Fitting, Completes, KeptInPlace, Walks, AllSites;
    assert s in PayloadSites(j, lists, objects, decompiled);
    hide PayloadSites;
    PayloadLaw(j, lists, objects, decompiled);
  }

  // ----- names

  /** Two credentials of one name whose secrets differ; nothing was decompiled. */
  predicate SharedName(j: Json, i: nat, k: nat) {
    var credentials := Elements(j, CREDENTIALS);
    i < |credentials| && k < |credentials| && Text(credentials[i], "name") == Text(credentials[k], "name")
    && Get(credentials[i], "secret").Some? && Get(credentials[i], "secret") != Get(credentials[k], "secret")
  }

  /** One of their secrets is lost, whatever else the payload holds. */
  lemma SharedNameLost(j: Json, lists: seq<string>, objects: seq<string>, i: nat, k: nat)
    requires EntityNames(lists, objects) && SharedName(j, i, k)
    ensures PayloadOutcome(j, lists, objects, map[]) != Some(Marked(j, PayloadSites(j, lists, objects, map[])))
  {
    var holders := Holders(j, map[], true);
    assert SecretsOf(map[], CREDENTIALS) == map[];
    assert holders[i].stripped && holders[k].receives && holders[i].name == holders[k].name;
    assert holders[k].secret != Some(Popped(holders[i].secret));
    hide Holders, PayloadSites, PayloadOutcome, Marked, NamesFit, Fitting, SitesFit;
    PayloadLaw(j, lists, objects, map[]);
  }

  lemma UniqueNamesReturn(holders: seq<Holder>)
    requires forall i, k | 0 <= i < k < |holders| :: holders[i].name != holders[k].name
    requires forall h | h in holders && h.stripped :: h.receives && h.secret.Some?
    ensures Unclashing(holders)
  {
  }

  /**
   What callers rely on: with everything in its place, credentials and username all named differently,
   no secret missing, and secrets by path fitting, the round trip loses nothing.
   */
  lemma UniqueNamesRestored(j: Json, lists: seq<string>, objects: seq<string>, decompiled: Decompiled)
    requires EntityNames(lists, objects) && NamesFit(j, true)
             && SitesFit(j, PayloadSites(j, lists, objects, decompiled))
    requires var holders := Holders(j, decompiled, true);
      && (forall i, k | 0 <= i < k < |holders| :: holders[i].name != holders[k].name)
      && (forall h | h in holders && h.stripped :: h.receives && h.secret.Some?)
    requires forall s | s in PayloadSites(j, lists, objects, decompiled) :: Fitting(j, s)
    ensures PayloadOutcome(j, lists, objects, decompiled)
            == Some(Marked(j, PayloadSites(j, lists, objects, decompiled)))
  {
    hide PayloadSites, Holders, PayloadOutcome, Marked, Fitting, EntityNames, NamesFit, SitesFit;
    UniqueNamesReturn(Holders(j, decompiled, true));
    PayloadLaw(j, lists, objects, decompiled);
  }
}
